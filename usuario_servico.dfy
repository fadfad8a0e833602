/** The user service: registration of producers and vets, login lookup,
    producer update and the response body. The password encoder is a
    parameter of the service. */
module UsuarioServico {
  import opened Common
  import opened Ordenacao
  import opened Usuarios

  /** ProdutorRequestDTO; the request is validated, so every field is present. */
  datatype ProdutorRequest = ProdutorRequest(nome: string, email: string, senha: string, uf: string, cidade: string)

  /** VeterinarioRequestDTO; bio and CRM are optional. */
  datatype VeterinarioRequest = VeterinarioRequest(
    nome: string, email: string, senha: string, uf: string, cidade: string,
    formacao: string, bio: Option<string>, crm: Option<string>)

  datatype UsuarioResponse = UsuarioResponse(
    id: Option<int>,
    nome: string,
    email: string,
    tipo: string,
    dataCriacao: Option<int>,
    estado: Option<string>,
    cidade: Option<string>,
    formacao: Option<string>,
    bio: Option<string>,
    crm: Option<string>)

  /** No two entries share an email, ignoring case. */
  ghost predicate EmailsUnicos(s: seq<Usuario>) {
    forall i, j :: 0 <= i < j < |s| ==> !EqualsIgnoreCase(s[i].email, s[j].email)
  }

  /** mapearParaResponse: identity, type and creation date always; state and
      city only from an address; formação, bio and CRM only for a vet. The
      password hash is never copied. */
  function MapearParaResponse(u: Usuario): (r: UsuarioResponse)
    ensures r.id == u.id && r.nome == u.nome && r.email == u.email && r.dataCriacao == u.dataCriacao
    ensures r.tipo == "PRODUTOR" <==> u.perfil.Produtor?
    ensures r.tipo == "VETERINARIO" <==> u.perfil.Veterinario?
    ensures u.endereco.None? ==> r.estado.None? && r.cidade.None?
    ensures u.endereco.Some? ==> r.estado == u.endereco.value.estado && r.cidade == u.endereco.value.cidade
    ensures u.perfil.Produtor? ==> r.formacao.None? && r.bio.None? && r.crm.None?
    ensures u.perfil.Veterinario? ==>
              r.formacao == u.perfil.formacao && r.bio == u.perfil.bio && r.crm == u.perfil.crm
  {
    var estado := if u.endereco.Some? then u.endereco.value.estado else None;
    var cidade := if u.endereco.Some? then u.endereco.value.cidade else None;
    match u.perfil
    case Produtor =>
      UsuarioResponse(u.id, u.nome, u.email, u.TipoUsuario(), u.dataCriacao, estado, cidade, None, None, None)
    case Veterinario(crm, formacao, bio) =>
      UsuarioResponse(u.id, u.nome, u.email, u.TipoUsuario(), u.dataCriacao, estado, cidade, formacao, bio, crm)
  }

  /** Appending a user whose email matches no stored email keeps emails unique. */
  lemma AcrescentarMantemUnicos(s: seq<Usuario>, u: Usuario)
    requires EmailsUnicos(s)
    requires forall v :: v in s ==> !EqualsIgnoreCase(v.email, u.email)
    ensures EmailsUnicos(s + [u])
  {
    var t := s + [u];
    forall i, j | 0 <= i < j < |t|
      ensures !EqualsIgnoreCase(t[i].email, t[j].email)
    {
      if j == |s| {
        assert t[i] in s;
      } else {
        assert t[i] == s[i] && t[j] == s[j];
      }
    }
  }

  class ServicoUsuarios {
    const produtores: RepositorioUsuarios
    const veterinarios: RepositorioUsuarios
    const codificar: string -> string

    ghost predicate Valid()
      reads this, produtores, veterinarios
    {
      produtores != veterinarios && produtores.Valid() && veterinarios.Valid()
    }

    constructor (produtores: RepositorioUsuarios, veterinarios: RepositorioUsuarios, codificar: string -> string)
      requires produtores != veterinarios
      ensures this.produtores == produtores && this.veterinarios == veterinarios && this.codificar == codificar
    {
      this.produtores := produtores;
      this.veterinarios := veterinarios;
      this.codificar := codificar;
    }

    /** cadastrarProdutor: rejects an email already registered for a producer
        (ignoring case); otherwise stores the producer with the encoded
        password and an address holding the UF and city. */
    method CadastrarProdutor(dto: ProdutorRequest, agora: int) returns (r: Result<UsuarioResponse>)
      requires Valid()
      modifies produtores
      ensures Valid()
      ensures veterinarios.usuarios == old(veterinarios.usuarios)
      ensures r.Err? <==> old(produtores.ExistePorEmail(dto.email))
      ensures r.Err? ==> r.erro == EmailJaCadastrado && produtores.usuarios == old(produtores.usuarios)
      ensures r.Ok? ==>
                var novo := Usuario(Some(old(produtores.GerarProximoId())), dto.nome, dto.email, codificar(dto.senha),
                                    Some(Endereco(Some(dto.uf), Some(dto.cidade))), Some(agora), Some(agora), Produtor);
                && produtores.usuarios == old(produtores.usuarios) + [novo]
                && r.value == MapearParaResponse(novo)
      ensures EmailsUnicos(old(produtores.usuarios)) ==> EmailsUnicos(produtores.usuarios)
    {
      if produtores.ExistePorEmail(dto.email) {
        return Err(EmailJaCadastrado);
      }
      var produtor := Usuario(None, dto.nome, dto.email, codificar(dto.senha),
                              Some(Endereco(Some(dto.uf), Some(dto.cidade))), Some(agora), None, Produtor);
      ghost var antes := produtores.usuarios;
      var salvo := produtores.Salvar(produtor, agora);
      FiltrarTodos(antes, (v: Usuario) => v.id != salvo.id);
      if EmailsUnicos(antes) {
        AcrescentarMantemUnicos(antes, salvo);
      }
      r := Ok(MapearParaResponse(salvo));
    }

    /** cadastrarVeterinario: the same for vets; uniqueness is checked only
        against vets, so a vet may share an email with a producer. */
    method CadastrarVeterinario(dto: VeterinarioRequest, agora: int) returns (r: Result<UsuarioResponse>)
      requires Valid()
      modifies veterinarios
      ensures Valid()
      ensures produtores.usuarios == old(produtores.usuarios)
      ensures r.Err? <==> old(veterinarios.ExistePorEmail(dto.email))
      ensures r.Err? ==> r.erro == EmailJaCadastrado && veterinarios.usuarios == old(veterinarios.usuarios)
      ensures r.Ok? ==>
                var novo := Usuario(Some(old(veterinarios.GerarProximoId())), dto.nome, dto.email, codificar(dto.senha),
                                    Some(Endereco(Some(dto.uf), Some(dto.cidade))), Some(agora), Some(agora),
                                    Veterinario(dto.crm, Some(dto.formacao), dto.bio));
                && veterinarios.usuarios == old(veterinarios.usuarios) + [novo]
                && r.value == MapearParaResponse(novo)
      ensures EmailsUnicos(old(veterinarios.usuarios)) ==> EmailsUnicos(veterinarios.usuarios)
    {
      if veterinarios.ExistePorEmail(dto.email) {
        return Err(EmailJaCadastrado);
      }
      var veterinario := Usuario(None, dto.nome, dto.email, codificar(dto.senha),
                                 Some(Endereco(Some(dto.uf), Some(dto.cidade))), Some(agora), None,
                                 Veterinario(dto.crm, Some(dto.formacao), dto.bio));
      ghost var antes := veterinarios.usuarios;
      var salvo := veterinarios.Salvar(veterinario, agora);
      FiltrarTodos(antes, (v: Usuario) => v.id != salvo.id);
      if EmailsUnicos(antes) {
        AcrescentarMantemUnicos(antes, salvo);
      }
      r := Ok(MapearParaResponse(salvo));
    }

    /** buscarPorEmail: the producer match when there is one, else the vet match. */
    function BuscarPorEmail(email: string): (r: Option<Usuario>)
      reads this, produtores, veterinarios
      ensures r.None? <==> !produtores.ExistePorEmail(email) && !veterinarios.ExistePorEmail(email)
      ensures produtores.ExistePorEmail(email) ==> r == produtores.BuscarPorEmail(email)
      ensures !produtores.ExistePorEmail(email) ==> r == veterinarios.BuscarPorEmail(email)
    {
      var produtor := produtores.BuscarPorEmail(email);
      if produtor.Some? then produtor else veterinarios.BuscarPorEmail(email)
    }

    /** atualizarProdutor: rejects an unknown id, and a new email (compared
        case-sensitively with the current one) that some producer already has
        ignoring case; otherwise overwrites name, email, UF and city,
        re-encodes a non-blank password and saves. */
    method AtualizarProdutor(id: int, dto: ProdutorRequest, agora: int) returns (r: Result<UsuarioResponse>)
      requires Valid()
      modifies produtores
      ensures Valid()
      ensures veterinarios.usuarios == old(veterinarios.usuarios)
      ensures old(produtores.BuscarPorId(id)).None? ==> r == Err(NaoEncontrado)
      ensures old(produtores.BuscarPorId(id)).Some? ==>
                var atual := old(produtores.BuscarPorId(id)).value;
                (r == Err(EmailJaCadastrado) <==> atual.email != dto.email && old(produtores.ExistePorEmail(dto.email)))
      ensures r.Ok? <==> old(produtores.BuscarPorId(id)).Some? &&
                         !(old(produtores.BuscarPorId(id)).value.email != dto.email &&
                           old(produtores.ExistePorEmail(dto.email)))
      ensures r.Err? ==> produtores.usuarios == old(produtores.usuarios)
      ensures r.Ok? ==>
                var atual := old(produtores.BuscarPorId(id)).value;
                var novo := atual.(nome := dto.nome, email := dto.email,
                                   senha := if EmBranco(dto.senha) then atual.senha else codificar(dto.senha),
                                   endereco := Some(Endereco(Some(dto.uf), Some(dto.cidade))),
                                   dataAtualizacao := Some(agora));
                && produtores.usuarios == Filtrar(old(produtores.usuarios), (v: Usuario) => v.id != Some(id)) + [novo]
                && r.value == MapearParaResponse(novo)
    {
      var encontrado := produtores.BuscarPorId(id);
      if encontrado.None? {
        return Err(NaoEncontrado);
      }
      var produtor := encontrado.value;
      if produtor.email != dto.email && produtores.ExistePorEmail(dto.email) {
        return Err(EmailJaCadastrado);
      }
      var senha := if EmBranco(dto.senha) then produtor.senha else codificar(dto.senha);
      produtor := produtor.(nome := dto.nome, email := dto.email, senha := senha,
                            endereco := Some(Endereco(Some(dto.uf), Some(dto.cidade))));
      var salvo := produtores.Atualizar(produtor, agora);
      r := Ok(MapearParaResponse(salvo));
    }
  }

  /** Changing only the case of one's own email is rejected: the current
      entry itself matches the new email ignoring case. */
  lemma TrocaDeCaixaRejeitada(repo: RepositorioUsuarios, id: int, novo: string)
    requires repo.BuscarPorId(id).Some?
    requires EqualsIgnoreCase(repo.BuscarPorId(id).value.email, novo)
    ensures repo.ExistePorEmail(novo)
  {
    assert repo.BuscarPorId(id).value in repo.usuarios;
  }
}
