/** The producer and vet tables: each is one JSON file holding a list of
    users, read whole, changed and written back whole. The two repositories
    run the same code, so one class models both; the vet table additionally
    answers the formação and recommendation queries. */
module Usuarios {
  import opened Common
  import opened Ordenacao

  datatype Endereco = Endereco(estado: Option<string>, cidade: Option<string>)

  /** The concrete class of an account, with the fields only vets have. */
  datatype Perfil =
    | Produtor
    | Veterinario(crm: Option<string>, formacao: Option<string>, bio: Option<string>)

  datatype Usuario = Usuario(
    id: Option<int>,
    nome: string,
    email: string,
    senha: string,
    endereco: Option<Endereco>,
    dataCriacao: Option<int>,
    dataAtualizacao: Option<int>,
    perfil: Perfil)
  {
    /** getTipoUsuario. */
    function TipoUsuario(): string {
      if perfil.Produtor? then "PRODUTOR" else "VETERINARIO"
    }
  }

  /** The user has an address whose state equals the query ignoring case; no
      address or a null state never matches. */
  predicate MesmoEstado(u: Usuario, estado: string) {
    u.endereco.Some? && u.endereco.value.estado.Some? && EqualsIgnoreCase(estado, u.endereco.value.estado.value)
  }

  /** A vet whose formação contains the query, ignoring case. */
  predicate TemFormacao(u: Usuario, formacao: string) {
    u.perfil.Veterinario? && u.perfil.formacao.Some? && ContemIgnorandoCaso(u.perfil.formacao.value, formacao)
  }

  /** The ids of a list whose entries all have one. */
  ghost predicate ComIds(s: seq<Usuario>) {
    forall u :: u in s ==> u.id.Some?
  }

  /** mapToInt(getUsuarioId).max().orElse(0). */
  function MaiorId(s: seq<Usuario>): (r: int)
    requires ComIds(s)
    ensures s == [] ==> r == 0
    ensures forall u :: u in s ==> u.id.value <= r
    ensures s != [] ==> exists u :: u in s && u.id.value == r
  {
    if s == [] then 0
    else if |s| == 1 then s[0].id.value
    else
      var resto := MaiorId(s[1..]);
      if s[0].id.value >= resto then s[0].id.value else resto
  }

  class RepositorioUsuarios {
    var usuarios: seq<Usuario>

    /** Every stored entry has an id: salvar assigns one before writing. */
    ghost predicate Valid()
      reads this
    {
      ComIds(usuarios)
    }

    constructor ()
      ensures Valid() && usuarios == []
    {
      usuarios := [];
    }

    /** gerarProximoId: one more than the largest stored id, 1 for an empty table. */
    function GerarProximoId(): (r: int)
      requires Valid()
      reads this
      ensures forall u :: u in usuarios ==> u.id.value < r
      ensures usuarios == [] ==> r == 1
      ensures usuarios != [] ==> exists u :: u in usuarios && u.id.value == r - 1
    {
      MaiorId(usuarios) + 1
    }

    /** salvar: a user without id gets gerarProximoId and a creation date;
        every save stamps the update; then any entry with the same id is
        removed and the user appended at the end. */
    method Salvar(u: Usuario, agora: int) returns (salvo: Usuario)
      requires Valid()
      modifies this
      ensures Valid()
      ensures u.id.None? ==>
                salvo == u.(id := Some(old(GerarProximoId())), dataCriacao := Some(agora), dataAtualizacao := Some(agora))
                && forall v :: v in old(usuarios) ==> v.id != salvo.id
      ensures u.id.Some? ==> salvo == u.(dataAtualizacao := Some(agora))
      ensures usuarios == Filtrar(old(usuarios), (v: Usuario) => v.id != salvo.id) + [salvo]
      ensures usuarios[|usuarios| - 1] == salvo
      ensures forall i :: 0 <= i < |usuarios| - 1 ==> usuarios[i].id != salvo.id
      ensures forall v :: v in old(usuarios) && v.id != salvo.id ==> v in usuarios
      ensures BuscarPorId(salvo.id.value) == Some(salvo)
    {
      salvo := u;
      if u.id.None? {
        salvo := salvo.(id := Some(GerarProximoId()), dataCriacao := Some(agora));
      }
      salvo := salvo.(dataAtualizacao := Some(agora));
      var mantidos := Filtrar(usuarios, (v: Usuario) => v.id != salvo.id);
      usuarios := mantidos + [salvo];
      forall i | 0 <= i < |usuarios| - 1
        ensures usuarios[i].id != salvo.id
      {
        assert usuarios[i] == mantidos[i] && mantidos[i] in mantidos;
      }
      PrimeiroNoFim(mantidos, salvo);
    }

    /** atualizar: the same as salvar. */
    method Atualizar(u: Usuario, agora: int) returns (salvo: Usuario)
      requires Valid()
      modifies this
      ensures Valid()
      ensures u.id.None? ==>
                salvo == u.(id := Some(old(GerarProximoId())), dataCriacao := Some(agora), dataAtualizacao := Some(agora))
      ensures u.id.Some? ==> salvo == u.(dataAtualizacao := Some(agora))
      ensures usuarios == Filtrar(old(usuarios), (v: Usuario) => v.id != salvo.id) + [salvo]
    {
      salvo := Salvar(u, agora);
    }

    /** buscarPorId: the first entry with that id. */
    function BuscarPorId(id: int): (r: Option<Usuario>)
      reads this
      ensures r.None? <==> forall u :: u in usuarios ==> u.id != Some(id)
      ensures r.Some? ==> exists i :: 0 <= i < |usuarios| && usuarios[i] == r.value && r.value.id == Some(id)
                                      && forall j :: 0 <= j < i ==> usuarios[j].id != Some(id)
    {
      match Primeiro(usuarios, (v: Usuario) => v.id == Some(id))
      case None => None
      case Some(i) => Some(usuarios[i])
    }

    /** buscarPorEmail: the first entry whose email equals the query ignoring case. */
    function BuscarPorEmail(email: string): (r: Option<Usuario>)
      reads this
      ensures r.None? <==> forall u :: u in usuarios ==> !EqualsIgnoreCase(u.email, email)
      ensures r.Some? ==> exists i :: 0 <= i < |usuarios| && usuarios[i] == r.value && EqualsIgnoreCase(r.value.email, email)
                                      && forall j :: 0 <= j < i ==> !EqualsIgnoreCase(usuarios[j].email, email)
    {
      match Primeiro(usuarios, (v: Usuario) => EqualsIgnoreCase(v.email, email))
      case None => None
      case Some(i) => Some(usuarios[i])
    }

    /** existePorEmail: buscarPorEmail finds someone. */
    predicate ExistePorEmail(email: string)
      reads this
      ensures ExistePorEmail(email) <==> exists u :: u in usuarios && EqualsIgnoreCase(u.email, email)
    {
      BuscarPorEmail(email).Some?
    }

    /** buscarPorEstado: the entries with an address in that state, ignoring case. */
    function BuscarPorEstado(estado: string): (r: seq<Usuario>)
      reads this
      ensures forall u :: u in r <==> u in usuarios && MesmoEstado(u, estado)
      ensures forall u :: u in r ==> u.endereco.Some?
    {
      Filtrar(usuarios, (v: Usuario) => MesmoEstado(v, estado))
    }

    /** excluir: removes every entry with the id and reports whether there was one. */
    method Excluir(id: int) returns (removido: bool)
      modifies this
      ensures removido <==> exists u :: u in old(usuarios) && u.id == Some(id)
      ensures usuarios == Filtrar(old(usuarios), (v: Usuario) => v.id != Some(id))
      ensures forall u :: u in usuarios <==> u in old(usuarios) && u.id != Some(id)
      ensures !removido ==> usuarios == old(usuarios)
      ensures BuscarPorId(id).None?
    {
      var restantes := Filtrar(usuarios, (v: Usuario) => v.id != Some(id));
      removido := exists u :: u in usuarios && u.id == Some(id);
      if removido {
        usuarios := restantes;
      } else {
        FiltrarTodos(usuarios, (v: Usuario) => v.id != Some(id));
      }
    }

    /** buscarPorFormacao: vets whose formação contains the query, ignoring case. */
    function BuscarPorFormacao(formacao: string): (r: seq<Usuario>)
      reads this
      ensures forall u :: u in r <==> u in usuarios && TemFormacao(u, formacao)
    {
      Filtrar(usuarios, (v: Usuario) => TemFormacao(v, formacao))
    }

    /** The filter of buscarParaRecomendacao for a non-null state. */
    predicate Recomendavel(u: Usuario, estado: string, especialidade: Option<string>) {
      MesmoEstado(u, estado) && (especialidade.None? || TemFormacao(u, especialidade.value))
    }

    /** buscarParaRecomendacao: the first five entries in the state (and with
        the formação, when one is given). A null state throws as soon as the
        stream reaches an entry with an address. */
    function BuscarParaRecomendacao(estado: Option<string>, especialidade: Option<string>): (r: Result<seq<Usuario>>)
      reads this
      ensures estado.None? ==> (r.Err? <==> exists u :: u in usuarios && u.endereco.Some?)
      ensures r.Err? ==> r.erro == PonteiroNulo
      ensures r.Ok? ==> |r.value| <= 5
      ensures r.Ok? && estado.Some? ==>
                (forall u :: u in r.value ==> u in usuarios && Recomendavel(u, estado.value, especialidade))
                && r.value <= Filtrar(usuarios, (v: Usuario) => Recomendavel(v, estado.value, especialidade))
      ensures r.Ok? && estado.None? ==> r.value == []
      ensures estado.Some? ==>
                var n := |Filtrar(usuarios, (v: Usuario) => Recomendavel(v, estado.value, especialidade))|;
                r.Ok? && |r.value| == (if n < 5 then n else 5)
    {
      if estado.None? then
        if exists u :: u in usuarios && u.endereco.Some? then Err(PonteiroNulo) else Ok([])
      else
        var filtrados := Filtrar(usuarios, (v: Usuario) => Recomendavel(v, estado.value, especialidade));
        Ok(Limitar(filtrados, 5))
    }
  }

  /** After removing `x`'s id and appending `x`, the first entry with that id is `x`. */
  lemma PrimeiroNoFim(mantidos: seq<Usuario>, x: Usuario)
    requires x.id.Some?
    requires forall v :: v in mantidos ==> v.id != x.id
    ensures Primeiro(mantidos + [x], (v: Usuario) => v.id == x.id) == Some(|mantidos|)
  {
    var s := mantidos + [x];
    assert s[|mantidos|] == x;
    assert forall j :: 0 <= j < |mantidos| ==> s[j] in mantidos;
  }
}
