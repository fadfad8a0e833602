/** The form service: saving drafts, updating and submitting forms through the
    form repository, and the response the API returns. */
module FormularioServico {
  import opened Common
  import opened Json
  import opened Status
  import opened Analise
  import opened Formulario
  import opened RepositorioFormulario

  /** The request body: producer, answers (null when omitted, since the
      request is not validated) and the submit flag. */
  datatype FormularioRequest = FormularioRequest(produtorId: int, respostas: Option<Respostas>, submeter: bool)

  /** The response body: the stored fields and whether the answers are complete. */
  datatype FormularioResponse = FormularioResponse(
    id: Option<string>,
    produtorId: int,
    dataPreenchimento: Option<int>,
    dataAtualizacao: Option<int>,
    status: StatusFormulario,
    respostas: Option<Respostas>,
    resultado: Option<ResultadoAnalise>,
    completo: bool)
  {
    /** The form fields the response carries. */
    function Dados(): Formulario {
      Formulario(id, produtorId, dataPreenchimento, dataAtualizacao, status, respostas, resultado)
    }
  }

  /** isFormularioCompleto: non-null answers holding the four section keys. */
  predicate FormularioCompleto(respostas: Option<Respostas>) {
    respostas.Some? && SecoesPresentes(respostas.value)
  }

  /** The service's completeness test agrees with the form's own isCompleto. */
  lemma CompletoConcorda(f: FormularioResposta)
    ensures FormularioCompleto(f.respostas) <==> f.IsCompleto() == Ok(true)
    ensures !FormularioCompleto(f.respostas) <==> f.IsCompleto() != Ok(true)
  {
  }

  /** Only the presence of the keys matters: four empty sections are complete,
      and dropping any one section makes the answers incomplete. */
  lemma CompletoSoPelasChaves(r: Respostas, secao: string)
    requires SecoesPresentes(r)
    ensures FormularioCompleto(Some(map["saude" := Json.Objeto(map[]), "nutricao" := Json.Objeto(map[]),
                                        "avaliacao" := Json.Objeto(map[]), "doencas" := Json.Objeto(map[])]))
    ensures secao in Analise.SECOES ==> !FormularioCompleto(Some(r - {secao}))
    ensures FormularioCompleto(Some(r[secao := Nulo]))
    ensures !FormularioCompleto(None)
  {
  }

  /** isSecaoValida: a map holding at least one value that is not null and
      does not print as blank text. */
  predicate SecaoValida(v: Json) {
    v.Objeto? && exists k :: k in v.campos && Preenchido(v.campos[k])
  }

  /** Non-maps, empty maps and maps of nulls and blank strings are not valid
      sections; a non-blank answer makes any map valid. */
  lemma SecaoValidaCasos(v: Json, k: string, resposta: Json)
    ensures !v.Objeto? ==> !SecaoValida(v)
    ensures !SecaoValida(Json.Objeto(map[]))
    ensures (v.Objeto? && forall q :: q in v.campos ==> v.campos[q].Nulo? || (v.campos[q].Texto? && EmBranco(v.campos[q].s))) ==>
              !SecaoValida(v)
    ensures v.Objeto? && Preenchido(resposta) ==> SecaoValida(Json.Objeto(v.campos[k := resposta]))
  {
    if v.Objeto? && Preenchido(resposta) {
      assert k in v.campos[k := resposta];
    }
  }

  /** mapearParaResponse: copies every field and computes `completo`. */
  function MapearParaResponse(f: Formulario): (r: FormularioResponse)
    ensures r.Dados() == f
    ensures r.completo <==> FormularioCompleto(f.respostas)
  {
    FormularioResponse(f.id, f.produtorId, f.dataPreenchimento, f.dataAtualizacao, f.status, f.respostas,
                       f.resultado, FormularioCompleto(f.respostas))
  }

  /** The status a save or update asks for: SUBMETIDO only for a complete submission. */
  predicate PedeSubmissao(dto: FormularioRequest) {
    dto.submeter && FormularioCompleto(dto.respostas)
  }

  class FormularioServico {
    const repositorio: RepositorioFormularios

    constructor (repositorio: RepositorioFormularios)
      ensures this.repositorio == repositorio
    {
      this.repositorio := repositorio;
    }

    /** salvarFormulario: a new form with the request's producer and answers,
        SUBMETIDO when a complete submission, otherwise RASCUNHO. */
    method SalvarFormulario(dto: FormularioRequest, agora: Relogio) returns (r: FormularioResponse)
      requires repositorio.Valid()
      modifies repositorio
      ensures repositorio.Valid()
      ensures r.status == if PedeSubmissao(dto) then SUBMETIDO else RASCUNHO
      ensures r.Dados() == Formulario(r.id, dto.produtorId, Some(agora.instante), Some(agora.instante),
                                      r.status, dto.respostas, None)
      ensures r.id.Some? && IdEscolhido(old(repositorio.arquivos).Keys, IdBase(dto.produtorId, agora.carimbo), r.id.value)
      ensures repositorio.arquivos == old(repositorio.arquivos)[r.id.value := r.Dados()]
      ensures r.completo <==> FormularioCompleto(dto.respostas)
    {
      var status := if dto.submeter && FormularioCompleto(dto.respostas) then SUBMETIDO else RASCUNHO;
      var f := new FormularioResposta.De(Formulario(None, dto.produtorId, None, None, status, dto.respostas, None));
      repositorio.Salvar(f, agora);
      r := MapearParaResponse(f.Registro());
    }

    /** atualizarFormulario: fails for an unknown id; otherwise replaces the
        answers, moves to SUBMETIDO only for a complete submission (keeping
        any other status, ANALISADO included) and saves. */
    method AtualizarFormulario(id: string, dto: FormularioRequest, agora: Relogio) returns (r: Result<FormularioResponse>)
      requires repositorio.Valid()
      modifies repositorio
      ensures repositorio.Valid()
      ensures r.Err? <==> id !in old(repositorio.arquivos)
      ensures r.Err? ==> r.erro == NaoEncontrado && repositorio.arquivos == old(repositorio.arquivos)
      ensures r.Ok? ==>
                var antes := old(repositorio.arquivos)[id];
                var novo := antes.(respostas := dto.respostas,
                                   status := if PedeSubmissao(dto) then SUBMETIDO else antes.status,
                                   dataAtualizacao := Some(agora.instante));
                && r.value == MapearParaResponse(novo)
                && repositorio.arquivos == old(repositorio.arquivos)[id := novo]
    {
      var encontrado := repositorio.BuscarPorId(id);
      if encontrado.None? {
        return Err(NaoEncontrado);
      }
      ghost var antes := encontrado.value;
      assert antes == old(repositorio.arquivos)[id] && antes.id == Some(id);
      ghost var novo := antes.(respostas := dto.respostas,
                               status := if PedeSubmissao(dto) then SUBMETIDO else antes.status,
                               dataAtualizacao := Some(agora.instante));
      var f := new FormularioResposta.De(encontrado.value);
      f.respostas := dto.respostas;
      if dto.submeter && FormularioCompleto(dto.respostas) {
        f.status := SUBMETIDO;
      }
      assert f.Registro() == novo.(dataAtualizacao := antes.dataAtualizacao);
      repositorio.Atualizar(f, agora);
      assert f.Registro() == novo;
      r := Ok(MapearParaResponse(f.Registro()));
    }

    /** submeterFormulario: fails for an unknown id or incomplete answers;
        otherwise the status becomes SUBMETIDO whatever it was. */
    method SubmeterFormulario(id: string, agora: Relogio) returns (r: Result<FormularioResponse>)
      requires repositorio.Valid()
      modifies repositorio
      ensures repositorio.Valid()
      ensures id !in old(repositorio.arquivos) ==> r == Err(NaoEncontrado)
      ensures id in old(repositorio.arquivos) && !FormularioCompleto(old(repositorio.arquivos)[id].respostas) ==>
                r == Err(FormularioIncompleto)
      ensures r.Err? ==> repositorio.arquivos == old(repositorio.arquivos)
      ensures r.Ok? <==> id in old(repositorio.arquivos) && FormularioCompleto(old(repositorio.arquivos)[id].respostas)
      ensures r.Ok? ==>
                var novo := old(repositorio.arquivos)[id].(status := SUBMETIDO, dataAtualizacao := Some(agora.instante));
                && r.value == MapearParaResponse(novo)
                && r.value.completo
                && repositorio.arquivos == old(repositorio.arquivos)[id := novo]
    {
      var encontrado := repositorio.BuscarPorId(id);
      if encontrado.None? {
        return Err(NaoEncontrado);
      }
      if !FormularioCompleto(encontrado.value.respostas) {
        return Err(FormularioIncompleto);
      }
      var f := new FormularioResposta.De(encontrado.value);
      f.status := SUBMETIDO;
      repositorio.Atualizar(f, agora);
      r := Ok(MapearParaResponse(f.Registro()));
    }
  }
}
