/** A producer's questionnaire: the stored record and the mutable object the
    services load, change through setters and hand back to the repository. */
module Formulario {
  import opened Common
  import opened Json
  import opened Status
  import opened Analise

  /** A reading of LocalDateTime.now(): an instant that orders readings and its
      "yyyy-MM-dd_HHmmss" rendering, which new form ids embed. */
  datatype Relogio = Relogio(instante: int, carimbo: string)

  /** The content of one stored form file; `respostas` is None when the
      request carried no answers (JSON null). */
  datatype Formulario = Formulario(
    id: Option<string>,
    produtorId: int,
    dataPreenchimento: Option<int>,
    dataAtualizacao: Option<int>,
    status: StatusFormulario,
    respostas: Option<Respostas>,
    resultado: Option<ResultadoAnalise>)

  /** isCompleto: the four section keys are present; their contents are not inspected. */
  predicate SecoesPresentes(r: Respostas) {
    "saude" in r && "nutricao" in r && "avaliacao" in r && "doencas" in r
  }

  class FormularioResposta {
    var formularioId: Option<string>
    var produtorId: int
    var dataPreenchimento: Option<int>
    var dataAtualizacao: Option<int>
    var status: StatusFormulario
    var respostas: Option<Respostas>
    var resultado: Option<ResultadoAnalise>

    /** The record that serialising this object writes. */
    function Registro(): Formulario
      reads this
    {
      Formulario(formularioId, produtorId, dataPreenchimento, dataAtualizacao, status, respostas, resultado)
    }

    /** FormularioResposta(formularioId, produtorId): filled in now, as a draft with no answers. */
    constructor (id: string, pid: int, agora: Relogio)
      ensures Registro() == Formulario(Some(id), pid, Some(agora.instante), None, RASCUNHO, Some(map[]), None)
    {
      formularioId := Some(id);
      produtorId := pid;
      dataPreenchimento := Some(agora.instante);
      dataAtualizacao := None;
      status := RASCUNHO;
      respostas := Some(map[]);
      resultado := None;
    }

    /** An object holding a given record: deserialisation of a stored file, or
        the no-argument constructor followed by setters. */
    constructor De(f: Formulario)
      ensures Registro() == f
    {
      formularioId, produtorId, dataPreenchimento, dataAtualizacao := f.id, f.produtorId, f.dataPreenchimento, f.dataAtualizacao;
      status, respostas, resultado := f.status, f.respostas, f.resultado;
    }

    /** adicionarSecao: stores the section under its key and stamps the update;
        a null answer map throws NullPointerException. */
    method AdicionarSecao(secao: string, dados: map<string, Json>, agora: Relogio) returns (erro: Option<Erro>)
      modifies this
      ensures old(respostas).None? ==> erro == Some(PonteiroNulo) && Registro() == old(Registro())
      ensures old(respostas).Some? ==>
                erro.None?
                && Registro() == old(Registro()).(respostas := Some(old(respostas).value[secao := Objeto(dados)]),
                                                  dataAtualizacao := Some(agora.instante))
                && ObterSecao(secao) == Ok(dados)
                && (forall outra :: outra != secao ==> ObterSecao(outra) == old(ObterSecao(outra)))
    {
      if respostas.None? {
        return Some(PonteiroNulo);
      }
      respostas := Some(respostas.value[secao := Objeto(dados)]);
      dataAtualizacao := Some(agora.instante);
      erro := None;
    }

    /** obterSecao: the stored value when it is a map, otherwise an empty map. */
    function ObterSecao(secao: string): (r: Result<map<string, Json>>)
      reads this
      ensures respostas.None? <==> r == Err(PonteiroNulo)
      ensures r.Ok? && secao in respostas.value && respostas.value[secao].Objeto? ==>
                r.value == respostas.value[secao].campos
      ensures r.Ok? && !(secao in respostas.value && respostas.value[secao].Objeto?) ==> r.value == map[]
    {
      if respostas.None? then Err(PonteiroNulo)
      else match ObjetoDe(respostas.value, secao)
        case Some(m) => Ok(m)
        case None => Ok(map[])
    }

    /** obterResposta: obterSecao(secao).get(pergunta), null when absent. */
    function ObterResposta(secao: string, pergunta: string): (r: Result<Json>)
      reads this
      ensures r.Err? <==> ObterSecao(secao).Err?
      ensures r.Ok? && pergunta in ObterSecao(secao).value ==> r.value == ObterSecao(secao).value[pergunta]
      ensures r.Ok? && pergunta !in ObterSecao(secao).value ==> r.value == Nulo
    {
      match ObterSecao(secao)
      case Err(e) => Err(e)
      case Ok(m) => Ok(if pergunta in m then m[pergunta] else Nulo)
    }

    /** isCompleto. */
    function IsCompleto(): (r: Result<bool>)
      reads this
      ensures r.Err? <==> respostas.None?
      ensures r.Ok? ==> (r.value <==> SecoesPresentes(respostas.value))
    {
      if respostas.None? then Err(PonteiroNulo) else Ok(SecoesPresentes(respostas.value))
    }

    /** submeter: complete forms become SUBMETIDO; incomplete ones throw and stay as they were. */
    method Submeter(agora: Relogio) returns (erro: Option<Erro>)
      modifies this
      ensures IsCompleto() == old(IsCompleto())
      ensures old(IsCompleto()) == Ok(true) ==>
                erro.None? && Registro() == old(Registro()).(status := SUBMETIDO, dataAtualizacao := Some(agora.instante))
      ensures old(IsCompleto()) == Ok(false) ==> erro == Some(FormularioIncompleto) && Registro() == old(Registro())
      ensures old(IsCompleto()).Err? ==> erro == Some(PonteiroNulo) && Registro() == old(Registro())
    {
      var completo := IsCompleto();
      if completo.Err? {
        return Some(PonteiroNulo);
      }
      if completo.value {
        status := SUBMETIDO;
        dataAtualizacao := Some(agora.instante);
        erro := None;
      } else {
        erro := Some(FormularioIncompleto);
      }
    }
  }
}
