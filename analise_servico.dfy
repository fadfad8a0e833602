/** analisarFormulario: runs the analysis engine on a submitted form and
    stores the result on it. */
module AnaliseServico {
  import opened Common
  import opened Json
  import opened Status
  import opened Analise
  import opened Formulario
  import opened RepositorioFormulario

  /** The form analisarFormulario stores for a form `antes` given the analysis result. */
  function Analisado(antes: Formulario, resultado: ResultadoAnalise, agora: Relogio): (f: Formulario)
    ensures f.status == ANALISADO && f.resultado == Some(resultado)
    ensures f.respostas == antes.respostas && f.id == antes.id && f.produtorId == antes.produtorId
    ensures f.dataPreenchimento == antes.dataPreenchimento && f.dataAtualizacao == Some(agora.instante)
  {
    antes.(resultado := Some(resultado), status := ANALISADO, dataAtualizacao := Some(agora.instante))
  }

  class ServicoAnalise {
    const repositorio: RepositorioFormularios

    constructor (repositorio: RepositorioFormularios)
      ensures this.repositorio == repositorio
    {
      this.repositorio := repositorio;
    }

    /** analisarFormulario: an unknown id and a status other than SUBMETIDO
        are rejected; null answers throw in the first section; answers of the
        wrong JSON type throw ClassCastException; otherwise the result is
        attached, the status becomes ANALISADO and the form is saved. */
    method AnalisarFormulario(id: string, agora: Relogio) returns (r: Result<Formulario>)
      requires repositorio.Valid()
      modifies repositorio
      ensures repositorio.Valid()
      ensures id !in old(repositorio.arquivos) ==> r == Err(NaoEncontrado)
      ensures id in old(repositorio.arquivos) && old(repositorio.arquivos)[id].status != SUBMETIDO ==>
                r == Err(EstadoInvalido)
      ensures r.Err? ==> repositorio.arquivos == old(repositorio.arquivos)
      ensures r.Ok? <==>
                id in old(repositorio.arquivos)
                && old(repositorio.arquivos)[id].status == SUBMETIDO
                && old(repositorio.arquivos)[id].respostas.Some?
                && Processar(old(repositorio.arquivos)[id].respostas.value).Ok?
      ensures r.Ok? ==>
                var antes := old(repositorio.arquivos)[id];
                && r.value == Analisado(antes, Processar(antes.respostas.value).value, agora)
                && repositorio.arquivos == old(repositorio.arquivos)[id := r.value]
    {
      var encontrado := repositorio.BuscarPorId(id);
      if encontrado.None? {
        return Err(NaoEncontrado);
      }
      var f := new FormularioResposta.De(encontrado.value);
      if f.status != SUBMETIDO {
        return Err(EstadoInvalido);
      }
      if f.respostas.None? {
        return Err(PonteiroNulo);
      }
      var resultado := ProcessarAnalise(f.respostas.value);
      if resultado.Err? {
        return Err(resultado.erro);
      }
      ghost var antes := encontrado.value;
      assert antes == old(repositorio.arquivos)[id] && antes.id == Some(id);
      f.resultado := Some(resultado.value);
      f.status := ANALISADO;
      assert f.Registro() == antes.(resultado := Some(resultado.value), status := ANALISADO);
      repositorio.Atualizar(f, agora);
      assert f.Registro() == Analisado(antes, resultado.value, agora);
      r := Ok(f.Registro());
    }
  }
}
