/** The rule engine that turns the four answered sections (saude, nutricao,
    avaliacao, doencas) into strengths, improvements, alerts, recommended
    professions, a clamped score, a panorama sentence and comments. */
module Analise {
  import opened Common
  import opened Json

  // ---------------------------------------------------------------------------
  // Professions and fixed texts

  const VET := "Médico Veterinário"
  const ZOO := "Zootecnista"
  const MEDICO := "Médico"

  // saude
  const SAUDE_SINAIS_NAO := "Suas aves não apresentam sinais de doença, continue monitorando o plantel."
  const SAUDE_SINAIS_SIM := "Suas aves estão apresentando sinais de doenças. Faça monitoramento constante, anotações diárias de produção e alterações de comportamento."
  const SAUDE_CLINICOS_SEM := "Suas aves não apresentam sinais clínicos de doenças."
  const SAUDE_ESPIRROS := "Cuidado! Suas aves apresentam espirros. Sinais respiratórios têm alta transmissibilidade e podem resultar em queda produtiva."
  const SAUDE_DIARREIA := "Cuidado! Suas aves apresentam diarreia, sinal inespecífico que pode indicar Salmonella ou Coccidiose."
  const SAUDE_APATIA := "Cuidado! Suas aves apresentam apatia, resultando em queda do desempenho produtivo."
  const SAUDE_QUEDA := "Queda na produção detectada. Situação multifatorial que requer avaliação completa do plantel."
  const SAUDE_VACINA_SIM := "Parabéns! A vacinação das aves está em dia (Newcastle, Marek, Bronquite Infecciosa, Gumboro e Anticoccidianos)."
  const SAUDE_VACINA_NAO := "Cuidado! A vacinação não está em dia, comprometendo a saúde das aves e dos consumidores."
  const SAUDE_QUARENTENA_SIM := "Excelente! A quarentena de novas aves é feita corretamente, prevenindo disseminação de doenças."
  const SAUDE_QUARENTENA_NAO := "É fundamental realizar quarentena das novas aves antes de introduzi-las no plantel."
  const SAUDE_SILVESTRES_NAO := "Muito bem! Não há acesso de aves silvestres, prevenindo transmissão de gripe aviária."
  const SAUDE_SILVESTRES_SIM := "Cuidado! Aves silvestres podem transmitir gripe aviária. Remova árvores frutíferas próximas e tele o local."

  // nutricao
  const NUTRI_RACAO := "Boa opção! A ração industrial fornece todos os componentes exigidos pelas aves."
  const NUTRI_CASEIRA := "A alimentação caseira/sobras pode deixar nutrientes de lado, gerando prejuízos para as aves."
  const NUTRI_ARMAZEM_SIM := "Muito bem! O alimento é armazenado corretamente em local fechado, seco e protegido."
  const NUTRI_ARMAZEM_NAO := "Atenção! Armazenamento inadequado compromete a qualidade do alimento e saúde das aves."
  const NUTRI_FUNGOS_NAO := "Muito bem! A qualidade da alimentação está preservada sem fungos, bolor ou insetos."
  const NUTRI_FUNGOS_SIM := "Cuidado! A qualidade da alimentação está comprometida com fungos, bolor ou insetos!"

  // avaliacao
  const AVAL_REGISTROS_SIM := "Excelente! Manter registros zootécnicos ajuda no acompanhamento da produtividade e identificação de problemas."
  const AVAL_REGISTROS_NAO := "Atenção! Registrar dados de produção, consumo de ração e mortalidade é fundamental para gestão da propriedade."
  const AVAL_LUZ_SIM := "Muito bem! O manejo correto da iluminação (16h de luz) é essencial para estimular a postura."
  const AVAL_LUZ_NAO := "Atenção! Manejo inadequado da iluminação compromete a produção. Galinhas necessitam de pelo menos 16 horas de luz diária."
  const AVAL_CASCA_BOA := "Muito bem! A qualidade da casca está boa, preservando o conteúdo interno do ovo."
  const AVAL_CASCA_RACHADA := "Cuidado! Rachaduras e fissuras são portas de entrada para microrganismos. Realize coleta mais frequente e verifique a alimentação."
  const AVAL_CASCA_RUGOSA := "Cuidado! Casca rugosa pode indicar deficiências nutricionais, estresse térmico ou doenças como Newcastle/bronquite."
  const AVAL_LIMPOS := "Muito bem! Ovos limpos mostram que a postura não está sendo feita na cama e a coleta está correta."
  const AVAL_SUJOS := "Cuidado! Ovos sujos podem contaminar com microrganismos. Verifique frequência da coleta e limpeza dos ninhos."

  // doencas
  const DOENCA_MORTES_SIM := "CRÍTICO! Mortes repentinas podem indicar Influenza Aviária ou Newcastle. Isolamento imediato necessário!"
  const DOENCA_MORTES_NAO := "Não foram observadas mortes repentinas, indicando ausência de doenças graves até o momento."
  const DOENCA_QUEDA_SIM := "Atenção! Queda repentina na produção pode indicar doença, estresse ou problemas alimentares."
  const DOENCA_QUEDA_NAO := "Produção de ovos normal, suas aves parecem saudáveis."
  const DOENCA_NEURO_SIM := "CRÍTICO! Tremores, torcicolo ou andar cambaleante indicam problemas neurológicos graves (Influenza/Newcastle)!"
  const DOENCA_NEURO_NAO := "Ausência de sinais neurológicos é ótimo indicativo da sanidade das aves."
  const DOENCA_RESP_SIM := "Atenção! Tosse, espirros ou chiado indicam doenças respiratórias. Monitore se há aumento desses sinais."
  const DOENCA_RESP_NAO := "Aves sem sinais respiratórios indicam sanidade e bem-estar dos animais."
  const DOENCA_DIARREIA_SIM := "CRÍTICO! Diarreia verde/aquosa pode indicar infecção viral (Influenza Aviária ou Newcastle)!"
  const DOENCA_DIARREIA_NAO := "Fezes normais indicam que as aves não apresentam alterações intestinais."
  const DOENCA_CONTATO_SIM := "CRÍTICO! Contato com aves silvestres traz risco de Influenza Aviária e Newcastle. Impedir contato imediatamente!"
  const DOENCA_CONTATO_NAO := "Importante continuar restringindo contato com aves silvestres para prevenir contaminação."

  // panorama and comments
  const PANORAMA_EXCELENTE := "Excelente! Sua propriedade apresenta ótimas condições de manejo e sanidade."
  const PANORAMA_BOM := "Bom! Sua propriedade está em condições adequadas, mas há pontos que podem ser melhorados."
  const PANORAMA_ATENCAO := "Atenção! Sua propriedade necessita de melhorias importantes para garantir a sanidade das aves."
  const PANORAMA_CRITICO := "Crítico! Sua propriedade apresenta sérios problemas que precisam ser corrigidos urgentemente."
  const COMENTARIO_VET := "Sugerimos passar por avaliação de um médico veterinário"
  const COMENTARIO_ZOO := "Sugerimos passar por avaliação de um zootecnista"
  const COMENTARIO_MEDICO := "Sugerimos passar por avaliação de um médico caso funcionários apresentem sinais clínicos"

  // ---------------------------------------------------------------------------
  // The result record

  datatype ResultadoAnalise = ResultadoAnalise(
    score: int,
    fortes: seq<string>,
    melhorias: seq<string>,
    alertas: seq<string>,
    profissionais: set<string>,
    panorama: string,
    comentarios: seq<string>)

  // ---------------------------------------------------------------------------
  // Rule tables: the specification of each section

  datatype Lista = Fortes | Melhorias | Alertas

  /** One statement for one of the three lists, plus the professions it recommends. */
  datatype Efeito = Efeito(lista: Lista, texto: string, profs: set<string>)

  /** What a question or a section appends to the three lists and adds to the set. */
  datatype Contribuicao = Contribuicao(fortes: seq<string>, melhorias: seq<string>,
                                       alertas: seq<string>, profs: set<string>)
  {
    function Afirmacoes(): nat { |fortes| + |melhorias| + |alertas| }
  }

  const Nada := Contribuicao([], [], [], {})

  function Unico(e: Efeito): (c: Contribuicao)
    ensures c.Afirmacoes() == 1 && c.profs == e.profs
  {
    match e.lista
    case Fortes => Contribuicao([e.texto], [], [], e.profs)
    case Melhorias => Contribuicao([], [e.texto], [], e.profs)
    case Alertas => Contribuicao([], [], [e.texto], e.profs)
  }

  /** `a` followed by `b`. */
  function Mais(a: Contribuicao, b: Contribuicao): Contribuicao {
    Contribuicao(a.fortes + b.fortes, a.melhorias + b.melhorias, a.alertas + b.alertas, a.profs + b.profs)
  }

  lemma MaisAssociativa(a: Contribuicao, b: Contribuicao, c: Contribuicao)
    ensures Mais(Mais(a, b), c) == Mais(a, Mais(b, c))
  {
    assert (a.fortes + b.fortes) + c.fortes == a.fortes + (b.fortes + c.fortes);
    assert (a.melhorias + b.melhorias) + c.melhorias == a.melhorias + (b.melhorias + c.melhorias);
    assert (a.alertas + b.alertas) + c.alertas == a.alertas + (b.alertas + c.alertas);
  }

  lemma NadaNeutro(c: Contribuicao)
    ensures Mais(Nada, c) == c
  {
    assert [] + c.fortes == c.fortes;
    assert [] + c.melhorias == c.melhorias;
    assert [] + c.alertas == c.alertas;
  }

  /** A rule table: answer literal and its effect, tried in order. */
  type Tabela = seq<(string, Efeito)>

  predicate Reconhecido(v: Option<string>, t: Tabela) {
    v.Some? && exists i :: 0 <= i < |t| && t[i].0 == v.value
  }

  /** A single-valued question: the effect of the first entry whose literal
      equals the answer (the `"x".equals(v)` chain); null or any other value
      contributes nothing. */
  function Regra(v: Option<string>, t: Tabela): (c: Contribuicao)
    ensures c.Afirmacoes() == if Reconhecido(v, t) then 1 else 0
    ensures !Reconhecido(v, t) ==> c == Nada
    ensures Reconhecido(v, t) ==> exists i :: 0 <= i < |t| && t[i].0 == v.value && c == Unico(t[i].1)
  {
    if v.None? || t == [] then Nada
    else if t[0].0 == v.value then Unico(t[0].1)
    else
      var r := Regra(v, t[1..]);
      assert Reconhecido(v, t) ==> Reconhecido(v, t[1..]) by {
        if Reconhecido(v, t) {
          var i :| 0 <= i < |t| && t[i].0 == v.value;
          assert t[1..][i - 1].0 == v.value;
        }
      }
      r
  }

  /** Two-entry tables, which is all but one of the questions. */
  lemma Regra2(v: Option<string>, a: string, ea: Efeito, b: string, eb: Efeito)
    ensures Regra(v, [(a, ea), (b, eb)])
         == if v == Some(a) then Unico(ea) else if v == Some(b) then Unico(eb) else Nada
  {
    var t := [(a, ea), (b, eb)];
    if v.Some? && v.value != a {
      assert t[1..] == [(b, eb)];
      if v.value != b {
        assert t[1..][1..] == [];
      }
    }
  }

  lemma Regra3(v: Option<string>, a: string, ea: Efeito, b: string, eb: Efeito, c: string, ec: Efeito)
    ensures Regra(v, [(a, ea), (b, eb), (c, ec)])
         == if v == Some(a) then Unico(ea) else if v == Some(b) then Unico(eb)
            else if v == Some(c) then Unico(ec) else Nada
  {
    var t := [(a, ea), (b, eb), (c, ec)];
    if v.Some? && v.value != a {
      assert t[1..] == [(b, eb), (c, ec)];
      Regra2(v, b, eb, c, ec);
    }
  }

  function SimNao(sim: Efeito, nao: Efeito): Tabela { [("sim", sim), ("nao", nao)] }
  function NaoSim(nao: Efeito, sim: Efeito): Tabela { [("nao", nao), ("sim", sim)] }

  const TAB_SINAIS_DOENCA := NaoSim(Efeito(Fortes, SAUDE_SINAIS_NAO, {}), Efeito(Alertas, SAUDE_SINAIS_SIM, {VET}))
  const TAB_VACINACAO := SimNao(Efeito(Fortes, SAUDE_VACINA_SIM, {}), Efeito(Alertas, SAUDE_VACINA_NAO, {VET}))
  const TAB_QUARENTENA := SimNao(Efeito(Fortes, SAUDE_QUARENTENA_SIM, {}), Efeito(Melhorias, SAUDE_QUARENTENA_NAO, {}))
  const TAB_AVES_SILVESTRES := NaoSim(Efeito(Fortes, SAUDE_SILVESTRES_NAO, {}), Efeito(Alertas, SAUDE_SILVESTRES_SIM, {VET}))

  const TAB_ALIMENTACAO: Tabela := [
    ("racaoIndustrial", Efeito(Fortes, NUTRI_RACAO, {})),
    ("comidaCaseira", Efeito(Melhorias, NUTRI_CASEIRA, {ZOO, VET})),
    ("sobrasAlimentos", Efeito(Melhorias, NUTRI_CASEIRA, {ZOO, VET}))]
  const TAB_ARMAZENAMENTO := SimNao(Efeito(Fortes, NUTRI_ARMAZEM_SIM, {}), Efeito(Alertas, NUTRI_ARMAZEM_NAO, {}))
  const TAB_FUNGOS := NaoSim(Efeito(Fortes, NUTRI_FUNGOS_NAO, {}), Efeito(Alertas, NUTRI_FUNGOS_SIM, {}))

  const TAB_REGISTROS := SimNao(Efeito(Fortes, AVAL_REGISTROS_SIM, {}), Efeito(Melhorias, AVAL_REGISTROS_NAO, {}))
  const TAB_FOTOPERIODO := SimNao(Efeito(Fortes, AVAL_LUZ_SIM, {}), Efeito(Alertas, AVAL_LUZ_NAO, {VET}))
  const TAB_CASCA: Tabela := [
    ("semAlteracao", Efeito(Fortes, AVAL_CASCA_BOA, {})),
    ("rachaduras", Efeito(Alertas, AVAL_CASCA_RACHADA, {VET})),
    ("rugosa", Efeito(Alertas, AVAL_CASCA_RUGOSA, {VET}))]
  const TAB_LIMPEZA: Tabela := [
    ("semAlteracao", Efeito(Fortes, AVAL_LIMPOS, {})),
    ("sujidades", Efeito(Alertas, AVAL_SUJOS, {VET}))]

  /** The four red-flag questions of doencas: an alert plus veterinarian and physician. */
  function Grave(sim: string, nao: string): Tabela {
    SimNao(Efeito(Alertas, sim, {VET, MEDICO}), Efeito(Fortes, nao, {}))
  }
  const TAB_MORTES := Grave(DOENCA_MORTES_SIM, DOENCA_MORTES_NAO)
  const TAB_QUEDA := SimNao(Efeito(Alertas, DOENCA_QUEDA_SIM, {}), Efeito(Fortes, DOENCA_QUEDA_NAO, {}))
  const TAB_NEURO := Grave(DOENCA_NEURO_SIM, DOENCA_NEURO_NAO)
  const TAB_RESPIRATORIO := SimNao(Efeito(Alertas, DOENCA_RESP_SIM, {}), Efeito(Fortes, DOENCA_RESP_NAO, {}))
  const TAB_DIARREIA := Grave(DOENCA_DIARREIA_SIM, DOENCA_DIARREIA_NAO)
  const TAB_CONTATO := Grave(DOENCA_CONTATO_SIM, DOENCA_CONTATO_NAO)

  /** The multi-valued clinical-signs question. */
  function SinaisClinicos(sinais: Option<seq<Json>>): Contribuicao {
    match sinais
    case None => Nada
    case Some(l) =>
      if Texto("semAlteracoes") in l then Unico(Efeito(Fortes, SAUDE_CLINICOS_SEM, {}))
      else Contribuicao([], [], Alterados(l), {VET})
  }

  /** One alert per recognised sign, in the fixed order of the checks. */
  function Alterados(l: seq<Json>): seq<string> {
    (if Texto("espirros") in l then [SAUDE_ESPIRROS] else [])
    + (if Texto("diarreia") in l then [SAUDE_DIARREIA] else [])
    + (if Texto("apatia") in l then [SAUDE_APATIA] else [])
    + (if Texto("quedaProducao") in l then [SAUDE_QUEDA] else [])
  }

  function Saude(s: map<string, Json>): Contribuicao {
    Mais(Mais(Mais(Mais(
      Regra(TextoDe(s, "sinaisDoenca"), TAB_SINAIS_DOENCA),
      SinaisClinicos(ListaDe(s, "sinaisClinicos"))),
      Regra(TextoDe(s, "vacinacao"), TAB_VACINACAO)),
      Regra(TextoDe(s, "quarentena"), TAB_QUARENTENA)),
      Regra(TextoDe(s, "avesSilvestres"), TAB_AVES_SILVESTRES))
  }

  function Nutricao(s: map<string, Json>): Contribuicao {
    Mais(Mais(
      Regra(TextoDe(s, "tipoAlimentacao"), TAB_ALIMENTACAO),
      Regra(TextoDe(s, "armazenamento"), TAB_ARMAZENAMENTO)),
      Regra(TextoDe(s, "fungosBolor"), TAB_FUNGOS))
  }

  function Avaliacao(s: map<string, Json>): Contribuicao {
    Mais(Mais(Mais(
      Regra(TextoDe(s, "registrosZootecnicos"), TAB_REGISTROS),
      Regra(TextoDe(s, "fotoperíodo"), TAB_FOTOPERIODO)),
      Regra(TextoDe(s, "qualidadeCasca"), TAB_CASCA)),
      Regra(TextoDe(s, "limpezaOvos"), TAB_LIMPEZA))
  }

  function Doencas(s: map<string, Json>): Contribuicao {
    Mais(Mais(Mais(Mais(Mais(
      Regra(TextoDe(s, "mortesRepentinas"), TAB_MORTES),
      Regra(TextoDe(s, "quedaProducaoRepentina"), TAB_QUEDA)),
      Regra(TextoDe(s, "sintomasNeurologicos"), TAB_NEURO)),
      Regra(TextoDe(s, "sintomasRespiratorios"), TAB_RESPIRATORIO)),
      Regra(TextoDe(s, "diarreiaVerde"), TAB_DIARREIA)),
      Regra(TextoDe(s, "contatoAvesSilvestres"), TAB_CONTATO))
  }

  const SECOES := ["saude", "nutricao", "avaliacao", "doencas"]

  /** The contribution of one named section; a null section contributes nothing. */
  function DaSecao(respostas: Respostas, nome: string): Contribuicao {
    match ObjetoDe(respostas, nome)
    case None => Nada
    case Some(s) =>
      if nome == "saude" then Saude(s)
      else if nome == "nutricao" then Nutricao(s)
      else if nome == "avaliacao" then Avaliacao(s)
      else if nome == "doencas" then Doencas(s)
      else Nada
  }

  /** Every cast the engine performs succeeds (no ClassCastException). */
  predicate Legivel(respostas: Respostas) {
    (forall nome | nome in SECOES :: LegivelComoObjeto(respostas, nome))
    && (ObjetoDe(respostas, "saude").Some? ==>
          var s := ObjetoDe(respostas, "saude").value;
          LegivelComoTexto(s, "sinaisDoenca") && LegivelComoLista(s, "sinaisClinicos")
          && LegivelComoTexto(s, "vacinacao") && LegivelComoTexto(s, "quarentena")
          && LegivelComoTexto(s, "avesSilvestres"))
    && (ObjetoDe(respostas, "nutricao").Some? ==>
          var s := ObjetoDe(respostas, "nutricao").value;
          LegivelComoTexto(s, "tipoAlimentacao") && LegivelComoTexto(s, "armazenamento")
          && LegivelComoTexto(s, "fungosBolor"))
    && (ObjetoDe(respostas, "avaliacao").Some? ==>
          var s := ObjetoDe(respostas, "avaliacao").value;
          LegivelComoTexto(s, "registrosZootecnicos") && LegivelComoTexto(s, "fotoperíodo")
          && LegivelComoTexto(s, "qualidadeCasca") && LegivelComoTexto(s, "limpezaOvos"))
    && (ObjetoDe(respostas, "doencas").Some? ==>
          var s := ObjetoDe(respostas, "doencas").value;
          LegivelComoTexto(s, "mortesRepentinas") && LegivelComoTexto(s, "quedaProducaoRepentina")
          && LegivelComoTexto(s, "sintomasNeurologicos") && LegivelComoTexto(s, "sintomasRespiratorios")
          && LegivelComoTexto(s, "diarreiaVerde") && LegivelComoTexto(s, "contatoAvesSilvestres"))
  }

  /** The four sections, in the order the engine visits them. */
  function Total(respostas: Respostas): Contribuicao {
    Mais(Mais(Mais(
      DaSecao(respostas, "saude"), DaSecao(respostas, "nutricao")),
      DaSecao(respostas, "avaliacao")), DaSecao(respostas, "doencas"))
  }

  // ---------------------------------------------------------------------------
  // Score, panorama and comments

  /** calcularPontuacaoGeral: 10 per strength, -3 per improvement, -8 per alert, clamped to [0, 100]. */
  function Pontuacao(fortes: nat, melhorias: nat, alertas: nat): (r: int)
    ensures 0 <= r <= 100
    ensures var bruto := 10 * fortes - 3 * melhorias - 8 * alertas;
            (bruto < 0 ==> r == 0) && (bruto > 100 ==> r == 100) && (0 <= bruto <= 100 ==> r == bruto)
  {
    var p := fortes * 10;
    var p := p - melhorias * 3;
    var p := p - alertas * 8;
    Max(0, Min(100, p))
  }

  function Max(a: int, b: int): int { if a >= b then a else b }
  function Min(a: int, b: int): int { if a <= b then a else b }

  /** gerarPanoramaGeral: four bands that partition the integers. */
  function Panorama(p: int): (r: string)
    ensures r == PANORAMA_EXCELENTE <==> p >= 80
    ensures r == PANORAMA_BOM <==> 60 <= p < 80
    ensures r == PANORAMA_ATENCAO <==> 40 <= p < 60
    ensures r == PANORAMA_CRITICO <==> p < 40
  {
    if p >= 80 then PANORAMA_EXCELENTE
    else if p >= 60 then PANORAMA_BOM
    else if p >= 40 then PANORAMA_ATENCAO
    else PANORAMA_CRITICO
  }

  /** gerarComentarios: one fixed comment per recommended profession, in the
      order veterinarian, animal scientist, physician, whatever the set's order. */
  function Comentarios(profs: set<string>): (r: seq<string>)
    ensures |r| <= 3 && SemRepeticao(r)
    ensures COMENTARIO_VET in r <==> VET in profs
    ensures COMENTARIO_ZOO in r <==> ZOO in profs
    ensures COMENTARIO_MEDICO in r <==> MEDICO in profs
    ensures forall c :: c in r ==> c in {COMENTARIO_VET, COMENTARIO_ZOO, COMENTARIO_MEDICO}
    ensures VET in profs ==> r[0] == COMENTARIO_VET
    ensures MEDICO in profs ==> r[|r| - 1] == COMENTARIO_MEDICO
  {
    (if VET in profs then [COMENTARIO_VET] else [])
    + (if ZOO in profs then [COMENTARIO_ZOO] else [])
    + (if MEDICO in profs then [COMENTARIO_MEDICO] else [])
  }

  /** processarAnalise, as a value: the specification of the engine. */
  function Processar(respostas: Respostas): Result<ResultadoAnalise> {
    if !Legivel(respostas) then Err(ConversaoInvalida) else Ok(Montar(Total(respostas)))
  }

  /** The result record built from the collected lists and set. */
  function Montar(c: Contribuicao): ResultadoAnalise {
    var p := Pontuacao(|c.fortes|, |c.melhorias|, |c.alertas|);
    ResultadoAnalise(p, c.fortes, c.melhorias, c.alertas, c.profs, Panorama(p), Comentarios(c.profs))
  }

  // ---------------------------------------------------------------------------
  // Properties of the engine

  /** Each list of the result is the saude, nutricao, avaliacao and doencas
      contributions concatenated in that order; the set is their union. */
  lemma SecoesEmOrdem(respostas: Respostas)
    requires Processar(respostas).Ok?
    ensures var r := Processar(respostas).value;
            var (s, n, a, d) := (DaSecao(respostas, "saude"), DaSecao(respostas, "nutricao"),
                                 DaSecao(respostas, "avaliacao"), DaSecao(respostas, "doencas"));
            && r.fortes == s.fortes + n.fortes + a.fortes + d.fortes
            && r.melhorias == s.melhorias + n.melhorias + a.melhorias + d.melhorias
            && r.alertas == s.alertas + n.alertas + a.alertas + d.alertas
            && r.profissionais == s.profs + n.profs + a.profs + d.profs
  {
  }

  /** A null or missing section contributes nothing to any list or to the set. */
  lemma SecaoNulaNada(respostas: Respostas, nome: string)
    requires Ausente(respostas, nome)
    ensures DaSecao(respostas, nome) == Nada
  {
  }

  /** Unparseable answers make the analysis fail instead of producing a result. */
  lemma ConversaoFalha(respostas: Respostas)
    ensures Processar(respostas).Err? <==> !Legivel(respostas)
    ensures Processar(respostas).Err? ==> Processar(respostas).erro == ConversaoInvalida
  {
  }

  /** The score always lies in [0, 100] and is the clamped weighted count of the lists. */
  lemma PontuacaoDoResultado(respostas: Respostas)
    requires Processar(respostas).Ok?
    ensures var r := Processar(respostas).value;
            var bruto := 10 * |r.fortes| - 3 * |r.melhorias| - 8 * |r.alertas|;
            && 0 <= r.score <= 100
            && (bruto < 0 ==> r.score == 0)
            && (bruto > 100 ==> r.score == 100)
            && (0 <= bruto <= 100 ==> r.score == bruto)
            && r.panorama == Panorama(r.score)
            && r.comentarios == Comentarios(r.profissionais)
  {
  }

  /** "semAlteracoes" wins: exactly one strength and nothing else, whatever
      other tags the list holds. */
  lemma SemAlteracoesVence(l: seq<Json>)
    requires Texto("semAlteracoes") in l
    ensures SinaisClinicos(Some(l)) == Contribuicao([SAUDE_CLINICOS_SEM], [], [], {})
  {
  }

  /** Without "semAlteracoes": one alert per recognised tag, no strength, and
      the veterinarian is always recommended, even for an empty list. */
  lemma SinaisAlteradosAlertas(l: seq<Json>)
    requires Texto("semAlteracoes") !in l
    ensures var c := SinaisClinicos(Some(l));
            && c.fortes == [] && c.melhorias == [] && c.profs == {VET}
            && |c.alertas| == (if Texto("espirros") in l then 1 else 0) + (if Texto("diarreia") in l then 1 else 0)
                            + (if Texto("apatia") in l then 1 else 0) + (if Texto("quedaProducao") in l then 1 else 0)
            && (SAUDE_ESPIRROS in c.alertas <==> Texto("espirros") in l)
  {
    assert |SAUDE_ESPIRROS| == 125 && |SAUDE_DIARREIA| == 101;
    assert |SAUDE_APATIA| == 82 && |SAUDE_QUEDA| == 93;
  }

  /** A question never recommends a profession its table does not name. */
  lemma RegraProfissoes(v: Option<string>, t: Tabela, u: set<string>)
    requires forall i :: 0 <= i < |t| ==> t[i].1.profs <= u
    ensures Regra(v, t).profs <= u
  {
  }

  lemma SaudeProfissoes(s: map<string, Json>)
    ensures Saude(s).profs <= {VET}
  {
    RegraProfissoes(TextoDe(s, "sinaisDoenca"), TAB_SINAIS_DOENCA, {VET});
    RegraProfissoes(TextoDe(s, "vacinacao"), TAB_VACINACAO, {VET});
    RegraProfissoes(TextoDe(s, "quarentena"), TAB_QUARENTENA, {VET});
    RegraProfissoes(TextoDe(s, "avesSilvestres"), TAB_AVES_SILVESTRES, {VET});
  }

  lemma AvaliacaoProfissoes(s: map<string, Json>)
    ensures Avaliacao(s).profs <= {VET}
  {
    RegraProfissoes(TextoDe(s, "registrosZootecnicos"), TAB_REGISTROS, {VET});
    RegraProfissoes(TextoDe(s, "fotoperíodo"), TAB_FOTOPERIODO, {VET});
    RegraProfissoes(TextoDe(s, "qualidadeCasca"), TAB_CASCA, {VET});
    RegraProfissoes(TextoDe(s, "limpezaOvos"), TAB_LIMPEZA, {VET});
  }

  predicate AlimentacaoCaseira(s: map<string, Json>) {
    TextoDe(s, "tipoAlimentacao") == Some("comidaCaseira") || TextoDe(s, "tipoAlimentacao") == Some("sobrasAlimentos")
  }

  lemma NutricaoProfissoes(s: map<string, Json>)
    ensures Nutricao(s).profs == if AlimentacaoCaseira(s) then {ZOO, VET} else {}
  {
    var v := TextoDe(s, "tipoAlimentacao");
    Regra3(v, "racaoIndustrial", TAB_ALIMENTACAO[0].1, "comidaCaseira", TAB_ALIMENTACAO[1].1,
           "sobrasAlimentos", TAB_ALIMENTACAO[2].1);
    RegraProfissoes(TextoDe(s, "armazenamento"), TAB_ARMAZENAMENTO, {});
    RegraProfissoes(TextoDe(s, "fungosBolor"), TAB_FUNGOS, {});
  }

  /** The four red-flag questions of doencas. */
  predicate SinalGrave(s: map<string, Json>) {
    TextoDe(s, "mortesRepentinas") == Some("sim") || TextoDe(s, "sintomasNeurologicos") == Some("sim")
    || TextoDe(s, "diarreiaVerde") == Some("sim") || TextoDe(s, "contatoAvesSilvestres") == Some("sim")
  }

  lemma GraveProfissoes(v: Option<string>, sim: string, nao: string)
    ensures Regra(v, Grave(sim, nao)).profs == if v == Some("sim") then {VET, MEDICO} else {}
  {
    Regra2(v, "sim", Grave(sim, nao)[0].1, "nao", Grave(sim, nao)[1].1);
  }

  lemma DoencasProfissoes(s: map<string, Json>)
    ensures Doencas(s).profs == if SinalGrave(s) then {VET, MEDICO} else {}
  {
    var m, n := TextoDe(s, "mortesRepentinas"), TextoDe(s, "sintomasNeurologicos");
    var d, c := TextoDe(s, "diarreiaVerde"), TextoDe(s, "contatoAvesSilvestres");
    GraveProfissoes(m, DOENCA_MORTES_SIM, DOENCA_MORTES_NAO);
    GraveProfissoes(n, DOENCA_NEURO_SIM, DOENCA_NEURO_NAO);
    GraveProfissoes(d, DOENCA_DIARREIA_SIM, DOENCA_DIARREIA_NAO);
    GraveProfissoes(c, DOENCA_CONTATO_SIM, DOENCA_CONTATO_NAO);
    RegraProfissoes(TextoDe(s, "quedaProducaoRepentina"), TAB_QUEDA, {});
    RegraProfissoes(TextoDe(s, "sintomasRespiratorios"), TAB_RESPIRATORIO, {});
    UniaoGraves(Regra(m, TAB_MORTES).profs, Regra(TextoDe(s, "quedaProducaoRepentina"), TAB_QUEDA).profs,
                Regra(n, TAB_NEURO).profs, Regra(TextoDe(s, "sintomasRespiratorios"), TAB_RESPIRATORIO).profs,
                Regra(d, TAB_DIARREIA).profs, Regra(c, TAB_CONTATO).profs,
                m == Some("sim"), n == Some("sim"), d == Some("sim"), c == Some("sim"));
  }

  lemma UniaoGraves(m: set<string>, q: set<string>, n: set<string>, r: set<string>, d: set<string>, c: set<string>,
                    gm: bool, gn: bool, gd: bool, gc: bool)
    requires m == (if gm then {VET, MEDICO} else {}) && n == (if gn then {VET, MEDICO} else {})
    requires d == (if gd then {VET, MEDICO} else {}) && c == (if gc then {VET, MEDICO} else {})
    requires q <= {} && r <= {}
    ensures m + q + n + r + d + c == if gm || gn || gd || gc then {VET, MEDICO} else {}
  {
  }

  // What each section contributes to the set of professions.

  lemma ProfissoesSaude(respostas: Respostas)
    ensures DaSecao(respostas, "saude").profs <= {VET}
  {
    if ObjetoDe(respostas, "saude").Some? { SaudeProfissoes(ObjetoDe(respostas, "saude").value); }
  }

  lemma ProfissoesNutricao(respostas: Respostas)
    ensures DaSecao(respostas, "nutricao").profs
         == if ObjetoDe(respostas, "nutricao").Some? && AlimentacaoCaseira(ObjetoDe(respostas, "nutricao").value)
            then {ZOO, VET} else {}
  {
    if ObjetoDe(respostas, "nutricao").Some? { NutricaoProfissoes(ObjetoDe(respostas, "nutricao").value); }
  }

  lemma ProfissoesAvaliacao(respostas: Respostas)
    ensures DaSecao(respostas, "avaliacao").profs <= {VET}
  {
    if ObjetoDe(respostas, "avaliacao").Some? { AvaliacaoProfissoes(ObjetoDe(respostas, "avaliacao").value); }
  }

  lemma ProfissoesDoencas(respostas: Respostas)
    ensures DaSecao(respostas, "doencas").profs
         == if ObjetoDe(respostas, "doencas").Some? && SinalGrave(ObjetoDe(respostas, "doencas").value)
            then {VET, MEDICO} else {}
  {
    if ObjetoDe(respostas, "doencas").Some? { DoencasProfissoes(ObjetoDe(respostas, "doencas").value); }
  }

  lemma ProfissoesPorSecao(respostas: Respostas)
    ensures DaSecao(respostas, "saude").profs <= {VET}
    ensures DaSecao(respostas, "nutricao").profs
         == if ObjetoDe(respostas, "nutricao").Some? && AlimentacaoCaseira(ObjetoDe(respostas, "nutricao").value)
            then {ZOO, VET} else {}
    ensures DaSecao(respostas, "avaliacao").profs <= {VET}
    ensures DaSecao(respostas, "doencas").profs
         == if ObjetoDe(respostas, "doencas").Some? && SinalGrave(ObjetoDe(respostas, "doencas").value)
            then {VET, MEDICO} else {}
  {
    ProfissoesSaude(respostas);
    ProfissoesNutricao(respostas);
    ProfissoesAvaliacao(respostas);
    ProfissoesDoencas(respostas);
  }

  /** The union of the four sections' sets, reasoned about on the sets alone. */
  lemma UniaoProfissoes(ps: set<string>, pn: set<string>, pa: set<string>, pd: set<string>, caseira: bool, grave: bool)
    requires ps <= {VET} && pa <= {VET}
    requires pn == (if caseira then {ZOO, VET} else {})
    requires pd == (if grave then {VET, MEDICO} else {})
    ensures ZOO in ps + pn + pa + pd <==> caseira
    ensures MEDICO in ps + pn + pa + pd <==> grave
    ensures MEDICO in ps + pn + pa + pd ==> VET in ps + pn + pa + pd
  {
    assert |ZOO| == 11 && |VET| == 18 && |MEDICO| == 6;
  }

  /** "Zootecnista" is recommended exactly when the birds eat home-made food or leftovers. */
  lemma ZootecnistaSeAlimentacaoCaseira(respostas: Respostas)
    requires Processar(respostas).Ok?
    ensures ZOO in Processar(respostas).value.profissionais
        <==> ObjetoDe(respostas, "nutricao").Some? && AlimentacaoCaseira(ObjetoDe(respostas, "nutricao").value)
  {
    SecoesEmOrdem(respostas);
    ProfissoesPorSecao(respostas);
    var n, d := ObjetoDe(respostas, "nutricao"), ObjetoDe(respostas, "doencas");
    UniaoProfissoes(DaSecao(respostas, "saude").profs, DaSecao(respostas, "nutricao").profs,
                    DaSecao(respostas, "avaliacao").profs, DaSecao(respostas, "doencas").profs,
                    n.Some? && AlimentacaoCaseira(n.value), d.Some? && SinalGrave(d.value));
  }

  /** "Médico" is recommended exactly when one of the four red-flag questions
      is answered "sim", and always together with "Médico Veterinário". */
  lemma MedicoSeSinalGrave(respostas: Respostas)
    requires Processar(respostas).Ok?
    ensures MEDICO in Processar(respostas).value.profissionais
        <==> ObjetoDe(respostas, "doencas").Some? && SinalGrave(ObjetoDe(respostas, "doencas").value)
    ensures MEDICO in Processar(respostas).value.profissionais ==> VET in Processar(respostas).value.profissionais
  {
    SecoesEmOrdem(respostas);
    ProfissoesPorSecao(respostas);
    var n, d := ObjetoDe(respostas, "nutricao"), ObjetoDe(respostas, "doencas");
    UniaoProfissoes(DaSecao(respostas, "saude").profs, DaSecao(respostas, "nutricao").profs,
                    DaSecao(respostas, "avaliacao").profs, DaSecao(respostas, "doencas").profs,
                    n.Some? && AlimentacaoCaseira(n.value), d.Some? && SinalGrave(d.value));
  }

  // ---------------------------------------------------------------------------
  // The engine as the service runs it: the three lists and the set are owned by
  // processarAnalise and each analisar* method appends to them in place.

  /** Appending five contributions one after the other appends their sum. */
  lemma Juntar5(c0: Contribuicao, c1: Contribuicao, c2: Contribuicao, c3: Contribuicao, c4: Contribuicao,
                c5: Contribuicao, q1: Contribuicao, q2: Contribuicao, q3: Contribuicao,
                q4: Contribuicao, q5: Contribuicao)
    requires c1 == Mais(c0, q1) && c2 == Mais(c1, q2) && c3 == Mais(c2, q3)
    requires c4 == Mais(c3, q4) && c5 == Mais(c4, q5)
    ensures c5 == Mais(c0, Mais(Mais(Mais(Mais(q1, q2), q3), q4), q5))
  {
    MaisAssociativa(c0, q1, q2);
    MaisAssociativa(c0, Mais(q1, q2), q3);
    MaisAssociativa(c0, Mais(Mais(q1, q2), q3), q4);
    MaisAssociativa(c0, Mais(Mais(Mais(q1, q2), q3), q4), q5);
  }

  lemma Juntar3(c0: Contribuicao, c1: Contribuicao, c2: Contribuicao, c3: Contribuicao,
                q1: Contribuicao, q2: Contribuicao, q3: Contribuicao)
    requires c1 == Mais(c0, q1) && c2 == Mais(c1, q2) && c3 == Mais(c2, q3)
    ensures c3 == Mais(c0, Mais(Mais(q1, q2), q3))
  {
    MaisAssociativa(c0, q1, q2);
    MaisAssociativa(c0, Mais(q1, q2), q3);
  }

  lemma Juntar4(c0: Contribuicao, c1: Contribuicao, c2: Contribuicao, c3: Contribuicao, c4: Contribuicao,
                q1: Contribuicao, q2: Contribuicao, q3: Contribuicao, q4: Contribuicao)
    requires c1 == Mais(c0, q1) && c2 == Mais(c1, q2) && c3 == Mais(c2, q3) && c4 == Mais(c3, q4)
    ensures c4 == Mais(c0, Mais(Mais(Mais(q1, q2), q3), q4))
  {
    Juntar3(c0, c1, c2, c3, q1, q2, q3);
    MaisAssociativa(c0, Mais(Mais(q1, q2), q3), q4);
  }

  lemma Juntar6(c0: Contribuicao, c1: Contribuicao, c2: Contribuicao, c3: Contribuicao, c4: Contribuicao,
                c5: Contribuicao, c6: Contribuicao, q1: Contribuicao, q2: Contribuicao, q3: Contribuicao,
                q4: Contribuicao, q5: Contribuicao, q6: Contribuicao)
    requires c1 == Mais(c0, q1) && c2 == Mais(c1, q2) && c3 == Mais(c2, q3)
    requires c4 == Mais(c3, q4) && c5 == Mais(c4, q5) && c6 == Mais(c5, q6)
    ensures c6 == Mais(c0, Mais(Mais(Mais(Mais(Mais(q1, q2), q3), q4), q5), q6))
  {
    Juntar5(c0, c1, c2, c3, c4, c5, q1, q2, q3, q4, q5);
    MaisAssociativa(c0, Mais(Mais(Mais(Mais(q1, q2), q3), q4), q5), q6);
  }

  class Acumulador {
    var fortes: seq<string>
    var melhorias: seq<string>
    var alertas: seq<string>
    var profissionais: set<string>

    function Conteudo(): Contribuicao
      reads this
    {
      Contribuicao(fortes, melhorias, alertas, profissionais)
    }

    constructor ()
      ensures Conteudo() == Nada
    {
      fortes, melhorias, alertas, profissionais := [], [], [], {};
    }

    /** analisarSaude: five questions, in order. */
    method AnalisarSaude(respostas: Respostas)
      requires Legivel(respostas)
      modifies this
      ensures Conteudo() == Mais(old(Conteudo()), DaSecao(respostas, "saude"))
    {
      var secao := ObjetoDe(respostas, "saude");
      if secao.None? { return; }
      var saude := secao.value;
      ghost var c0 := Conteudo();
      SinaisDoenca(TextoDe(saude, "sinaisDoenca"));
      ghost var c1 := Conteudo();
      SinaisClinicosPresentes(ListaDe(saude, "sinaisClinicos"));
      ghost var c2 := Conteudo();
      Vacinacao(TextoDe(saude, "vacinacao"));
      ghost var c3 := Conteudo();
      Quarentena(TextoDe(saude, "quarentena"));
      ghost var c4 := Conteudo();
      AvesSilvestres(TextoDe(saude, "avesSilvestres"));
      Juntar5(c0, c1, c2, c3, c4, Conteudo(), Regra(TextoDe(saude, "sinaisDoenca"), TAB_SINAIS_DOENCA),
        SinaisClinicos(ListaDe(saude, "sinaisClinicos")), Regra(TextoDe(saude, "vacinacao"), TAB_VACINACAO),
        Regra(TextoDe(saude, "quarentena"), TAB_QUARENTENA), Regra(TextoDe(saude, "avesSilvestres"), TAB_AVES_SILVESTRES));
    }

    method SinaisDoenca(v: Option<string>)
      modifies this
      ensures Conteudo() == Mais(old(Conteudo()), Regra(v, TAB_SINAIS_DOENCA))
    {
      if v == Some("nao") {
        fortes := fortes + [SAUDE_SINAIS_NAO];
      } else if v == Some("sim") {
        alertas := alertas + [SAUDE_SINAIS_SIM];
        profissionais := profissionais + {VET};
      }
      Regra2(v, "nao", TAB_SINAIS_DOENCA[0].1, "sim", TAB_SINAIS_DOENCA[1].1);
    }

    method SinaisClinicosPresentes(sinais: Option<seq<Json>>)
      modifies this
      ensures Conteudo() == Mais(old(Conteudo()), SinaisClinicos(sinais))
    {
      if sinais.Some? {
        var l := sinais.value;
        if Texto("semAlteracoes") in l {
          fortes := fortes + [SAUDE_CLINICOS_SEM];
        } else {
          SinaisAlterados(l);
        }
      }
    }

    /** The branch of the clinical-signs question without "semAlteracoes". */
    method SinaisAlterados(l: seq<Json>)
      requires Texto("semAlteracoes") !in l
      modifies this
      ensures Conteudo() == Mais(old(Conteudo()), SinaisClinicos(Some(l)))
    {
      ghost var novos := Alterados(l);
      if Texto("espirros") in l {
        alertas := alertas + [SAUDE_ESPIRROS];
      }
      if Texto("diarreia") in l {
        alertas := alertas + [SAUDE_DIARREIA];
      }
      if Texto("apatia") in l {
        alertas := alertas + [SAUDE_APATIA];
      }
      if Texto("quedaProducao") in l {
        alertas := alertas + [SAUDE_QUEDA];
      }
      assert alertas == old(alertas) + novos;
      if |l| > 1 || Texto("semAlteracoes") !in l {
        profissionais := profissionais + {VET};
      }
    }

    method Vacinacao(v: Option<string>)
      modifies this
      ensures Conteudo() == Mais(old(Conteudo()), Regra(v, TAB_VACINACAO))
    {
      if v == Some("sim") {
        fortes := fortes + [SAUDE_VACINA_SIM];
      } else if v == Some("nao") {
        alertas := alertas + [SAUDE_VACINA_NAO];
        profissionais := profissionais + {VET};
      }
      Regra2(v, "sim", TAB_VACINACAO[0].1, "nao", TAB_VACINACAO[1].1);
    }

    method Quarentena(v: Option<string>)
      modifies this
      ensures Conteudo() == Mais(old(Conteudo()), Regra(v, TAB_QUARENTENA))
    {
      if v == Some("sim") {
        fortes := fortes + [SAUDE_QUARENTENA_SIM];
      } else if v == Some("nao") {
        melhorias := melhorias + [SAUDE_QUARENTENA_NAO];
      }
      Regra2(v, "sim", TAB_QUARENTENA[0].1, "nao", TAB_QUARENTENA[1].1);
    }

    method AvesSilvestres(v: Option<string>)
      modifies this
      ensures Conteudo() == Mais(old(Conteudo()), Regra(v, TAB_AVES_SILVESTRES))
    {
      if v == Some("nao") {
        fortes := fortes + [SAUDE_SILVESTRES_NAO];
      } else if v == Some("sim") {
        alertas := alertas + [SAUDE_SILVESTRES_SIM];
        profissionais := profissionais + {VET};
      }
      Regra2(v, "nao", TAB_AVES_SILVESTRES[0].1, "sim", TAB_AVES_SILVESTRES[1].1);
    }
  
    /** The four analisar* calls of processarAnalise, in order. */
    method AnalisarSecoes(respostas: Respostas)
      requires Legivel(respostas)
      modifies this
      ensures Conteudo() == Mais(old(Conteudo()), Total(respostas))
    {
      ghost var c0 := Conteudo();
      AnalisarSaude(respostas);
      ghost var c1 := Conteudo();
      AnalisarNutricao(respostas);
      ghost var c2 := Conteudo();
      AnalisarAvaliacao(respostas);
      ghost var c3 := Conteudo();
      AnalisarDoencas(respostas);
      Juntar4(c0, c1, c2, c3, Conteudo(), DaSecao(respostas, "saude"), DaSecao(respostas, "nutricao"),
        DaSecao(respostas, "avaliacao"), DaSecao(respostas, "doencas"));
    }

    /** analisarNutricao: three questions, in order. */
    method AnalisarNutricao(respostas: Respostas)
      requires Legivel(respostas)
      modifies this
      ensures Conteudo() == Mais(old(Conteudo()), DaSecao(respostas, "nutricao"))
    {
      var secao := ObjetoDe(respostas, "nutricao");
      if secao.None? { return; }
      var nutricao := secao.value;
      ghost var c0 := Conteudo();
      TipoAlimentacao(TextoDe(nutricao, "tipoAlimentacao"));
      ghost var c1 := Conteudo();
      Armazenamento(TextoDe(nutricao, "armazenamento"));
      ghost var c2 := Conteudo();
      FungosBolor(TextoDe(nutricao, "fungosBolor"));
      Juntar3(c0, c1, c2, Conteudo(), Regra(TextoDe(nutricao, "tipoAlimentacao"), TAB_ALIMENTACAO),
        Regra(TextoDe(nutricao, "armazenamento"), TAB_ARMAZENAMENTO),
        Regra(TextoDe(nutricao, "fungosBolor"), TAB_FUNGOS));
    }

    method TipoAlimentacao(v: Option<string>)
      modifies this
      ensures Conteudo() == Mais(old(Conteudo()), Regra(v, TAB_ALIMENTACAO))
    {
      if v == Some("racaoIndustrial") {
        fortes := fortes + [NUTRI_RACAO];
      } else if v == Some("comidaCaseira") || v == Some("sobrasAlimentos") {
        melhorias := melhorias + [NUTRI_CASEIRA];
        profissionais := profissionais + {ZOO};
        profissionais := profissionais + {VET};
      }
      Regra3(v, "racaoIndustrial", TAB_ALIMENTACAO[0].1, "comidaCaseira", TAB_ALIMENTACAO[1].1,
             "sobrasAlimentos", TAB_ALIMENTACAO[2].1);
    }

    method Armazenamento(v: Option<string>)
      modifies this
      ensures Conteudo() == Mais(old(Conteudo()), Regra(v, TAB_ARMAZENAMENTO))
    {
      if v == Some("sim") {
        fortes := fortes + [NUTRI_ARMAZEM_SIM];
      } else if v == Some("nao") {
        alertas := alertas + [NUTRI_ARMAZEM_NAO];
      }
      Regra2(v, "sim", TAB_ARMAZENAMENTO[0].1, "nao", TAB_ARMAZENAMENTO[1].1);
    }

    method FungosBolor(v: Option<string>)
      modifies this
      ensures Conteudo() == Mais(old(Conteudo()), Regra(v, TAB_FUNGOS))
    {
      if v == Some("nao") {
        fortes := fortes + [NUTRI_FUNGOS_NAO];
      } else if v == Some("sim") {
        alertas := alertas + [NUTRI_FUNGOS_SIM];
      }
      Regra2(v, "nao", TAB_FUNGOS[0].1, "sim", TAB_FUNGOS[1].1);
    }

    /** analisarAvaliacao: four questions, in order. */
    method AnalisarAvaliacao(respostas: Respostas)
      requires Legivel(respostas)
      modifies this
      ensures Conteudo() == Mais(old(Conteudo()), DaSecao(respostas, "avaliacao"))
    {
      var secao := ObjetoDe(respostas, "avaliacao");
      if secao.None? { return; }
      var avaliacao := secao.value;
      ghost var c0 := Conteudo();
      RegistrosZootecnicos(TextoDe(avaliacao, "registrosZootecnicos"));
      ghost var c1 := Conteudo();
      Fotoperiodo(TextoDe(avaliacao, "fotoperíodo"));
      ghost var c2 := Conteudo();
      QualidadeCasca(TextoDe(avaliacao, "qualidadeCasca"));
      ghost var c3 := Conteudo();
      LimpezaOvos(TextoDe(avaliacao, "limpezaOvos"));
      Juntar4(c0, c1, c2, c3, Conteudo(), Regra(TextoDe(avaliacao, "registrosZootecnicos"), TAB_REGISTROS),
        Regra(TextoDe(avaliacao, "fotoperíodo"), TAB_FOTOPERIODO),
        Regra(TextoDe(avaliacao, "qualidadeCasca"), TAB_CASCA),
        Regra(TextoDe(avaliacao, "limpezaOvos"), TAB_LIMPEZA));
    }

    method RegistrosZootecnicos(v: Option<string>)
      modifies this
      ensures Conteudo() == Mais(old(Conteudo()), Regra(v, TAB_REGISTROS))
    {
      if v == Some("sim") {
        fortes := fortes + [AVAL_REGISTROS_SIM];
      } else if v == Some("nao") {
        melhorias := melhorias + [AVAL_REGISTROS_NAO];
      }
      Regra2(v, "sim", TAB_REGISTROS[0].1, "nao", TAB_REGISTROS[1].1);
    }

    method Fotoperiodo(v: Option<string>)
      modifies this
      ensures Conteudo() == Mais(old(Conteudo()), Regra(v, TAB_FOTOPERIODO))
    {
      if v == Some("sim") {
        fortes := fortes + [AVAL_LUZ_SIM];
      } else if v == Some("nao") {
        alertas := alertas + [AVAL_LUZ_NAO];
        profissionais := profissionais + {VET};
      }
      Regra2(v, "sim", TAB_FOTOPERIODO[0].1, "nao", TAB_FOTOPERIODO[1].1);
    }

    method QualidadeCasca(v: Option<string>)
      modifies this
      ensures Conteudo() == Mais(old(Conteudo()), Regra(v, TAB_CASCA))
    {
      if v == Some("semAlteracao") {
        fortes := fortes + [AVAL_CASCA_BOA];
      } else if v == Some("rachaduras") {
        alertas := alertas + [AVAL_CASCA_RACHADA];
        profissionais := profissionais + {VET};
      } else if v == Some("rugosa") {
        alertas := alertas + [AVAL_CASCA_RUGOSA];
        profissionais := profissionais + {VET};
      }
      Regra3(v, "semAlteracao", TAB_CASCA[0].1, "rachaduras", TAB_CASCA[1].1, "rugosa", TAB_CASCA[2].1);
    }

    method LimpezaOvos(v: Option<string>)
      modifies this
      ensures Conteudo() == Mais(old(Conteudo()), Regra(v, TAB_LIMPEZA))
    {
      if v == Some("semAlteracao") {
        fortes := fortes + [AVAL_LIMPOS];
      } else if v == Some("sujidades") {
        alertas := alertas + [AVAL_SUJOS];
        profissionais := profissionais + {VET};
      }
      Regra2(v, "semAlteracao", TAB_LIMPEZA[0].1, "sujidades", TAB_LIMPEZA[1].1);
    }

    /** analisarDoencas: six questions, in order. */
    method AnalisarDoencas(respostas: Respostas)
      requires Legivel(respostas)
      modifies this
      ensures Conteudo() == Mais(old(Conteudo()), DaSecao(respostas, "doencas"))
    {
      var secao := ObjetoDe(respostas, "doencas");
      if secao.None? { return; }
      var doencas := secao.value;
      ghost var c0 := Conteudo();
      SimGrave(TextoDe(doencas, "mortesRepentinas"), DOENCA_MORTES_SIM, DOENCA_MORTES_NAO);
      ghost var c1 := Conteudo();
      SimLeve(TextoDe(doencas, "quedaProducaoRepentina"), DOENCA_QUEDA_SIM, DOENCA_QUEDA_NAO);
      ghost var c2 := Conteudo();
      SimGrave(TextoDe(doencas, "sintomasNeurologicos"), DOENCA_NEURO_SIM, DOENCA_NEURO_NAO);
      ghost var c3 := Conteudo();
      SimLeve(TextoDe(doencas, "sintomasRespiratorios"), DOENCA_RESP_SIM, DOENCA_RESP_NAO);
      ghost var c4 := Conteudo();
      SimGrave(TextoDe(doencas, "diarreiaVerde"), DOENCA_DIARREIA_SIM, DOENCA_DIARREIA_NAO);
      ghost var c5 := Conteudo();
      SimGrave(TextoDe(doencas, "contatoAvesSilvestres"), DOENCA_CONTATO_SIM, DOENCA_CONTATO_NAO);
      Juntar6(c0, c1, c2, c3, c4, c5, Conteudo(),
        Regra(TextoDe(doencas, "mortesRepentinas"), TAB_MORTES),
        Regra(TextoDe(doencas, "quedaProducaoRepentina"), TAB_QUEDA),
        Regra(TextoDe(doencas, "sintomasNeurologicos"), TAB_NEURO),
        Regra(TextoDe(doencas, "sintomasRespiratorios"), TAB_RESPIRATORIO),
        Regra(TextoDe(doencas, "diarreiaVerde"), TAB_DIARREIA),
        Regra(TextoDe(doencas, "contatoAvesSilvestres"), TAB_CONTATO));
    }

    /** A red-flag question: "sim" raises a critical alert and recommends both
        a veterinarian and a physician; "nao" is a strength. */
    method SimGrave(v: Option<string>, sim: string, nao: string)
      modifies this
      ensures Conteudo() == Mais(old(Conteudo()), Regra(v, Grave(sim, nao)))
    {
      if v == Some("sim") {
        alertas := alertas + [sim];
        profissionais := profissionais + {VET};
        profissionais := profissionais + {MEDICO};
      } else if v == Some("nao") {
        fortes := fortes + [nao];
      }
      Regra2(v, "sim", Grave(sim, nao)[0].1, "nao", Grave(sim, nao)[1].1);
    }

    /** The other doencas questions: "sim" is an alert, "nao" a strength. */
    method SimLeve(v: Option<string>, sim: string, nao: string)
      modifies this
      ensures Conteudo() == Mais(old(Conteudo()),
                Regra(v, SimNao(Efeito(Alertas, sim, {}), Efeito(Fortes, nao, {}))))
    {
      if v == Some("sim") {
        alertas := alertas + [sim];
      } else if v == Some("nao") {
        fortes := fortes + [nao];
      }
      Regra2(v, "sim", Efeito(Alertas, sim, {}), "nao", Efeito(Fortes, nao, {}));
    }
  }

  /** processarAnalise: the four sections in order, then score, panorama and
      comments; a cast that fails aborts the whole analysis. */
  method ProcessarAnalise(respostas: Respostas) returns (r: Result<ResultadoAnalise>)
    ensures r == Processar(respostas)
  {
    if !Legivel(respostas) {
      return Err(ConversaoInvalida);
    }
    var acc := new Acumulador();
    acc.AnalisarSecoes(respostas);
    NadaNeutro(Total(respostas));
    r := Ok(Montar(acc.Conteudo()));
  }
}
