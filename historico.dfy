/** The history service: a producer's dashboard, full history, comparison of
    two forms and the trend report over a date range. */
module Historico {
  import opened Common
  import opened Ordenacao
  import opened Status
  import opened Analise
  import opened Formulario
  import opened RepositorioFormulario
  import opened FormularioServico
  import opened Usuarios

  // ---------------------------------------------------------------------------
  // Scores, trend, category, percentage

  /** The score of a form that has an analysis result. */
  function Nota(f: Formulario): int
    requires f.resultado.Some?
  {
    f.resultado.value.score
  }

  /** The forms that have a result, in their order. */
  function ComResultado(fs: seq<Formulario>): seq<Formulario> {
    Filtrar(fs, (f: Formulario) => f.resultado.Some?)
  }

  /** The scores of the forms that have a result, in their order. */
  function Pontuacoes(fs: seq<Formulario>): (r: seq<int>)
    ensures |r| <= |fs|
    ensures (forall f :: f in fs ==> f.resultado.Some?) ==>
              |r| == |fs| && forall i :: 0 <= i < |fs| ==> r[i] == Nota(fs[i])
    ensures |r| == |ComResultado(fs)|
    ensures forall i :: 0 <= i < |r| ==> ComResultado(fs)[i] in ComResultado(fs) && r[i] == Nota(ComResultado(fs)[i])
  {
    if fs == [] then []
    else (if fs[0].resultado.Some? then [Nota(fs[0])] else []) + Pontuacoes(fs[1..])
  }

  /** Forms without a result contribute no score: scoring a list equals
      scoring only its forms that have a result. */
  lemma {:induction false} PontuacoesSoComResultado(fs: seq<Formulario>)
    ensures Pontuacoes(fs) == Pontuacoes(ComResultado(fs))
    decreases |fs|
  {
    if fs != [] {
      PontuacoesSoComResultado(fs[1..]);
      var resto := ComResultado(fs[1..]);
      if fs[0].resultado.Some? {
        assert ComResultado(fs) == [fs[0]] + resto;
        assert ([fs[0]] + resto)[1..] == resto;
      } else {
        assert ComResultado(fs) == resto;
      }
    }
  }

  function Soma(xs: seq<int>): int {
    if xs == [] then 0 else xs[0] + Soma(xs[1..])
  }

  /** IntStream.average().orElse(0.0). */
  function Media(xs: seq<int>): real {
    if xs == [] then 0.0 else Soma(xs) as real / |xs| as real
  }

  lemma {:induction false} SomaEntre(xs: seq<int>, lo: int, hi: int)
    requires forall i :: 0 <= i < |xs| ==> lo <= xs[i] <= hi
    ensures |xs| * lo <= Soma(xs) <= |xs| * hi
  {
    if xs != [] {
      SomaEntre(xs[1..], lo, hi);
    }
  }

  /** The mean of scores in [lo, hi] lies in [lo, hi]. */
  lemma MediaEntre(xs: seq<int>, lo: int, hi: int)
    requires xs != []
    requires forall i :: 0 <= i < |xs| ==> lo <= xs[i] <= hi
    ensures lo as real <= Media(xs) <= hi as real
  {
    var n, soma := |xs|, Soma(xs);
    SomaEntre(xs, lo, hi);
    assert n * lo <= soma <= n * hi;
    ProdutoReal(n, lo);
    ProdutoReal(n, hi);
    assert (n * lo) as real <= soma as real <= (n * hi) as real;
    QuocienteEntre(soma as real, n as real, lo as real, hi as real);
    assert Media(xs) == soma as real / n as real;
  }

  lemma ProdutoReal(a: int, b: int)
    ensures (a * b) as real == a as real * b as real
  {
  }

  lemma QuocienteEntre(s: real, n: real, lo: real, hi: real)
    requires n > 0.0 && n * lo <= s <= n * hi
    ensures lo <= s / n <= hi
  {
    var m := s / n;
    assert m * n == s;
    if m < lo {
      ProdutoMenor(m, lo, n);
    }
    if m > hi {
      ProdutoMenor(hi, m, n);
    }
  }

  lemma ProdutoMenor(a: real, b: real, n: real)
    requires n > 0.0 && a < b
    ensures a * n < b * n
  {
    assert (b - a) * n > 0.0;
  }

  /** calcularTendencia: the change from the first score to the second. */
  function Tendencia(p1: Option<int>, p2: Option<int>): (r: string)
    ensures p1.None? || p2.None? <==> r == "desconhecida"
    ensures p1.Some? && p2.Some? ==>
              (r == "crescente" <==> p2.value - p1.value > 5)
              && (r == "decrescente" <==> p2.value - p1.value < -5)
              && (r == "estavel" <==> -5 <= p2.value - p1.value <= 5)
  {
    if p1.None? || p2.None? then "desconhecida"
    else
      var diferenca := p2.value - p1.value;
      if diferenca > 5 then "crescente"
      else if diferenca < -5 then "decrescente"
      else "estavel"
  }

  /** determinarCategoria: the bands of the panorama, or "Não avaliado". */
  function Categoria(p: Option<int>): (r: string)
    ensures p.None? <==> r == "Não avaliado"
    ensures p.Some? ==>
              (r == "Excelente" <==> p.value >= 80)
              && (r == "Bom" <==> 60 <= p.value < 80)
              && (r == "Atenção" <==> 40 <= p.value < 60)
              && (r == "Crítico" <==> p.value < 40)
  {
    if p.None? then "Não avaliado"
    else if p.value >= 80 then "Excelente"
    else if p.value >= 60 then "Bom"
    else if p.value >= 40 then "Atenção"
    else "Crítico"
  }

  /** The dashboard category of a score agrees with the analysis panorama band. */
  lemma CategoriaAcompanhaPanorama(p: int)
    ensures Categoria(Some(p)) == "Excelente" <==> Panorama(p) == PANORAMA_EXCELENTE
    ensures Categoria(Some(p)) == "Bom" <==> Panorama(p) == PANORAMA_BOM
    ensures Categoria(Some(p)) == "Atenção" <==> Panorama(p) == PANORAMA_ATENCAO
    ensures Categoria(Some(p)) == "Crítico" <==> Panorama(p) == PANORAMA_CRITICO
  {
  }

  /** calcularPercentualMelhoria: (p2 - p1) / p1 * 100, or 0 without both
      scores or with p1 = 0 (exact arithmetic in place of double). */
  function PercentualMelhoria(p1: Option<int>, p2: Option<int>): (r: real)
    ensures p1.None? || p2.None? || p1.value == 0 ==> r == 0.0
    ensures p1.Some? && p2.Some? && p1.value != 0 ==> r * p1.value as real == (p2.value - p1.value) as real * 100.0
  {
    if p1.None? || p2.None? || p1.value == 0 then 0.0
    else ((p2.value - p1.value) as real / p1.value as real) * 100.0
  }

  lemma PercentualExemplo()
    ensures PercentualMelhoria(Some(40), Some(60)) == 50.0
    ensures Tendencia(Some(40), Some(60)) == "crescente"
    ensures PercentualMelhoria(Some(0), Some(60)) == 0.0
  {
  }

  // ---------------------------------------------------------------------------
  // History entries

  /** HistoricoFormularioDTO. */
  datatype HistoricoFormulario = HistoricoFormulario(
    id: Option<string>,
    data: Option<int>,
    status: StatusFormulario,
    completo: bool,
    pontuacao: Option<int>,
    panorama: Option<string>,
    totalFortes: nat,
    totalMelhorias: nat,
    totalAlertas: nat)

  /** mapearParaHistorico: identity, date, status and completeness always; the
      score, panorama and counts only from a result, where "alertas" counts
      the comments. */
  function MapearParaHistorico(f: Formulario): (r: HistoricoFormulario)
    ensures r.id == f.id && r.data == f.dataPreenchimento && r.status == f.status
    ensures r.completo <==> FormularioCompleto(f.respostas)
    ensures f.resultado.None? ==> r.pontuacao.None? && r.panorama.None? && r.totalFortes == r.totalMelhorias == r.totalAlertas == 0
    ensures f.resultado.Some? ==>
              r.pontuacao == Some(Nota(f)) && r.panorama == Some(f.resultado.value.panorama)
              && r.totalFortes == |f.resultado.value.fortes| && r.totalMelhorias == |f.resultado.value.melhorias|
              && r.totalAlertas == |f.resultado.value.comentarios|
  {
    var base := HistoricoFormulario(f.id, f.dataPreenchimento, f.status, FormularioCompleto(f.respostas), None, None, 0, 0, 0);
    match f.resultado
    case None => base
    case Some(res) =>
      base.(pontuacao := Some(res.score), panorama := Some(res.panorama), totalFortes := |res.fortes|,
            totalMelhorias := |res.melhorias|, totalAlertas := |res.comentarios|)
  }

  function MapearTodos(fs: seq<Formulario>): (r: seq<HistoricoFormulario>)
    ensures |r| == |fs| && forall i :: 0 <= i < |fs| ==> r[i] == MapearParaHistorico(fs[i])
  {
    seq(|fs|, i requires 0 <= i < |fs| => MapearParaHistorico(fs[i]))
  }

  /** Oldest first. */
  function ChaveAntiga(f: Formulario): Chave {
    Chave(f.dataPreenchimento.GetOr(0), 0.0)
  }

  /** buscarHistoricoCompleto over the producer's forms: the ANALISADO ones,
      newest first. */
  function HistoricoCompleto(fs: seq<Formulario>): (r: seq<HistoricoFormulario>)
    ensures |r| <= |fs|
    ensures forall h :: h in r ==> h.status == ANALISADO
    ensures forall i, j :: 0 <= i < j < |r| ==> r[j].data.GetOr(0) <= r[i].data.GetOr(0)
    ensures |r| == Contar(fs, ANALISADO)
    ensures forall f :: f in fs && f.status == ANALISADO ==> MapearParaHistorico(f) in r
  {
    var analisados := Filtrar(fs, (f: Formulario) => f.status == ANALISADO);
    var ordenados := Ordenar(analisados, ChaveRecente);
    OrdenarMembros(analisados, ChaveRecente);
    OrdenarTamanho(analisados, ChaveRecente);
    OrdenarOrdena(analisados, ChaveRecente);
    assert forall i :: 0 <= i < |ordenados| ==> ordenados[i] in ordenados;
    var r := MapearTodos(ordenados);
    forall f | f in fs && f.status == ANALISADO
      ensures MapearParaHistorico(f) in r
    {
      var i :| 0 <= i < |ordenados| && ordenados[i] == f;
      assert r[i] == MapearParaHistorico(f);
    }
    r
  }

  // ---------------------------------------------------------------------------
  // Dashboard

  /** DashboardProdutorDTO. The optional fields stay null when the producer
      has no analysed form with a result. */
  datatype Dashboard = Dashboard(
    produtorId: int,
    nomeProdutor: string,
    totalFormularios: nat,
    formulariosAnalisados: nat,
    rascunhos: nat,
    pontuacaoMedia: Option<real>,
    tendenciaPontuacao: Option<string>,
    ultimaPontuacao: Option<int>,
    penultimaPontuacao: Option<int>,
    totalPontosFortes: nat,
    totalPontosAMelhorar: nat,
    totalAlertas: nat,
    categoriaAtual: Option<string>,
    historicoRecente: Option<seq<HistoricoFormulario>>,
    alertasAtivos: Option<seq<string>>,
    temAlertasCriticos: bool)

  function Contar(fs: seq<Formulario>, st: StatusFormulario): nat {
    |Filtrar(fs, (f: Formulario) => f.status == st)|
  }

  lemma {:induction false} ContagensSomadas(fs: seq<Formulario>)
    ensures Contar(fs, ANALISADO) + Contar(fs, RASCUNHO) + Contar(fs, SUBMETIDO) == |fs|
  {
    if fs != [] {
      ContagensSomadas(fs[1..]);
    }
  }

  /** The analysed forms with a result, newest first. */
  function AnalisadosRecentes(fs: seq<Formulario>): (r: seq<Formulario>)
    ensures forall f :: f in r <==> f in fs && f.status == ANALISADO && f.resultado.Some?
    ensures Ordenada(r, ChaveRecente)
    ensures |r| <= Contar(fs, ANALISADO)
  {
    var comResultado := Filtrar(fs, (f: Formulario) => f.status == ANALISADO && f.resultado.Some?);
    OrdenarMembros(comResultado, ChaveRecente);
    OrdenarOrdena(comResultado, ChaveRecente);
    OrdenarTamanho(comResultado, ChaveRecente);
    FiltrarMais(fs);
    Ordenar(comResultado, ChaveRecente)
  }

  lemma {:induction false} FiltrarMais(fs: seq<Formulario>)
    ensures |Filtrar(fs, (f: Formulario) => f.status == ANALISADO && f.resultado.Some?)| <= Contar(fs, ANALISADO)
  {
    if fs != [] {
      FiltrarMais(fs[1..]);
    }
  }

  /** An active alert counts as critical when, lower-cased, it mentions
      "crítico", "urgente" or "mortes". */
  predicate AlertaCritico(alerta: string) {
    Contem(Lower(alerta), "crítico") || Contem(Lower(alerta), "urgente") || Contem(Lower(alerta), "mortes")
  }

  /** The DTO under construction: gerarDashboard fills it through setters. */
  class Painel {
    var produtorId: int
    var nomeProdutor: string
    var totalFormularios: nat
    var formulariosAnalisados: nat
    var rascunhos: nat
    var pontuacaoMedia: Option<real>
    var tendenciaPontuacao: Option<string>
    var ultimaPontuacao: Option<int>
    var penultimaPontuacao: Option<int>
    var totalPontosFortes: nat
    var totalPontosAMelhorar: nat
    var totalAlertas: nat
    var categoriaAtual: Option<string>
    var historicoRecente: Option<seq<HistoricoFormulario>>
    var alertasAtivos: Option<seq<string>>
    var temAlertasCriticos: bool

    function Conteudo(): Dashboard
      reads this
    {
      Dashboard(produtorId, nomeProdutor, totalFormularios, formulariosAnalisados, rascunhos, pontuacaoMedia,
                tendenciaPontuacao, ultimaPontuacao, penultimaPontuacao, totalPontosFortes, totalPontosAMelhorar,
                totalAlertas, categoriaAtual, historicoRecente, alertasAtivos, temAlertasCriticos)
    }

    /** The basic statistics; every other field keeps its default. */
    constructor (produtorId: int, nomeProdutor: string, fs: seq<Formulario>)
      ensures Conteudo() == Basico(produtorId, nomeProdutor, fs)
    {
      this.produtorId := produtorId;
      this.nomeProdutor := nomeProdutor;
      totalFormularios := |fs|;
      formulariosAnalisados := Contar(fs, ANALISADO);
      rascunhos := Contar(fs, RASCUNHO);
      pontuacaoMedia, tendenciaPontuacao, ultimaPontuacao, penultimaPontuacao := None, None, None, None;
      totalPontosFortes, totalPontosAMelhorar, totalAlertas := 0, 0, 0;
      categoriaAtual, historicoRecente, alertasAtivos, temAlertasCriticos := None, None, None, false;
    }

    /** calcularMetricasEvolutivas. */
    method CalcularMetricasEvolutivas(analisados: seq<Formulario>)
      modifies this
      ensures Conteudo() == ComMetricas(old(Conteudo()), analisados)
    {
      var notas := Pontuacoes(analisados);
      pontuacaoMedia := Some(Media(notas));
      var ultimas := Limitar(notas, 2);
      if ultimas != [] {
        ultimaPontuacao := Some(ultimas[0]);
        if |ultimas| >= 2 {
          penultimaPontuacao := Some(ultimas[1]);
          tendenciaPontuacao := Some(Tendencia(Some(ultimas[1]), Some(ultimas[0])));
        } else {
          tendenciaPontuacao := Some("primeiro");
        }
      }
    }

    /** calcularEstatisticasGerais. */
    method CalcularEstatisticasGerais(analisados: seq<Formulario>)
      requires analisados != []
      modifies this
      ensures Conteudo() == ComEstatisticas(old(Conteudo()), analisados[0])
    {
      var ultimo := analisados[0];
      if ultimo.resultado.Some? {
        var resultado := ultimo.resultado.value;
        categoriaAtual := Some(Categoria(Some(resultado.score)));
        totalPontosFortes := |resultado.fortes|;
        totalPontosAMelhorar := |resultado.melhorias|;
        totalAlertas := |resultado.comentarios|;
      }
    }

    /** extrairAlertasAtivos. */
    method ExtrairAlertasAtivos(ultimo: Formulario)
      modifies this
      ensures Conteudo() == ComAlertas(old(Conteudo()), ultimo)
    {
      if ultimo.resultado.Some? {
        var alertas := ultimo.resultado.value.comentarios;
        alertasAtivos := Some(alertas);
        temAlertasCriticos := exists a :: a in alertas && AlertaCritico(a);
      }
    }
  }

  /** What calcularMetricasEvolutivas sets: the mean score, the newest score
      and the trend from the second newest to the newest ("primeiro" with a
      single score). */
  function ComMetricas(d: Dashboard, analisados: seq<Formulario>): Dashboard {
    var notas := Pontuacoes(analisados);
    d.(pontuacaoMedia := Some(Media(notas)),
       ultimaPontuacao := if notas == [] then d.ultimaPontuacao else Some(notas[0]),
       penultimaPontuacao := if |notas| >= 2 then Some(notas[1]) else d.penultimaPontuacao,
       tendenciaPontuacao :=
         if notas == [] then d.tendenciaPontuacao
         else if |notas| >= 2 then Some(Tendencia(Some(notas[1]), Some(notas[0])))
         else Some("primeiro"))
  }

  /** What calcularEstatisticasGerais sets: the category and counts of the newest form. */
  function ComEstatisticas(d: Dashboard, ultimo: Formulario): Dashboard {
    match ultimo.resultado
    case None => d
    case Some(res) =>
      d.(categoriaAtual := Some(Categoria(Some(res.score))),
         totalPontosFortes := |res.fortes|,
         totalPontosAMelhorar := |res.melhorias|,
         totalAlertas := |res.comentarios|)
  }

  /** What extrairAlertasAtivos sets: the comments of the newest form, and
      whether any of them is critical. */
  function ComAlertas(d: Dashboard, ultimo: Formulario): Dashboard {
    match ultimo.resultado
    case None => d
    case Some(res) =>
      d.(alertasAtivos := Some(res.comentarios),
         temAlertasCriticos := exists c :: c in res.comentarios && AlertaCritico(c))
  }

  /** The basic statistics, every other field at its default. */
  function Basico(produtorId: int, nome: string, fs: seq<Formulario>): Dashboard {
    Dashboard(produtorId, nome, |fs|, Contar(fs, ANALISADO), Contar(fs, RASCUNHO),
              None, None, None, None, 0, 0, 0, None, None, None, false)
  }

  /** What gerarDashboard returns for a producer's forms. */
  function DashboardDe(produtorId: int, nome: string, fs: seq<Formulario>): Dashboard {
    var a := AnalisadosRecentes(fs);
    var d := Basico(produtorId, nome, fs);
    if a == [] then d
    else
      var d := ComEstatisticas(ComMetricas(d, a), a[0]);
      ComAlertas(d.(historicoRecente := Some(MapearTodos(Limitar(a, 5)))), a[0])
  }

  /** The dashboard's counts: analysed plus drafts never exceed the total
      (submitted forms are in neither). */
  lemma DashboardContagens(produtorId: int, nome: string, fs: seq<Formulario>)
    ensures var d := DashboardDe(produtorId, nome, fs);
            d.totalFormularios == |fs|
            && d.formulariosAnalisados + d.rascunhos == |fs| - Contar(fs, SUBMETIDO)
            && d.formulariosAnalisados + d.rascunhos <= d.totalFormularios
  {
    ContagensSomadas(fs);
  }

  /** Without analysed forms the dashboard has no history and nothing that
      depends on one; with analysed forms the history is filled in. */
  lemma DashboardSemAnalisados(produtorId: int, nome: string, fs: seq<Formulario>)
    ensures var d := DashboardDe(produtorId, nome, fs);
            var a := AnalisadosRecentes(fs);
            && (a == [] <==> d.historicoRecente.None?)
            && (a == [] ==> d.pontuacaoMedia.None? && d.tendenciaPontuacao.None? && d.ultimaPontuacao.None?
                            && d.alertasAtivos.None? && !d.temAlertasCriticos)
  {
    if AnalisadosRecentes(fs) != [] {
      DashboardCampos(produtorId, nome, fs);
    }
  }

  /** The dashboard's recent history is the first min(5, n) analysed forms,
      newest first, each with a score. */
  lemma DashboardHistorico(produtorId: int, nome: string, fs: seq<Formulario>)
    ensures var d := DashboardDe(produtorId, nome, fs);
            var a := AnalisadosRecentes(fs);
            a != [] ==>
              && d.historicoRecente.Some?
              && |d.historicoRecente.value| == (if |a| < 5 then |a| else 5)
              && (forall h :: h in d.historicoRecente.value ==> h.status == ANALISADO && h.pontuacao.Some?)
              && (forall i, j :: 0 <= i < j < |d.historicoRecente.value| ==>
                    d.historicoRecente.value[j].data.GetOr(0) <= d.historicoRecente.value[i].data.GetOr(0))
  {
    var a := AnalisadosRecentes(fs);
    if a != [] {
      DashboardCampos(produtorId, nome, fs);
      HistoricoRecente(a);
    }
  }

  /** The dashboard's scores: the last score is the newest one, the trend
      compares the two newest, and the mean of scores in [0, 100] lies in
      [0, 100]. */
  lemma DashboardPontuacoes(produtorId: int, nome: string, fs: seq<Formulario>)
    ensures var d := DashboardDe(produtorId, nome, fs);
            var a := AnalisadosRecentes(fs);
            a != [] ==>
              && d.ultimaPontuacao == Some(Nota(a[0]))
              && d.tendenciaPontuacao == Some(if |a| >= 2 then Tendencia(Some(Nota(a[1])), Some(Nota(a[0]))) else "primeiro")
              && d.pontuacaoMedia.Some?
              && ((forall f :: f in fs && f.resultado.Some? ==> 0 <= Nota(f) <= 100) ==>
                    0.0 <= d.pontuacaoMedia.value <= 100.0)
  {
    var a := AnalisadosRecentes(fs);
    if a != [] {
      DashboardCampos(produtorId, nome, fs);
      if forall f :: f in fs && f.resultado.Some? ==> 0 <= Nota(f) <= 100 {
        assert forall i :: 0 <= i < |a| ==> a[i] in a;
        MediaEntre(Pontuacoes(a), 0, 100);
      }
    }
  }

  /** The dashboard's alerts: the active alerts are the comments of the newest
      analysed form, the critical flag holds exactly when one of them mentions
      "crítico", "urgente" or "mortes", and the category is that form's. */
  lemma DashboardAlertas(produtorId: int, nome: string, fs: seq<Formulario>)
    ensures var d := DashboardDe(produtorId, nome, fs);
            var a := AnalisadosRecentes(fs);
            a != [] ==>
              && a[0].resultado.Some?
              && d.alertasAtivos == Some(a[0].resultado.value.comentarios)
              && (d.temAlertasCriticos <==> exists c :: c in a[0].resultado.value.comentarios && AlertaCritico(c))
              && d.categoriaAtual == Some(Categoria(Some(a[0].resultado.value.score)))
  {
    var a := AnalisadosRecentes(fs);
    if a != [] {
      assert a[0] in a;
    }
  }

  /** With analysed forms, the dashboard's history, newest score, trend and
      mean come from the analysed forms, newest first. */
  lemma DashboardCampos(produtorId: int, nome: string, fs: seq<Formulario>)
    requires AnalisadosRecentes(fs) != []
    ensures var d := DashboardDe(produtorId, nome, fs);
            var a := AnalisadosRecentes(fs);
            var notas := Pontuacoes(a);
            && d.historicoRecente == Some(MapearTodos(Limitar(a, 5)))
            && |notas| == |a| && notas[0] == Nota(a[0]) && (|a| >= 2 ==> notas[1] == Nota(a[1]))
            && d.ultimaPontuacao == Some(notas[0])
            && d.tendenciaPontuacao == Some(if |notas| >= 2 then Tendencia(Some(notas[1]), Some(notas[0])) else "primeiro")
            && d.pontuacaoMedia == Some(Media(notas))
  {
    var a := AnalisadosRecentes(fs);
    assert forall f :: f in a ==> f.resultado.Some?;
    var m := ComMetricas(Basico(produtorId, nome, fs), a);
    var e := ComEstatisticas(m, a[0]);
    assert e.ultimaPontuacao == m.ultimaPontuacao && e.tendenciaPontuacao == m.tendenciaPontuacao
           && e.pontuacaoMedia == m.pontuacaoMedia;
  }

  /** The recent history of forms analysed newest first: at most five
      entries, each analysed with a score, dates non-increasing. */
  lemma HistoricoRecente(a: seq<Formulario>)
    requires forall f :: f in a ==> f.status == ANALISADO && f.resultado.Some?
    requires Ordenada(a, ChaveRecente)
    ensures var h := MapearTodos(Limitar(a, 5));
            && |h| == (if |a| < 5 then |a| else 5)
            && (forall x :: x in h ==> x.status == ANALISADO && x.pontuacao.Some?)
            && (forall i, j :: 0 <= i < j < |h| ==> h[j].data.GetOr(0) <= h[i].data.GetOr(0))
  {
    var recentes := Limitar(a, 5);
    assert forall f :: f in recentes ==> f in a;
    assert forall i :: 0 <= i < |recentes| ==> recentes[i] == a[i];
  }

  // ---------------------------------------------------------------------------
  // Comparison and trend report

  /** The comparison map: both history entries, and the difference,
      percentage and improvement flag only when both forms have a score. */
  datatype Comparacao = Comparacao(
    formulario1: HistoricoFormulario,
    formulario2: HistoricoFormulario,
    diferencaPontuacao: Option<int>,
    percentualMelhoria: Option<real>,
    melhorou: Option<bool>)

  /** compararFormularios. */
  function CompararFormularios(repo: RepositorioFormularios, id1: string, id2: string): (r: Result<Comparacao>)
    reads repo
    ensures r.Err? <==> id1 !in repo.arquivos || id2 !in repo.arquivos
    ensures r.Err? ==> r.erro == NaoEncontrado
    ensures r.Ok? ==>
              var f1, f2 := repo.arquivos[id1], repo.arquivos[id2];
              && r.value.formulario1 == MapearParaHistorico(f1) && r.value.formulario2 == MapearParaHistorico(f2)
              && (f1.resultado.None? || f2.resultado.None? <==> r.value.diferencaPontuacao.None?)
              && (r.value.diferencaPontuacao.None? <==> r.value.melhorou.None?)
              && (r.value.diferencaPontuacao.None? <==> r.value.percentualMelhoria.None?)
              && (f1.resultado.Some? && f2.resultado.Some? ==>
                    var p1, p2 := Nota(f1), Nota(f2);
                    && r.value.diferencaPontuacao == Some(p2 - p1)
                    && (r.value.melhorou == Some(true) <==> p2 > p1)
                    && r.value.percentualMelhoria == Some(PercentualMelhoria(Some(p1), Some(p2))))
  {
    match (repo.BuscarPorId(id1), repo.BuscarPorId(id2))
    case (None, _) => Err(NaoEncontrado)
    case (_, None) => Err(NaoEncontrado)
    case (Some(f1), Some(f2)) =>
      var base := Comparacao(MapearParaHistorico(f1), MapearParaHistorico(f2), None, None, None);
      if f1.resultado.Some? && f2.resultado.Some? then
        var p1, p2 := f1.resultado.value.score, f2.resultado.value.score;
        Ok(base.(diferencaPontuacao := Some(p2 - p1),
                 percentualMelhoria := Some(PercentualMelhoria(Some(p1), Some(p2))),
                 melhorou := Some(p2 > p1)))
      else Ok(base)
  }

  /** One point of the score evolution. */
  datatype Ponto = Ponto(data: int, pontuacao: int)

  /** The report map: the period, the count, and, when the period holds some
      form, the score evolution, its mean and (with two points or more) the
      trend from the first point to the last. */
  datatype Relatorio = Relatorio(
    inicio: int,
    fim: int,
    totalFormularios: nat,
    evolucaoPontuacao: Option<seq<Ponto>>,
    pontuacaoMedia: Option<real>,
    tendencia: Option<string>)

  /** ANALISADO forms filled in within [inicio, fim], oldest first. */
  function NoPeriodo(fs: seq<Formulario>, inicio: int, fim: int): (r: seq<Formulario>)
    ensures forall f :: f in r <==> (f in fs && f.status == ANALISADO && inicio <= f.dataPreenchimento.GetOr(0) <= fim)
    ensures Ordenada(r, ChaveAntiga)
  {
    var filtrados := Filtrar(fs, (f: Formulario) => f.status == ANALISADO && inicio <= f.dataPreenchimento.GetOr(0) <= fim);
    OrdenarMembros(filtrados, ChaveAntiga);
    OrdenarOrdena(filtrados, ChaveAntiga);
    Ordenar(filtrados, ChaveAntiga)
  }

  /** The evolution points of the forms that have a result, in their order. */
  function Evolucao(fs: seq<Formulario>): (r: seq<Ponto>)
    ensures |r| == |Pontuacoes(fs)|
    ensures forall i :: 0 <= i < |r| ==> r[i].pontuacao == Pontuacoes(fs)[i]
    ensures |r| == |ComResultado(fs)|
    ensures forall i :: 0 <= i < |r| ==> r[i].data == ComResultado(fs)[i].dataPreenchimento.GetOr(0)
  {
    if fs == [] then []
    else
      var cabeca := if fs[0].resultado.Some? then [Ponto(fs[0].dataPreenchimento.GetOr(0), Nota(fs[0]))] else [];
      var resto := Evolucao(fs[1..]);
      assert ComResultado(fs) == (if fs[0].resultado.Some? then [fs[0]] else []) + ComResultado(fs[1..]);
      assert Pontuacoes(fs) == (if fs[0].resultado.Some? then [Nota(fs[0])] else []) + Pontuacoes(fs[1..]);
      cabeca + resto
  }

  /** gerarRelatorioTendencias over the producer's forms. */
  function RelatorioTendencias(fs: seq<Formulario>, inicio: int, fim: int): (r: Relatorio)
    ensures var periodo := NoPeriodo(fs, inicio, fim);
            && r.totalFormularios == |periodo|
            && (periodo == [] <==> r.evolucaoPontuacao.None?)
            && (periodo == [] ==> r.pontuacaoMedia.None? && r.tendencia.None?)
            && (periodo != [] ==> r.evolucaoPontuacao == Some(Evolucao(periodo)))
            && (periodo != [] ==>
                  var notas := Pontuacoes(periodo);
                  && r.pontuacaoMedia == Some(Media(notas))
                  && (r.tendencia.Some? <==> |notas| >= 2)
                  && (|notas| >= 2 ==> r.tendencia == Some(Tendencia(Some(notas[0]), Some(notas[|notas| - 1])))))
  {
    var periodo := NoPeriodo(fs, inicio, fim);
    var base := Relatorio(inicio, fim, |periodo|, None, None, None);
    if periodo == [] then base
    else
      var evolucao := Evolucao(periodo);
      var notas := Pontuacoes(periodo);
      assert |evolucao| == |notas|;
      assert |evolucao| >= 2 ==>
               evolucao[0].pontuacao == notas[0] && evolucao[|evolucao| - 1].pontuacao == notas[|notas| - 1];
      var tendencia :=
        if |evolucao| >= 2 then Some(Tendencia(Some(evolucao[0].pontuacao), Some(evolucao[|evolucao| - 1].pontuacao)))
        else None;
      base.(evolucaoPontuacao := Some(evolucao), pontuacaoMedia := Some(Media(notas)), tendencia := tendencia)
  }

  // ---------------------------------------------------------------------------
  // The service

  class ServicoHistorico {
    const formularios: RepositorioFormularios
    const produtores: RepositorioUsuarios

    constructor (formularios: RepositorioFormularios, produtores: RepositorioUsuarios)
      ensures this.formularios == formularios && this.produtores == produtores
    {
      this.formularios := formularios;
      this.produtores := produtores;
    }

    /** gerarDashboard: rejects an unknown producer; otherwise builds the
        dashboard from the producer's forms. */
    method GerarDashboard(produtorId: int) returns (r: Result<Dashboard>)
      ensures produtores.BuscarPorId(produtorId).None? ==> r == Err(NaoEncontrado)
      ensures produtores.BuscarPorId(produtorId).Some? ==>
                r == Ok(DashboardDe(produtorId, produtores.BuscarPorId(produtorId).value.nome,
                                    formularios.DoProdutor(produtorId)))
    {
      var produtor := produtores.BuscarPorId(produtorId);
      if produtor.None? {
        return Err(NaoEncontrado);
      }
      var fs := formularios.BuscarPorProdutor(produtorId);
      var painel := new Painel(produtorId, produtor.value.nome, fs);
      var analisados := AnalisadosRecentes(fs);
      if analisados != [] {
        painel.CalcularMetricasEvolutivas(analisados);
        painel.CalcularEstatisticasGerais(analisados);
        painel.historicoRecente := Some(MapearTodos(Limitar(analisados, 5)));
        painel.ExtrairAlertasAtivos(analisados[0]);
      }
      r := Ok(painel.Conteudo());
    }

    /** buscarHistoricoCompleto. */
    method BuscarHistoricoCompleto(produtorId: int) returns (r: seq<HistoricoFormulario>)
      ensures r == HistoricoCompleto(formularios.DoProdutor(produtorId))
    {
      var fs := formularios.BuscarPorProdutor(produtorId);
      r := HistoricoCompleto(fs);
    }

    /** gerarRelatorioTendencias. */
    method GerarRelatorioTendencias(produtorId: int, inicio: int, fim: int) returns (r: Relatorio)
      ensures r == RelatorioTendencias(formularios.DoProdutor(produtorId), inicio, fim)
    {
      var fs := formularios.BuscarPorProdutor(produtorId);
      r := RelatorioTendencias(fs, inicio, fim);
    }
  }
}
