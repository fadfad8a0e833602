/** The browser front end's own rules: the password test, the tab navigation,
    the second rule engine that builds the report from the answers kept in
    `valuesState`, and the suggestion of professionals stored locally.
    Answers are the strings the form controls store, keyed by question id;
    a question left unanswered has no key (`undefined`). */
module Frontend {
  import opened Common
  import opened Ordenacao

  // ---------------------------------------------------------------------------
  // validatePassword

  predicate Maiuscula(c: char) { 'A' <= c <= 'Z' }
  predicate Minuscula(c: char) { 'a' <= c <= 'z' }
  predicate Alfanumerico(c: char) { Maiuscula(c) || Minuscula(c) || '0' <= c <= '9' }

  /** String.prototype.length: the number of UTF-16 code units, where a
      character outside the Basic Multilingual Plane takes two. */
  function UnidadesUtf16(s: string): (r: nat)
    ensures |s| <= r <= 2 * |s|
    ensures (forall i :: 0 <= i < |s| ==> s[i] < 0x10000 as char) ==> r == |s|
  {
    if s == [] then 0
    else (if s[0] >= 0x10000 as char then 2 else 1) + UnidadesUtf16(s[1..])
  }

  /** `!pw` rejects a missing or empty password; then the length in UTF-16
      code units and the three character classes /[A-Z]/, /[a-z]/ and
      /[^A-Za-z0-9]/ must each match. Without the `u` flag the classes test
      code units; a surrogate half is not alphanumeric, and neither is the
      character it belongs to, so testing characters gives the same answer. */
  function ValidatePassword(pw: Option<string>): (r: bool)
    ensures r <==> pw.Some? && UnidadesUtf16(pw.value) >= 8 &&
                   (exists i :: 0 <= i < |pw.value| && Maiuscula(pw.value[i])) &&
                   (exists i :: 0 <= i < |pw.value| && Minuscula(pw.value[i])) &&
                   (exists i :: 0 <= i < |pw.value| && !Alfanumerico(pw.value[i]))
  {
    if pw.None? || pw.value == "" then false
    else
      var s := pw.value;
      UnidadesUtf16(s) >= 8 &&
      (exists i :: 0 <= i < |s| && Maiuscula(s[i])) &&
      (exists i :: 0 <= i < |s| && Minuscula(s[i])) &&
      (exists i :: 0 <= i < |s| && !Alfanumerico(s[i]))
  }

  /** Six characters can pass the length test when some of them lie outside
      the Basic Multilingual Plane: "Aa!" followed by three emoji is nine code
      units long. */
  lemma EmojiContaDuasUnidades()
    ensures |"Aa!\U{1F600}\U{1F600}\U{1F600}"| == 6
    ensures ValidatePassword(Some("Aa!\U{1F600}\U{1F600}\U{1F600}"))
  {
    var s := "Aa!\U{1F600}\U{1F600}\U{1F600}";
    var e := "\U{1F600}";
    assert e[0] >= 0x10000 as char;
    assert UnidadesUtf16(e) == 2 by { assert e[1..] == []; }
    assert UnidadesUtf16(e + e) == 4 by { assert (e + e)[1..] == e; }
    assert UnidadesUtf16(e + e + e) == 6 by { assert (e + e + e)[1..] == e + e; }
    assert s == "A" + ("a" + ("!" + (e + e + e)));
    assert UnidadesUtf16(s) == 9 by {
      assert s[1..] == "a" + ("!" + (e + e + e));
      assert s[2..] == "!" + (e + e + e);
      assert s[3..] == e + e + e;
    }
    assert Maiuscula(s[0]) && Minuscula(s[1]) && !Alfanumerico(s[2]);
  }

  /** A password the front end accepts is never blank, so the back end's
      update always re-encodes it. */
  lemma SenhaValidaNaoEmBranco(pw: string)
    requires ValidatePassword(Some(pw))
    ensures !EmBranco(pw)
  {
    var i :| 0 <= i < |pw| && Maiuscula(pw[i]);
    assert pw[i] > ' ';
  }

  /** The three classes are told apart by three different characters, so an
      accepted password has at least three distinct characters. */
  lemma SenhaValidaTresClasses(pw: string)
    requires ValidatePassword(Some(pw))
    ensures exists i, j, k :: 0 <= i < |pw| && 0 <= j < |pw| && 0 <= k < |pw| &&
                              pw[i] != pw[j] && pw[j] != pw[k] && pw[i] != pw[k]
  {
    var i :| 0 <= i < |pw| && Maiuscula(pw[i]);
    var j :| 0 <= j < |pw| && Minuscula(pw[j]);
    var k :| 0 <= k < |pw| && !Alfanumerico(pw[k]);
    assert pw[i] != pw[j] && pw[j] != pw[k] && pw[i] != pw[k];
  }

  // ---------------------------------------------------------------------------
  // Tab navigation

  const ORDEM: seq<string> := ["cadastro", "sobre", "saude", "nutricao", "avaliacao", "doencas", "resultado", "sabia"]

  /** Array.prototype.indexOf: the first position of `x`, or -1. */
  function IndiceDe(s: seq<string>, x: string): (r: int)
    ensures -1 <= r < |s|
    ensures r == -1 <==> x !in s
    ensures r >= 0 ==> s[r] == x && forall j :: 0 <= j < r ==> s[j] != x
  {
    if s == [] then -1
    else if s[0] == x then 0
    else
      var r := IndiceDe(s[1..], x);
      if r == -1 then -1 else r + 1
  }

  lemma OrdemSemRepeticao()
    ensures SemRepeticao(ORDEM)
  {
  }

  /** The tab of each position is found at that position. */
  lemma IndiceDaOrdem(k: int)
    requires 0 <= k < |ORDEM|
    ensures IndiceDe(ORDEM, ORDEM[k]) == k
  {
    OrdemSemRepeticao();
  }

  /** The position the prev button moves to. */
  function Anterior(i: int): int {
    if i - 1 >= 0 then i - 1 else 0
  }

  /** The position the next button moves to. */
  function Seguinte(i: int): int {
    if i + 1 <= |ORDEM| - 1 then i + 1 else |ORDEM| - 1
  }

  /** `k` presses of the next button. */
  function Avancar(i: int, k: nat): int
    decreases k
  {
    if k == 0 then i else Avancar(Seguinte(i), k - 1)
  }

  /** From any position, the clamped moves land on a valid position. Enough
      presses of next reach the last tab and stay there. */
  lemma {:induction false} AvancarChegaAoFim(i: int, k: nat)
    requires -1 <= i < |ORDEM|
    ensures 0 <= Avancar(i, k) < |ORDEM| || k == 0
    ensures k >= |ORDEM| - 1 - i ==> Avancar(i, k) == |ORDEM| - 1
    decreases k
  {
    if k > 0 {
      AvancarChegaAoFim(Seguinte(i), k - 1);
    }
  }

  class Navegacao {
    var abaAtual: string
    var anteriorDesabilitado: bool
    var proximoDesabilitado: bool

    /** The state after boot(): the first tab, with the buttons updated. */
    constructor ()
      ensures abaAtual == "cadastro" && anteriorDesabilitado && !proximoDesabilitado
    {
      abaAtual := "cadastro";
      anteriorDesabilitado := IndiceDe(ORDEM, "cadastro") <= 0;
      proximoDesabilitado := IndiceDe(ORDEM, "cadastro") >= |ORDEM| - 1;
    }

    /** The index of the current tab. */
    function Posicao(): int
      reads this
    {
      IndiceDe(ORDEM, abaAtual)
    }

    /** updateNavButtons: prev is disabled at (or before) the first tab, next
        at the last one. */
    method UpdateNavButtons()
      modifies this
      ensures abaAtual == old(abaAtual)
      ensures anteriorDesabilitado <==> Posicao() <= 0
      ensures proximoDesabilitado <==> Posicao() >= |ORDEM| - 1
    {
      var i := IndiceDe(ORDEM, abaAtual);
      anteriorDesabilitado := i <= 0;
      proximoDesabilitado := i >= |ORDEM| - 1;
    }

    /** goTo without the rendering. */
    method GoTo(aba: string)
      modifies this
      ensures abaAtual == aba
      ensures anteriorDesabilitado <==> Posicao() <= 0
      ensures proximoDesabilitado <==> Posicao() >= |ORDEM| - 1
    {
      abaAtual := aba;
      UpdateNavButtons();
    }

    /** The prev button: Math.max(0, i - 1), one tab back and clamped at the
        first; a tab outside the order also leads to the first. */
    method Prev()
      modifies this
      ensures abaAtual in ORDEM
      ensures Posicao() == Anterior(old(Posicao()))
      ensures anteriorDesabilitado <==> Posicao() == 0
      ensures proximoDesabilitado <==> Posicao() == |ORDEM| - 1
    {
      var k := Anterior(IndiceDe(ORDEM, abaAtual));
      IndiceDaOrdem(k);
      GoTo(ORDEM[k]);
    }

    /** The next button: Math.min(order.length - 1, i + 1), one tab forward
        and clamped at the last; a tab outside the order leads to the first. */
    method Next()
      modifies this
      ensures abaAtual in ORDEM
      ensures Posicao() == Seguinte(old(Posicao()))
      ensures anteriorDesabilitado <==> Posicao() == 0
      ensures proximoDesabilitado <==> Posicao() == |ORDEM| - 1
    {
      var k := Seguinte(IndiceDe(ORDEM, abaAtual));
      IndiceDaOrdem(k);
      GoTo(ORDEM[k]);
    }
  }

  // ---------------------------------------------------------------------------
  // buildFindingsFromAnswers

  /** One section of `valuesState`: question id to the option chosen. */
  type Secao = map<string, string>

  const MEDICINA_VETERINARIA := "Medicina veterinária"
  const ZOOTECNIA := "Zootecnia"
  const SINAIS_DOENCA := ["d1", "d2", "d3", "d4", "d5", "d6", "d7"]

  /** The lines the report can hold, one constructor per sentence of the
      source; `Texto` gives each its wording. */
  datatype Mensagem =
    // panorama
    | AvesComSinais | ColoracaoGema(escala: string) | InfluenzaNewcastle
    // fortes
    | SemSinais | VacinacaoEmDia | QuarentenaAplicada | SilvestresRestringido
    | RacaoIndustrial | ArmazenamentoAdequado | RacaoSemContaminacao
    | RegistrosMantidos | LuzAdequada | CascaUniforme | ColetaCorreta
    // melhorar
    | SinaisObservados(sinal: string) | SinaisRespiratorios | VacinacaoAtrasada
    | ImplementarQuarentena | ContatoSilvestres | ReverDieta | MelhorarArmazenamento
    | RacaoContaminada | ImplementarRegistros | AjustarFotoperiodo
    | CascaRachada | CascaRugosa | Sujidades
    // comentarios
    | AvaliarVeterinario | InvestigarCausas | AvaliarZootecnista | AvaliarMedico

  function Texto(m: Mensagem): string {
    match m
    case AvesComSinais => "Aves com sinais de doença — monitorar e anotar produção/comportamento/mortalidade."
    case ColoracaoGema(e) => "Preferência de coloração da gema (escala): " + e + "."
    case InfluenzaNewcastle => "Sinais compatíveis com Influenza Aviária/Newcastle — atenção!"
    case SemSinais => "Sem sinais aparentes de doença — continue o monitoramento."
    case VacinacaoEmDia => "Vacinação em dia."
    case QuarentenaAplicada => "Quarentena aplicada para novas aves."
    case SilvestresRestringido => "Acesso de aves silvestres restringido."
    case RacaoIndustrial => "Uso de ração industrial — dieta balanceada."
    case ArmazenamentoAdequado => "Armazenamento adequado de ração."
    case RacaoSemContaminacao => "Ração sem sinais de contaminação."
    case RegistrosMantidos => "Registros zootécnicos mantidos."
    case LuzAdequada => "Manejo de luz adequado (fotoperíodo)."
    case CascaUniforme => "Casca uniforme e sem alterações."
    case ColetaCorreta => "Coleta correta (sem sujidades)."
    case SinaisObservados(x) => "Sinais clínicos: " + x + "."
    case SinaisRespiratorios => "Atenção a sinais respiratórios — alta transmissibilidade."
    case VacinacaoAtrasada => "Vacinação não está em dia."
    case ImplementarQuarentena => "Implementar quarentena para novas aves."
    case ContatoSilvestres => "Contato com aves silvestres — risco sanitário."
    case ReverDieta => "Rever dieta — pode faltar nutrientes."
    case MelhorarArmazenamento => "Melhorar armazenamento (local fechado, seco e protegido)."
    case RacaoContaminada => "Fungos/bolor/insetos na ração — revisar armazenamento."
    case ImplementarRegistros => "Implementar registros (produção, ração, mortalidade)."
    case AjustarFotoperiodo => "Ajustar fotoperíodo (~16h luz)."
    case CascaRachada => "Rachaduras/manchas — revisar coleta, nutrição e manejo."
    case CascaRugosa => "Casca rugosa/relevo — pode indicar deficiência nutricional/estresse térmico/doenças."
    case Sujidades => "Sujidades — aumentar frequência de coleta e higiene de ninhos."
    case AvaliarVeterinario => "Sugerimos avaliação de um médico veterinário."
    case InvestigarCausas => "Investigar causas multifatoriais com apoio técnico."
    case AvaliarZootecnista => "Sugerimos avaliação de um zootecnista."
    case AvaliarMedico => "Sugerimos avaliação de um Médico para colaboradores com sinais clínicos."
  }

  /** The `out` object. */
  datatype Achados = Achados(
    panorama: seq<Mensagem>,
    fortes: seq<Mensagem>,
    melhorar: seq<Mensagem>,
    comentarios: seq<Mensagem>,
    profissao: Option<string>)

  const VAZIO := Achados([], [], [], [], None)

  /** Question q of the section holds exactly the option v. */
  predicate Igual(s: Secao, q: string, v: string) {
    q in s && s[q] == v
  }

  /** Question q is answered: present and not the empty string. */
  predicate Preenchido(s: Secao, q: string) {
    q in s && s[q] != ""
  }

  /** Asks for profession p: a profession already set is kept, so the first one
      asked for wins. */
  function Sugerir(out: Achados, p: string): Achados {
    out.(profissao := if out.profissao.Some? then out.profissao else Some(p))
  }

  function Panorama(out: Achados, m: Mensagem): Achados { out.(panorama := out.panorama + [m]) }
  function Forte(out: Achados, m: Mensagem): Achados { out.(fortes := out.fortes + [m]) }
  function Melhorar(out: Achados, m: Mensagem): Achados { out.(melhorar := out.melhorar + [m]) }
  function Comentar(out: Achados, m: Mensagem): Achados { out.(comentarios := out.comentarios + [m]) }

  /** The profession kept, given the one already set and the later requests. */
  function PrimeiroDe(p: Option<string>, pedidos: seq<string>): (r: Option<string>)
    ensures p.Some? ==> r == p
    ensures p.None? ==> (r.None? <==> pedidos == []) && (r.Some? ==> r.value in pedidos)
  {
    if p.Some? then p else if pedidos == [] then None else Some(pedidos[0])
  }

  // One function per question, in the order of the source. Each states what
  // it does to `profissao` and to `comentarios`, which the report lemmas use.

  function S1(s: Secao, out: Achados): (r: Achados)
    ensures r.profissao == PrimeiroDe(out.profissao, if Igual(s, "s1", "Sim") then [MEDICINA_VETERINARIA] else [])
    ensures r.comentarios == out.comentarios + (if Igual(s, "s1", "Sim") then [AvaliarVeterinario] else [])
  {
    if Igual(s, "s1", "Sim") then
      Sugerir(Comentar(Panorama(out, AvesComSinais), AvaliarVeterinario), MEDICINA_VETERINARIA)
    else if Igual(s, "s1", "Não") then Forte(out, SemSinais)
    else out
  }

  predicate SinaisClinicos(s: Secao) {
    Preenchido(s, "s2") && s["s2"] != "Sem alterações"
  }

  function S2(s: Secao, out: Achados): (r: Achados)
    ensures r.profissao == PrimeiroDe(out.profissao, if SinaisClinicos(s) then [MEDICINA_VETERINARIA] else [])
    ensures r.comentarios == out.comentarios || r.comentarios == out.comentarios + [InvestigarCausas]
  {
    if SinaisClinicos(s) then
      var a := Melhorar(out, SinaisObservados(s["s2"]));
      var b := if s["s2"] == "Espirros" then Melhorar(a, SinaisRespiratorios) else a;
      var c := if s["s2"] in ["Diarreia", "Apatia", "Queda na produção"] then Comentar(b, InvestigarCausas) else b;
      Sugerir(c, MEDICINA_VETERINARIA)
    else out
  }

  function S3(s: Secao, out: Achados): (r: Achados)
    ensures r.profissao == PrimeiroDe(out.profissao, if Igual(s, "s3", "Não") then [MEDICINA_VETERINARIA] else [])
    ensures r.comentarios == out.comentarios
  {
    var a := if Igual(s, "s3", "Sim") then Forte(out, VacinacaoEmDia) else out;
    if Igual(s, "s3", "Não") then Sugerir(Melhorar(a, VacinacaoAtrasada), MEDICINA_VETERINARIA) else a
  }

  function S4(s: Secao, out: Achados): (r: Achados)
    ensures r.profissao == out.profissao && r.comentarios == out.comentarios
  {
    var a := if Igual(s, "s4", "Sim") then Forte(out, QuarentenaAplicada) else out;
    if Igual(s, "s4", "Não") then Melhorar(a, ImplementarQuarentena) else a
  }

  function S5(s: Secao, out: Achados): (r: Achados)
    ensures r.profissao == PrimeiroDe(out.profissao, if Igual(s, "s5", "Sim") then [MEDICINA_VETERINARIA] else [])
    ensures r.comentarios == out.comentarios
  {
    var a := if Igual(s, "s5", "Sim") then Sugerir(Melhorar(out, ContatoSilvestres), MEDICINA_VETERINARIA) else out;
    if Igual(s, "s5", "Não") then Forte(a, SilvestresRestringido) else a
  }

  function Saude(s: Secao, out: Achados): (r: Achados)
    ensures ComentariosDasSecoes(out) ==> ComentariosDasSecoes(r)
  {
    S5(s, S4(s, S3(s, S2(s, S1(s, out)))))
  }

  predicate AlimentacaoCaseira(n: Secao) {
    "n1" in n && n["n1"] in ["Comida caseira", "Sobras de alimentos"]
  }

  function N1(n: Secao, out: Achados): (r: Achados)
    ensures r.profissao == PrimeiroDe(out.profissao, if AlimentacaoCaseira(n) then [ZOOTECNIA] else [])
    ensures r.comentarios == out.comentarios
  {
    var a := if Igual(n, "n1", "Ração industrial") then Forte(out, RacaoIndustrial) else out;
    if AlimentacaoCaseira(n) then Sugerir(Melhorar(a, ReverDieta), ZOOTECNIA) else a
  }

  function N2(n: Secao, out: Achados): (r: Achados)
    ensures r.profissao == out.profissao && r.comentarios == out.comentarios
  {
    var a := if Igual(n, "n2", "Sim") then Forte(out, ArmazenamentoAdequado) else out;
    if Igual(n, "n2", "Não") then Melhorar(a, MelhorarArmazenamento) else a
  }

  function N3(n: Secao, out: Achados): (r: Achados)
    ensures r.profissao == out.profissao && r.comentarios == out.comentarios
  {
    var a := if Igual(n, "n3", "Sim") then Melhorar(out, RacaoContaminada) else out;
    if Igual(n, "n3", "Não") then Forte(a, RacaoSemContaminacao) else a
  }

  function Nutricao(n: Secao, out: Achados): (r: Achados)
    ensures r.comentarios == out.comentarios
  {
    N3(n, N2(n, N1(n, out)))
  }

  function A1(a: Secao, out: Achados): (r: Achados)
    ensures r.profissao == out.profissao && r.comentarios == out.comentarios
  {
    var b := if Igual(a, "a1", "Sim") then Forte(out, RegistrosMantidos) else out;
    if Igual(a, "a1", "Não") then Melhorar(b, ImplementarRegistros) else b
  }

  function A2(a: Secao, out: Achados): (r: Achados)
    ensures r.profissao == PrimeiroDe(out.profissao, if Igual(a, "a2", "Não") then [MEDICINA_VETERINARIA] else [])
    ensures r.comentarios == out.comentarios
  {
    var b := if Igual(a, "a2", "Sim") then Forte(out, LuzAdequada) else out;
    if Igual(a, "a2", "Não") then Sugerir(Melhorar(b, AjustarFotoperiodo), MEDICINA_VETERINARIA) else b
  }

  predicate CascaComDefeito(a: Secao) {
    Igual(a, "a3", "Rachaduras/fissuras/manchas") || Igual(a, "a3", "Rugosa/com relevo")
  }

  function A3(a: Secao, out: Achados): (r: Achados)
    ensures r.profissao == PrimeiroDe(out.profissao, if CascaComDefeito(a) then [MEDICINA_VETERINARIA] else [])
    ensures r.comentarios == out.comentarios
  {
    var b := if Igual(a, "a3", "Sem alteração e uniforme") then Forte(out, CascaUniforme) else out;
    var c := if Igual(a, "a3", "Rachaduras/fissuras/manchas") then
               Sugerir(Melhorar(b, CascaRachada), MEDICINA_VETERINARIA)
             else b;
    if Igual(a, "a3", "Rugosa/com relevo") then Sugerir(Melhorar(c, CascaRugosa), MEDICINA_VETERINARIA) else c
  }

  function A4(a: Secao, out: Achados): (r: Achados)
    ensures r.profissao == out.profissao && r.comentarios == out.comentarios
  {
    var b := if Igual(a, "a4", "Sem alteração") then Forte(out, ColetaCorreta) else out;
    if Igual(a, "a4", "Presença de sujidades/fezes") then Melhorar(b, Sujidades) else b
  }

  function A5(a: Secao, out: Achados): (r: Achados)
    ensures r.profissao == out.profissao && r.comentarios == out.comentarios
  {
    if Preenchido(a, "a5") then Panorama(out, ColoracaoGema(a["a5"])) else out
  }

  function Avaliacao(a: Secao, out: Achados): (r: Achados)
    ensures r.comentarios == out.comentarios
  {
    A5(a, A4(a, A3(a, A2(a, A1(a, out)))))
  }

  /** The number of red flags d1..d7 answered "Sim". */
  function SinaisDeAlerta(d: Secao): nat {
    |Filtrar(SINAIS_DOENCA, k => Igual(d, k, "Sim"))|
  }

  function Doencas(d: Secao, out: Achados): (r: Achados)
    ensures r.profissao == PrimeiroDe(out.profissao, PedidosDoencas(d))
    ensures r.comentarios == out.comentarios + (if SinaisDeAlerta(d) >= 1 then [AvaliarVeterinario] else [])
  {
    if SinaisDeAlerta(d) >= 1 then
      Sugerir(Comentar(Panorama(out, InfluenzaNewcastle), AvaliarVeterinario), MEDICINA_VETERINARIA)
    else out
  }

  /** The closing comments chosen by the profession. */
  function Fechar(out: Achados): (r: Achados)
    ensures r.profissao == out.profissao
  {
    var a := if out.profissao == Some(ZOOTECNIA) then Comentar(out, AvaliarZootecnista) else out;
    if out.profissao == Some("Medicina") then Comentar(a, AvaliarMedico) else a
  }

  /** A tab's answers, or no answers when the tab was never filled in. */
  function SecaoDe(valores: map<string, Secao>, nome: string): Secao {
    if nome in valores then valores[nome] else map[]
  }

  /** The four sections in turn, from an empty `out`. */
  function Apurar(s: Secao, n: Secao, a: Secao, d: Secao): Achados {
    Doencas(d, Avaliacao(a, Nutricao(n, Saude(s, VAZIO))))
  }

  /** What buildFindingsFromAnswers returns. */
  function AchadosDe(valores: map<string, Secao>): Achados {
    Fechar(Apurar(SecaoDe(valores, "saude"), SecaoDe(valores, "nutricao"),
                  SecaoDe(valores, "avaliacao"), SecaoDe(valores, "doencas")))
  }

  method BuildFindingsFromAnswers(valores: map<string, Secao>) returns (out: Achados)
    ensures out == AchadosDe(valores)
  {
    out := VAZIO;
    var s := SecaoDe(valores, "saude");
    out := SaudeNoRelatorio(s, out);
    var n := SecaoDe(valores, "nutricao");
    out := NutricaoNoRelatorio(n, out);
    var a := SecaoDe(valores, "avaliacao");
    out := AvaliacaoNoRelatorio(a, out);
    var d := SecaoDe(valores, "doencas");
    out := DoencasNoRelatorio(d, out);

    if out.profissao == Some(ZOOTECNIA) {
      out := out.(comentarios := out.comentarios + [AvaliarZootecnista]);
    }
    if out.profissao == Some("Medicina") {
      out := out.(comentarios := out.comentarios + [AvaliarMedico]);
    }
  }

  /** The health block of buildFindingsFromAnswers. */
  method SaudeNoRelatorio(s: Secao, antes: Achados) returns (out: Achados)
    ensures out == Saude(s, antes)
  {
    out := antes;
    ghost var o := out;
    if Igual(s, "s1", "Sim") {
      out := out.(panorama := out.panorama + [AvesComSinais]);
      out := out.(comentarios := out.comentarios + [AvaliarVeterinario]);
      out := Sugerir(out, MEDICINA_VETERINARIA);
    } else if Igual(s, "s1", "Não") {
      out := out.(fortes := out.fortes + [SemSinais]);
    }
    assert out == S1(s, o);
    o := out;
    if Preenchido(s, "s2") && s["s2"] != "Sem alterações" {
      out := out.(melhorar := out.melhorar + [SinaisObservados(s["s2"])]);
      if s["s2"] == "Espirros" {
        out := out.(melhorar := out.melhorar + [SinaisRespiratorios]);
      }
      if s["s2"] in ["Diarreia", "Apatia", "Queda na produção"] {
        out := out.(comentarios := out.comentarios + [InvestigarCausas]);
      }
      out := Sugerir(out, MEDICINA_VETERINARIA);
    }
    assert out == S2(s, o);
    o := out;
    if Igual(s, "s3", "Sim") { out := out.(fortes := out.fortes + [VacinacaoEmDia]); }
    if Igual(s, "s3", "Não") {
      out := out.(melhorar := out.melhorar + [VacinacaoAtrasada]);
      out := Sugerir(out, MEDICINA_VETERINARIA);
    }
    assert out == S3(s, o);
    o := out;
    if Igual(s, "s4", "Sim") { out := out.(fortes := out.fortes + [QuarentenaAplicada]); }
    if Igual(s, "s4", "Não") { out := out.(melhorar := out.melhorar + [ImplementarQuarentena]); }
    assert out == S4(s, o);
    o := out;
    if Igual(s, "s5", "Sim") {
      out := out.(melhorar := out.melhorar + [ContatoSilvestres]);
      out := Sugerir(out, MEDICINA_VETERINARIA);
    }
    if Igual(s, "s5", "Não") { out := out.(fortes := out.fortes + [SilvestresRestringido]); }
    assert out == S5(s, o);
  }

  /** The red-flag block of buildFindingsFromAnswers. */
  method DoencasNoRelatorio(d: Secao, antes: Achados) returns (out: Achados)
    ensures out == Doencas(d, antes)
  {
    out := antes;
    var redFlags := |Filtrar(SINAIS_DOENCA, k => Igual(d, k, "Sim"))|;
    if redFlags >= 1 {
      out := out.(panorama := out.panorama + [InfluenzaNewcastle]);
      out := out.(comentarios := out.comentarios + [AvaliarVeterinario]);
      out := Sugerir(out, MEDICINA_VETERINARIA);
    }
  }

  /** The nutrition block of buildFindingsFromAnswers. */
  method NutricaoNoRelatorio(n: Secao, antes: Achados) returns (out: Achados)
    ensures out == Nutricao(n, antes)
  {
    out := antes;
    ghost var o := out;
    if Igual(n, "n1", "Ração industrial") { out := out.(fortes := out.fortes + [RacaoIndustrial]); }
    if "n1" in n && n["n1"] in ["Comida caseira", "Sobras de alimentos"] {
      out := out.(melhorar := out.melhorar + [ReverDieta]);
      out := Sugerir(out, ZOOTECNIA);
    }
    assert out == N1(n, o);
    o := out;
    if Igual(n, "n2", "Sim") { out := out.(fortes := out.fortes + [ArmazenamentoAdequado]); }
    if Igual(n, "n2", "Não") { out := out.(melhorar := out.melhorar + [MelhorarArmazenamento]); }
    assert out == N2(n, o);
    o := out;
    if Igual(n, "n3", "Sim") { out := out.(melhorar := out.melhorar + [RacaoContaminada]); }
    if Igual(n, "n3", "Não") { out := out.(fortes := out.fortes + [RacaoSemContaminacao]); }
    assert out == N3(n, o);
  }

  /** The egg-quality block of buildFindingsFromAnswers. */
  method AvaliacaoNoRelatorio(a: Secao, antes: Achados) returns (out: Achados)
    ensures out == Avaliacao(a, antes)
  {
    out := antes;
    ghost var o := out;
    if Igual(a, "a1", "Sim") { out := out.(fortes := out.fortes + [RegistrosMantidos]); }
    if Igual(a, "a1", "Não") { out := out.(melhorar := out.melhorar + [ImplementarRegistros]); }
    assert out == A1(a, o);
    o := out;
    if Igual(a, "a2", "Sim") { out := out.(fortes := out.fortes + [LuzAdequada]); }
    if Igual(a, "a2", "Não") {
      out := out.(melhorar := out.melhorar + [AjustarFotoperiodo]);
      out := Sugerir(out, MEDICINA_VETERINARIA);
    }
    assert out == A2(a, o);
    o := out;
    if Igual(a, "a3", "Sem alteração e uniforme") { out := out.(fortes := out.fortes + [CascaUniforme]); }
    if Igual(a, "a3", "Rachaduras/fissuras/manchas") {
      out := out.(melhorar := out.melhorar + [CascaRachada]);
      out := Sugerir(out, MEDICINA_VETERINARIA);
    }
    if Igual(a, "a3", "Rugosa/com relevo") {
      out := out.(melhorar := out.melhorar + [CascaRugosa]);
      out := Sugerir(out, MEDICINA_VETERINARIA);
    }
    assert out == A3(a, o);
    o := out;
    if Igual(a, "a4", "Sem alteração") { out := out.(fortes := out.fortes + [ColetaCorreta]); }
    if Igual(a, "a4", "Presença de sujidades/fezes") { out := out.(melhorar := out.melhorar + [Sujidades]); }
    assert out == A4(a, o);
    o := out;
    if Preenchido(a, "a5") { out := out.(panorama := out.panorama + [ColoracaoGema(a["a5"])]); }
    assert out == A5(a, o);
  }

  // ---------------------------------------------------------------------------
  // Properties of the report

  // The professions each section asks for, in the order its questions ask.

  function PedidosSaude(s: Secao): (r: seq<string>)
    ensures forall x :: x in r ==> x == MEDICINA_VETERINARIA
  {
    (if Igual(s, "s1", "Sim") then [MEDICINA_VETERINARIA] else [])
    + (if SinaisClinicos(s) then [MEDICINA_VETERINARIA] else [])
    + (if Igual(s, "s3", "Não") then [MEDICINA_VETERINARIA] else [])
    + (if Igual(s, "s5", "Sim") then [MEDICINA_VETERINARIA] else [])
  }

  function PedidosNutricao(n: Secao): seq<string> {
    if AlimentacaoCaseira(n) then [ZOOTECNIA] else []
  }

  function PedidosAvaliacao(a: Secao): (r: seq<string>)
    ensures forall x :: x in r ==> x == MEDICINA_VETERINARIA
  {
    (if Igual(a, "a2", "Não") then [MEDICINA_VETERINARIA] else [])
    + (if CascaComDefeito(a) then [MEDICINA_VETERINARIA] else [])
  }

  function PedidosDoencas(d: Secao): (r: seq<string>)
    ensures forall x :: x in r ==> x == MEDICINA_VETERINARIA
  {
    if SinaisDeAlerta(d) >= 1 then [MEDICINA_VETERINARIA] else []
  }

  /** The professions asked for over the whole questionnaire: an independent
      account of where `out.profissao` is written. */
  function Pedidos(s: Secao, n: Secao, a: Secao, d: Secao): (r: seq<string>)
    ensures forall x :: x in r ==> x == MEDICINA_VETERINARIA || x == ZOOTECNIA
  {
    PedidosSaude(s) + PedidosNutricao(n) + (PedidosAvaliacao(a) + PedidosDoencas(d))
  }

  lemma PrimeiroDeConcatena(p: Option<string>, a: seq<string>, b: seq<string>)
    ensures PrimeiroDe(PrimeiroDe(p, a), b) == PrimeiroDe(p, a + b)
  {
    if p.None? && a == [] {
      assert a + b == b;
    }
  }

  lemma SaudeProfissao(s: Secao, out: Achados)
    ensures Saude(s, out).profissao == PrimeiroDe(out.profissao, PedidosSaude(s))
  {
    var p1 := if Igual(s, "s1", "Sim") then [MEDICINA_VETERINARIA] else [];
    var p2 := if SinaisClinicos(s) then [MEDICINA_VETERINARIA] else [];
    var p3 := if Igual(s, "s3", "Não") then [MEDICINA_VETERINARIA] else [];
    var p5 := if Igual(s, "s5", "Sim") then [MEDICINA_VETERINARIA] else [];
    PrimeiroDeConcatena(out.profissao, p1, p2);
    PrimeiroDeConcatena(out.profissao, p1 + p2, p3);
    PrimeiroDeConcatena(out.profissao, p1 + p2 + p3, p5);
  }

  lemma AvaliacaoProfissao(a: Secao, out: Achados)
    ensures Avaliacao(a, out).profissao == PrimeiroDe(out.profissao, PedidosAvaliacao(a))
  {
    var p2 := if Igual(a, "a2", "Não") then [MEDICINA_VETERINARIA] else [];
    var p3 := if CascaComDefeito(a) then [MEDICINA_VETERINARIA] else [];
    PrimeiroDeConcatena(out.profissao, p2, p3);
  }

  /** `profissao` is first-write-wins: it is the first profession any question
      asked for, and None when none did. */
  lemma ProfissaoPrimeiroPedido(s: Secao, n: Secao, a: Secao, d: Secao)
    ensures Apurar(s, n, a, d).profissao == PrimeiroDe(None, Pedidos(s, n, a, d))
  {
    var o1 := Saude(s, VAZIO);
    var o2 := Nutricao(n, o1);
    SaudeProfissao(s, VAZIO);
    AvaliacaoProfissao(a, o2);
    var ps, pn, pa, pd := PedidosSaude(s), PedidosNutricao(n), PedidosAvaliacao(a), PedidosDoencas(d);
    PrimeiroDeConcatena(None, ps, pn);
    PrimeiroDeConcatena(PrimeiroDe(None, ps + pn), pa, pd);
    PrimeiroDeConcatena(None, ps + pn, pa + pd);
  }

  /** `profissao` is only ever null, "Medicina veterinária" or "Zootecnia". */
  lemma ProfissaoValores(s: Secao, n: Secao, a: Secao, d: Secao)
    ensures Apurar(s, n, a, d).profissao in {None, Some(MEDICINA_VETERINARIA), Some(ZOOTECNIA)}
  {
    ProfissaoPrimeiroPedido(s, n, a, d);
  }

  lemma PrimeiroZootecnia(antes: seq<string>, p: seq<string>, depois: seq<string>)
    requires forall x :: x in antes ==> x == MEDICINA_VETERINARIA
    requires forall x :: x in depois ==> x == MEDICINA_VETERINARIA
    ensures PrimeiroDe(None, antes + p + depois) == Some(ZOOTECNIA) <==> antes == [] && p != [] && p[0] == ZOOTECNIA
  {
    var t := antes + p + depois;
    assert |MEDICINA_VETERINARIA| != |ZOOTECNIA|;
    if antes != [] {
      assert t[0] == antes[0] && antes[0] in antes;
    } else if p != [] {
      assert t[0] == p[0];
    } else if depois != [] {
      assert t == depois && depois[0] in depois;
    }
  }

  /** Zootecnia is chosen exactly when the diet is home-made and no health
      answer asked for a vet first. */
  lemma ZootecniaQuando(s: Secao, n: Secao, a: Secao, d: Secao)
    ensures Apurar(s, n, a, d).profissao == Some(ZOOTECNIA) <==> AlimentacaoCaseira(n) && PedidosSaude(s) == []
  {
    ProfissaoPrimeiroPedido(s, n, a, d);
    ZootecniaPedida(s, n, a, d);
  }

  lemma ZootecniaPedida(s: Secao, n: Secao, a: Secao, d: Secao)
    ensures PrimeiroDe(None, Pedidos(s, n, a, d)) == Some(ZOOTECNIA) <==> AlimentacaoCaseira(n) && PedidosSaude(s) == []
  {
    var ps, pn, resto := PedidosSaude(s), PedidosNutricao(n), PedidosAvaliacao(a) + PedidosDoencas(d);
    assert Pedidos(s, n, a, d) == ps + pn + resto;
    assert pn != [] && pn[0] == ZOOTECNIA <==> AlimentacaoCaseira(n);
    PrimeiroZootecnia(ps, pn, resto);
  }

  /** The comments the four sections can write. */
  predicate ComentariosDasSecoes(out: Achados) {
    forall c :: c in out.comentarios ==> c == AvaliarVeterinario || c == InvestigarCausas
  }

  lemma ApurarComentarios(s: Secao, n: Secao, a: Secao, d: Secao)
    ensures ComentariosDasSecoes(Apurar(s, n, a, d))
  {
    assert ComentariosDasSecoes(VAZIO);
  }

  /** The zootecnista comment is written exactly when the profession is
      Zootecnia; the comment for "Medicina" is never written, since no
      question asks for that profession. */
  lemma ComentariosFinais(valores: map<string, Secao>)
    ensures AvaliarZootecnista in AchadosDe(valores).comentarios <==> AchadosDe(valores).profissao == Some(ZOOTECNIA)
    ensures AvaliarMedico !in AchadosDe(valores).comentarios
  {
    var s, n, a, d := SecaoDe(valores, "saude"), SecaoDe(valores, "nutricao"),
                      SecaoDe(valores, "avaliacao"), SecaoDe(valores, "doencas");
    ProfissaoValores(s, n, a, d);
    ApurarComentarios(s, n, a, d);
    FecharComentarios(Apurar(s, n, a, d));
  }

  lemma FecharComentarios(o: Achados)
    requires ComentariosDasSecoes(o)
    requires o.profissao in {None, Some(MEDICINA_VETERINARIA), Some(ZOOTECNIA)}
    ensures AvaliarZootecnista in Fechar(o).comentarios <==> o.profissao == Some(ZOOTECNIA)
    ensures AvaliarMedico !in Fechar(o).comentarios
  {
    assert o.profissao != Some("Medicina");
    assert Fechar(o).comentarios == o.comentarios + (if o.profissao == Some(ZOOTECNIA) then [AvaliarZootecnista] else []);
  }

  /** The red flags are looked at together: one or more "Sim" among d1..d7
      adds exactly one panorama line and one comment, however many there
      are, and none adds nothing. */
  lemma SinaisDeAlertaUmaVez(d: Secao, out: Achados)
    ensures (exists k :: k in SINAIS_DOENCA && Igual(d, k, "Sim")) ==>
              Doencas(d, out).panorama == out.panorama + [InfluenzaNewcastle] &&
              Doencas(d, out).comentarios == out.comentarios + [AvaliarVeterinario]
    ensures (forall k :: k in SINAIS_DOENCA ==> !Igual(d, k, "Sim")) ==> Doencas(d, out) == out
    ensures Doencas(d, out).fortes == out.fortes && Doencas(d, out).melhorar == out.melhorar
  {
    var sinais := Filtrar(SINAIS_DOENCA, k => Igual(d, k, "Sim"));
    if exists k :: k in SINAIS_DOENCA && Igual(d, k, "Sim") {
      var k :| k in SINAIS_DOENCA && Igual(d, k, "Sim");
      assert k in sinais;
    }
  }

  /** Answers other than the options a question names add nothing;
      "Sem alterações" for s2 adds nothing either. */
  lemma OpcoesExatas(s: Secao, n: Secao, a: Secao, out: Achados)
    requires !Igual(s, "s1", "Sim") && !Igual(s, "s1", "Não")
    requires !Preenchido(s, "s2") || s["s2"] == "Sem alterações"
    requires !Igual(s, "s3", "Sim") && !Igual(s, "s3", "Não")
    requires !Igual(s, "s4", "Sim") && !Igual(s, "s4", "Não")
    requires !Igual(s, "s5", "Sim") && !Igual(s, "s5", "Não")
    requires "n1" in n ==> n["n1"] !in ["Ração industrial", "Comida caseira", "Sobras de alimentos"]
    requires !Igual(n, "n2", "Sim") && !Igual(n, "n2", "Não")
    requires !Igual(n, "n3", "Sim") && !Igual(n, "n3", "Não")
    requires "a1" in a ==> a["a1"] !in ["Sim", "Não"]
    requires "a2" in a ==> a["a2"] !in ["Sim", "Não"]
    requires "a3" in a ==> a["a3"] !in ["Sem alteração e uniforme", "Rachaduras/fissuras/manchas", "Rugosa/com relevo"]
    requires "a4" in a ==> a["a4"] !in ["Sem alteração", "Presença de sujidades/fezes"]
    requires !Preenchido(a, "a5")
    ensures Saude(s, out) == out && Nutricao(n, out) == out && Avaliacao(a, out) == out
  {
  }

  // ---------------------------------------------------------------------------
  // filterProfessionalsSuggestion

  /** A professional as saveProfessional stores it in localStorage. */
  datatype Profissional = Profissional(
    nome: Option<string>,
    email: Option<string>,
    uf: Option<string>,
    cidade: Option<string>,
    formacao: Option<string>,
    bio: Option<string>,
    id: int)

  predicate Verdadeiro(v: Option<string>) {
    v.Some? && v.value != ""
  }

  /** The producer's UF: the one typed in the registration tab, else the one
      kept in local storage, else none; an empty string counts as missing. */
  function UfDoProdutor(cadastro: Option<string>, armazenada: Option<string>): (r: Option<string>)
    ensures r.None? || Verdadeiro(r)
    ensures r.None? <==> !Verdadeiro(cadastro) && !Verdadeiro(armazenada)
    ensures Verdadeiro(cadastro) ==> r == cadastro
    ensures r.Some? ==> r == cadastro || r == armazenada
  {
    if Verdadeiro(cadastro) then cadastro else if Verdadeiro(armazenada) then armazenada else None
  }

  predicate MesmaUf(p: Profissional, uf: Option<string>) {
    uf.None? || p.uf == uf
  }

  predicate DaFormacao(p: Profissional, formacao: Option<string>) {
    !Verdadeiro(formacao) || Contem(Lower(p.formacao.GetOr("")), Lower(formacao.value))
  }

  predicate Sugerivel(p: Profissional, uf: Option<string>, formacao: Option<string>) {
    MesmaUf(p, uf) && DaFormacao(p, formacao)
  }

  /** The two filters applied one after the other keep what one combined
      filter `h` keeps, in the same order. */
  lemma {:induction false} FiltrarDuasVezes<T(!new)>(xs: seq<T>, f: T -> bool, g: T -> bool, h: T -> bool)
    requires forall x :: h(x) == (f(x) && g(x))
    ensures Filtrar(Filtrar(xs, f), g) == Filtrar(xs, h)
  {
    if xs != [] {
      FiltrarDuasVezes(xs[1..], f, g, h);
      FiltrarConcatena((if f(xs[0]) then [xs[0]] else []), Filtrar(xs[1..], f), g);
    }
  }

  /** filterProfessionalsSuggestion: the stored professionals, narrowed to the
      producer's UF when one is known and to the formação when one is given,
      cut to five. */
  function FilterProfessionalsSuggestion(lista: seq<Profissional>, uf: Option<string>, formacao: Option<string>)
    : (r: seq<Profissional>)
    requires uf.None? || Verdadeiro(uf)
    ensures |r| <= 5
    ensures r <= Filtrar(lista, (p: Profissional) => Sugerivel(p, uf, formacao))
    ensures |Filtrar(lista, (p: Profissional) => Sugerivel(p, uf, formacao))| <= 5 ==> r == Filtrar(lista, (p: Profissional) => Sugerivel(p, uf, formacao))
    ensures forall p :: p in r ==> p in lista && MesmaUf(p, uf) && DaFormacao(p, formacao)
    ensures var n := |Filtrar(lista, (p: Profissional) => Sugerivel(p, uf, formacao))|;
            |r| == if n < 5 then n else 5
  {
    var daUf := (p: Profissional) => MesmaUf(p, uf);
    var daFormacao := (p: Profissional) => DaFormacao(p, formacao);
    var sugerivel := (p: Profissional) => Sugerivel(p, uf, formacao);
    var porUf := if uf.Some? then Filtrar(lista, daUf) else lista;
    var porFormacao := if Verdadeiro(formacao) then Filtrar(porUf, daFormacao) else porUf;
    assert porFormacao == Filtrar(lista, sugerivel) by {
      if uf.Some? && Verdadeiro(formacao) {
        FiltrarDuasVezes(lista, daUf, daFormacao, sugerivel);
      } else if uf.Some? {
        FiltrarIgual(lista, daUf, sugerivel);
      } else if Verdadeiro(formacao) {
        FiltrarIgual(lista, daFormacao, sugerivel);
      } else {
        FiltrarTodos(lista, sugerivel);
      }
    }
    var r := Limitar(porFormacao, 5);
    assert forall i :: 0 <= i < |r| ==> r[i] == porFormacao[i];
    assert forall p :: p in r ==> p in porFormacao;
    r
  }

  /** Filters that agree on every element keep the same elements. */
  lemma {:induction false} FiltrarIgual<T(!new)>(xs: seq<T>, f: T -> bool, g: T -> bool)
    requires forall x :: x in xs ==> f(x) == g(x)
    ensures Filtrar(xs, f) == Filtrar(xs, g)
  {
    if xs != [] {
      FiltrarIgual(xs[1..], f, g);
    }
  }
}
