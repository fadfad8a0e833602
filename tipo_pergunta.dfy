/** The question kinds the frontend renders and their textual values. */
module TipoPerguntaModelo {
  import opened Common

  datatype TipoPergunta = YESNO | SELECT | TEXT | NUMBER | TEXTAREA | YOLK

  /** getValor. */
  function Valor(t: TipoPergunta): string {
    match t
    case YESNO => "yesno"
    case SELECT => "select"
    case TEXT => "text"
    case NUMBER => "number"
    case TEXTAREA => "textarea"
    case YOLK => "yolk"
  }

  /** values(), in declaration order. */
  function Valores(): seq<TipoPergunta> {
    [YESNO, SELECT, TEXT, NUMBER, TEXTAREA, YOLK]
  }

  /** The lookup loop of fromString over a table: the first entry whose value
      equals `v`, or IllegalArgumentException when none does. */
  function Procurar(tabela: seq<TipoPergunta>, v: string): (r: Result<TipoPergunta>)
    ensures r.Ok? ==> r.value in tabela && Valor(r.value) == v
    ensures r.Err? <==> forall t :: t in tabela ==> Valor(t) != v
    ensures r.Err? ==> r.erro == ArgumentoInvalido
  {
    if tabela == [] then Err(ArgumentoInvalido)
    else if Valor(tabela[0]) == v then Ok(tabela[0])
    else Procurar(tabela[1..], v)
  }

  /** fromString. */
  function FromString(v: string): (r: Result<TipoPergunta>)
    ensures r.Ok? <==> v in {"yesno", "select", "text", "number", "textarea", "yolk"}
    ensures r.Ok? ==> Valor(r.value) == v
  {
    Procurar(Valores(), v)
  }

  /** The six values are pairwise distinct. */
  lemma ValoresDistintos(a: TipoPergunta, b: TipoPergunta)
    ensures Valor(a) == Valor(b) ==> a == b
  {
    if a != b {
      assert |Valor(a)| != |Valor(b)| || Valor(a)[0] != Valor(b)[0];
    }
  }

  /** fromString(getValor(t)) == t. */
  lemma IdaEVolta(t: TipoPergunta)
    ensures FromString(Valor(t)) == Ok(t)
  {
    var r := FromString(Valor(t));
    assert t in Valores();
    ValoresDistintos(r.value, t);
  }

  /** Matching is exact: "yesno" parses, "YESNO" is rejected. */
  lemma SensivelACaixa()
    ensures FromString("yesno") == Ok(YESNO)
    ensures FromString("YESNO") == Err(ArgumentoInvalido)
  {
    IdaEVolta(YESNO);
  }
}
