/** The three states of a questionnaire and their textual values. */
module Status {
  import opened Common

  datatype StatusFormulario = RASCUNHO | SUBMETIDO | ANALISADO

  /** getValor. */
  function Valor(s: StatusFormulario): string {
    match s
    case RASCUNHO => "rascunho"
    case SUBMETIDO => "submetido"
    case ANALISADO => "analisado"
  }

  /** values(), in declaration order. */
  function Valores(): seq<StatusFormulario> {
    [RASCUNHO, SUBMETIDO, ANALISADO]
  }

  /** The lookup loop of fromString over a table: the first entry whose value
      equals `v`, or IllegalArgumentException when none does. */
  function Procurar(tabela: seq<StatusFormulario>, v: string): (r: Result<StatusFormulario>)
    ensures r.Ok? ==> r.value in tabela && Valor(r.value) == v
    ensures r.Err? <==> forall t :: t in tabela ==> Valor(t) != v
    ensures r.Err? ==> r.erro == ArgumentoInvalido
  {
    if tabela == [] then Err(ArgumentoInvalido)
    else if Valor(tabela[0]) == v then Ok(tabela[0])
    else Procurar(tabela[1..], v)
  }

  /** fromString. */
  function FromString(v: string): (r: Result<StatusFormulario>)
    ensures r.Ok? <==> v in {"rascunho", "submetido", "analisado"}
    ensures r.Ok? ==> Valor(r.value) == v
  {
    Procurar(Valores(), v)
  }

  /** The three values are pairwise distinct, so each value names one status. */
  lemma ValoresDistintos(a: StatusFormulario, b: StatusFormulario)
    ensures Valor(a) == Valor(b) ==> a == b
  {
    if a != b {
      assert Valor(a)[0] != Valor(b)[0];
    }
  }

  /** fromString(getValor(s)) == s. */
  lemma IdaEVolta(s: StatusFormulario)
    ensures FromString(Valor(s)) == Ok(s)
  {
    var r := FromString(Valor(s));
    assert s in Valores();
    ValoresDistintos(r.value, s);
  }

  /** Matching is exact and case-sensitive: the upper-cased value that the
      controller passes in is never accepted. */
  lemma MaiusculasRejeitadas(v: string)
    ensures FromString(Upper(v)).Err?
  {
    var u := Upper(v);
    if |u| > 0 {
      assert !('a' <= u[0] <= 'z');
    }
  }
}
