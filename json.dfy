/** The answers of a questionnaire as the backend receives them: a JSON object
    decoded into Map<String, Object>, whose values are strings, numbers,
    booleans, lists, nested objects or null. */
module Json {
  import opened Common

  datatype Json =
    | Nulo
    | Texto(s: string)
    | Numero(n: int)
    | Logico(b: bool)
    | Lista(itens: seq<Json>)
    | Objeto(campos: map<string, Json>)

  type Respostas = map<string, Json>

  /** Map.get(k) == null: the key is missing or holds JSON null. */
  predicate Ausente(m: map<string, Json>, k: string) {
    k !in m || m[k].Nulo?
  }

  /** (String) m.get(k) succeeds: the value is null or a string. */
  predicate LegivelComoTexto(m: map<string, Json>, k: string) {
    Ausente(m, k) || m[k].Texto?
  }

  /** (List) m.get(k) succeeds. */
  predicate LegivelComoLista(m: map<string, Json>, k: string) {
    Ausente(m, k) || m[k].Lista?
  }

  /** (Map) m.get(k) succeeds. */
  predicate LegivelComoObjeto(m: map<string, Json>, k: string) {
    Ausente(m, k) || m[k].Objeto?
  }

  /** The string read by (String) m.get(k), None standing for null. */
  function TextoDe(m: map<string, Json>, k: string): (r: Option<string>)
    ensures r.Some? <==> k in m && m[k].Texto?
    ensures r.Some? ==> m[k] == Texto(r.value)
  {
    if k in m && m[k].Texto? then Some(m[k].s) else None
  }

  /** The list read by (List) m.get(k), None standing for null. */
  function ListaDe(m: map<string, Json>, k: string): (r: Option<seq<Json>>)
    ensures r.Some? <==> k in m && m[k].Lista?
    ensures r.Some? ==> m[k] == Lista(r.value)
  {
    if k in m && m[k].Lista? then Some(m[k].itens) else None
  }

  /** The object read by (Map) m.get(k), None standing for null. */
  function ObjetoDe(m: map<string, Json>, k: string): (r: Option<map<string, Json>>)
    ensures r.Some? <==> k in m && m[k].Objeto?
    ensures r.Some? ==> m[k] == Objeto(r.value)
  {
    if k in m && m[k].Objeto? then Some(m[k].campos) else None
  }

  /** A non-null value whose text, trimmed, is not empty: numbers, booleans,
      lists and objects print as non-blank text ("12", "true", "[...]",
      "{...}"), so only null and blank strings fail. */
  predicate Preenchido(v: Json) {
    !v.Nulo? && !(v.Texto? && EmBranco(v.s))
  }
}
