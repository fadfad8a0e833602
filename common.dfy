/** Shared vocabulary: optional values, results with the service's error kinds,
    and the string operations the Java and JavaScript code rely on
    (toLowerCase, equalsIgnoreCase, contains, trim().isEmpty(), String.join,
    Integer.toString). */
module Common {

  datatype Option<+T> = None | Some(value: T) {
    function GetOr(default: T): T {
      match this
      case Some(v) => v
      case None => default
    }
  }

  /** The exceptions the services throw, by kind. */
  datatype Erro =
    | NaoEncontrado          // "... não encontrado"
    | FormularioIncompleto   // "Formulário incompleto. Não é possível submeter."
    | EstadoInvalido         // "Apenas formulários submetidos podem ser analisados"
    | EmailJaCadastrado      // "Email já cadastrado: ..."
    | ArgumentoInvalido      // IllegalArgumentException (enum lookup, negative stream limit)
    | ConversaoInvalida      // ClassCastException on an answer of the wrong JSON type
    | PonteiroNulo           // NullPointerException

  datatype Result<+T> = Ok(value: T) | Err(erro: Erro)

  // ---------------------------------------------------------------------------
  // Characters and case

  /** Lower-case mapping of Character.toLowerCase / String.prototype.toLowerCase
      on ASCII and Latin-1: 'A'..'Z' and 'À'..'Þ' (except '×') move up by 32. */
  function LowerChar(c: char): char {
    if 'A' <= c <= 'Z' || ('À' <= c <= 'Þ' && c != '×') then (c as int + 32) as char else c
  }

  function Lower(s: string): (r: string)
    ensures |r| == |s|
    ensures forall i :: 0 <= i < |s| ==> r[i] == LowerChar(s[i])
  {
    if s == [] then [] else [LowerChar(s[0])] + Lower(s[1..])
  }

  /** Upper-case mapping of String.toUpperCase on the same range: 'a'..'z' and
      'à'..'þ' (except '÷') move down by 32. */
  function UpperChar(c: char): (r: char)
    ensures !('a' <= r <= 'z')
  {
    if 'a' <= c <= 'z' || ('à' <= c <= 'þ' && c != '÷') then (c as int - 32) as char else c
  }

  function Upper(s: string): (r: string)
    ensures |r| == |s|
    ensures forall i :: 0 <= i < |s| ==> r[i] == UpperChar(s[i])
  {
    if s == [] then [] else [UpperChar(s[0])] + Upper(s[1..])
  }

  predicate EqualsIgnoreCase(a: string, b: string) {
    Lower(a) == Lower(b)
  }

  // ---------------------------------------------------------------------------
  // Substrings

  /** `t` occurs in `s` starting at index `i`. */
  predicate OcorreEm(s: string, t: string, i: int) {
    0 <= i && i + |t| <= |s| && s[i..i + |t|] == t
  }

  /** String.contains / String.prototype.includes. */
  predicate Contem(s: string, t: string) {
    exists i | 0 <= i <= |s| - |t| :: OcorreEm(s, t, i)
  }

  /** Contem(s.toLowerCase(), t.toLowerCase()), the case-insensitive test the
      services write out by hand. */
  predicate ContemIgnorandoCaso(s: string, t: string) {
    Contem(Lower(s), Lower(t))
  }

  lemma ContemVazio(s: string)
    ensures Contem(s, "")
  {
    assert OcorreEm(s, "", 0);
  }

  lemma ContemSiMesmo(s: string)
    ensures Contem(s, s)
  {
    assert s[0..|s|] == s;
    assert OcorreEm(s, s, 0);
  }

  /** An occurrence survives putting text on either side. */
  lemma ContemCercado(a: string, t: string, b: string, x: string)
    requires Contem(t, x)
    ensures Contem(a + t + b, x)
  {
    var i :| 0 <= i <= |t| - |x| && OcorreEm(t, x, i);
    assert (a + t + b)[|a| + i..|a| + i + |x|] == t[i..i + |x|];
    assert OcorreEm(a + t + b, x, |a| + i);
  }

  // ---------------------------------------------------------------------------
  // trim().isEmpty() and String.join

  /** Java's trim() strips every character <= ' ' at both ends, so the trimmed
      string is empty exactly when every character is <= ' '. */
  predicate EmBranco(s: string) {
    forall i :: 0 <= i < |s| ==> s[i] <= ' '
  }

  function Juntar(partes: seq<string>, sep: string): string {
    if |partes| == 0 then ""
    else if |partes| == 1 then partes[0]
    else partes[0] + sep + Juntar(partes[1..], sep)
  }

  /** Every part occurs in the joined text. */
  lemma {:induction false} JuntarContem(partes: seq<string>, sep: string, i: int)
    requires 0 <= i < |partes|
    ensures Contem(Juntar(partes, sep), partes[i])
    decreases |partes|
  {
    if |partes| == 1 {
      ContemSiMesmo(partes[0]);
    } else if i == 0 {
      ContemSiMesmo(partes[0]);
      ContemCercado("", partes[0], sep + Juntar(partes[1..], sep), partes[0]);
      assert "" + partes[0] + (sep + Juntar(partes[1..], sep)) == Juntar(partes, sep);
    } else {
      JuntarContem(partes[1..], sep, i - 1);
      ContemCercado(partes[0] + sep, Juntar(partes[1..], sep), "", partes[i]);
      assert partes[0] + sep + Juntar(partes[1..], sep) + "" == Juntar(partes, sep);
    }
  }

  // ---------------------------------------------------------------------------
  // Integer.toString

  function Digito(d: nat): char
    requires d < 10
  {
    ('0' as int + d) as char
  }

  function NatParaTexto(n: nat): (r: string)
    ensures |r| >= 1
    ensures forall i :: 0 <= i < |r| ==> '0' <= r[i] <= '9'
    decreases n
  {
    if n < 10 then [Digito(n)] else NatParaTexto(n / 10) + [Digito(n % 10)]
  }

  function IntParaTexto(n: int): string {
    if n < 0 then "-" + NatParaTexto(-n) else NatParaTexto(n)
  }

  /** Distinct naturals print differently: the decimal rendering is injective. */
  lemma {:induction false} NatParaTextoInjetivo(a: nat, b: nat)
    requires NatParaTexto(a) == NatParaTexto(b)
    ensures a == b
    decreases a
  {
    var ra, rb := NatParaTexto(a), NatParaTexto(b);
    if a < 10 && b < 10 {
      assert ra[0] == Digito(a) && rb[0] == Digito(b);
    } else if a < 10 || b < 10 {
      assert false;
    } else {
      assert ra[|ra| - 1] == Digito(a % 10);
      assert rb[|rb| - 1] == Digito(b % 10);
      assert NatParaTexto(a / 10) == ra[..|ra| - 1];
      assert NatParaTexto(b / 10) == rb[..|rb| - 1];
      NatParaTextoInjetivo(a / 10, b / 10);
    }
  }

  // ---------------------------------------------------------------------------
  // Sequences

  /** Stream.limit(n) for n >= 0. */
  function Limitar<T>(s: seq<T>, n: nat): (r: seq<T>)
    ensures |r| == if n < |s| then n else |s|
    ensures r <= s
  {
    if n < |s| then s[..n] else s
  }

  predicate SemRepeticao<T(==)>(s: seq<T>) {
    forall i, j :: 0 <= i < j < |s| ==> s[i] != s[j]
  }
}
