/** The stable sorts the services rely on (List.sort and Stream.sorted are
    stable merge sorts in Java). Every comparator in the services compares a
    key made of an integer and, for the recommendation ranking, a real tie
    breaker: newest-first order uses the key -date, the ranking uses
    (-compatibility, distance). */
module Ordenacao {
  import opened Common

  /** A sort key compared lexicographically. */
  datatype Chave = Chave(p: int, s: real)

  predicate Menor(a: Chave, b: Chave) {
    a.p < b.p || (a.p == b.p && a.s < b.s)
  }

  /** Non-decreasing by key. */
  predicate Ordenada<T>(xs: seq<T>, k: T -> Chave) {
    forall i, j :: 0 <= i < j < |xs| ==> !Menor(k(xs[j]), k(xs[i]))
  }

  /** Stream.filter. */
  function Filtrar<T(!new)>(xs: seq<T>, f: T -> bool): (r: seq<T>)
    ensures |r| <= |xs|
    ensures forall x :: x in r <==> x in xs && f(x)
  {
    if xs == [] then [] else (if f(xs[0]) then [xs[0]] else []) + Filtrar(xs[1..], f)
  }

  /** The elements of `xs` whose key is `c`, in their order in `xs`. */
  function ComChave<T>(xs: seq<T>, k: T -> Chave, c: Chave): seq<T> {
    if xs == [] then [] else (if k(xs[0]) == c then [xs[0]] else []) + ComChave(xs[1..], k, c)
  }

  /** Places `x` in front of the first element whose key is not smaller than its own. */
  function Inserir<T>(x: T, xs: seq<T>, k: T -> Chave): seq<T> {
    if xs == [] || !Menor(k(xs[0]), k(x)) then [x] + xs else [xs[0]] + Inserir(x, xs[1..], k)
  }

  function Ordenar<T>(xs: seq<T>, k: T -> Chave): seq<T> {
    if xs == [] then [] else Inserir(xs[0], Ordenar(xs[1..], k), k)
  }

  lemma {:induction false} InserirPermuta<T>(x: T, xs: seq<T>, k: T -> Chave)
    ensures multiset(Inserir(x, xs, k)) == multiset([x] + xs)
  {
    if xs != [] && Menor(k(xs[0]), k(x)) {
      InserirPermuta(x, xs[1..], k);
      assert xs == [xs[0]] + xs[1..];
    }
  }

  lemma {:induction false} InserirOrdena<T>(x: T, xs: seq<T>, k: T -> Chave)
    requires Ordenada(xs, k)
    ensures Ordenada(Inserir(x, xs, k), k)
  {
    if xs != [] && Menor(k(xs[0]), k(x)) {
      InserirOrdena(x, xs[1..], k);
      InserirPermuta(x, xs[1..], k);
      var t := Inserir(x, xs[1..], k);
      forall y | y in t ensures !Menor(k(y), k(xs[0])) {
        assert y in multiset(t);
        assert y in multiset([x] + xs[1..]);
      }
      var r := [xs[0]] + t;
      forall i, j | 0 <= i < j < |r| ensures !Menor(k(r[j]), k(r[i])) {
        if i == 0 { assert r[j] in t; }
      }
    }
  }

  lemma {:induction false} InserirEstavel<T>(x: T, xs: seq<T>, k: T -> Chave, c: Chave)
    ensures ComChave(Inserir(x, xs, k), k, c)
         == (if k(x) == c then [x] else []) + ComChave(xs, k, c)
  {
    if xs == [] || !Menor(k(xs[0]), k(x)) {
      assert ([x] + xs)[1..] == xs;
    } else {
      InserirEstavel(x, xs[1..], k, c);
      assert ([xs[0]] + Inserir(x, xs[1..], k))[1..] == Inserir(x, xs[1..], k);
    }
  }

  /** The result is sorted by key. */
  lemma {:induction false} OrdenarOrdena<T>(xs: seq<T>, k: T -> Chave)
    ensures Ordenada(Ordenar(xs, k), k)
  {
    if xs != [] {
      OrdenarOrdena(xs[1..], k);
      InserirOrdena(xs[0], Ordenar(xs[1..], k), k);
    }
  }

  /** The result is a permutation of the input. */
  lemma {:induction false} OrdenarPermuta<T>(xs: seq<T>, k: T -> Chave)
    ensures multiset(Ordenar(xs, k)) == multiset(xs)
  {
    if xs != [] {
      OrdenarPermuta(xs[1..], k);
      InserirPermuta(xs[0], Ordenar(xs[1..], k), k);
      assert xs == [xs[0]] + xs[1..];
    }
  }

  /** Stability: elements with equal keys keep their relative order. */
  lemma {:induction false} OrdenarEstavel<T>(xs: seq<T>, k: T -> Chave, c: Chave)
    ensures ComChave(Ordenar(xs, k), k, c) == ComChave(xs, k, c)
  {
    if xs != [] {
      OrdenarEstavel(xs[1..], k, c);
      InserirEstavel(xs[0], Ordenar(xs[1..], k), k, c);
    }
  }

  lemma OrdenarTamanho<T>(xs: seq<T>, k: T -> Chave)
    ensures |Ordenar(xs, k)| == |xs|
  {
    OrdenarPermuta(xs, k);
    assert |multiset(Ordenar(xs, k))| == |multiset(xs)|;
  }

  lemma {:induction false} OrdenarMembros<T>(xs: seq<T>, k: T -> Chave)
    ensures forall x :: x in Ordenar(xs, k) <==> x in xs
  {
    OrdenarPermuta(xs, k);
    forall x ensures x in Ordenar(xs, k) <==> x in xs {
      assert x in Ordenar(xs, k) <==> x in multiset(Ordenar(xs, k));
      assert x in xs <==> x in multiset(xs);
    }
  }

  // ---------------------------------------------------------------------------
  // Filtering and first match

  /** A filter every element passes leaves the sequence as it was. */
  lemma {:induction false} FiltrarTodos<T(!new)>(xs: seq<T>, f: T -> bool)
    requires forall x :: x in xs ==> f(x)
    ensures Filtrar(xs, f) == xs
  {
    if xs != [] {
      FiltrarTodos(xs[1..], f);
    }
  }

  lemma {:induction false} FiltrarConcatena<T(!new)>(a: seq<T>, b: seq<T>, f: T -> bool)
    ensures Filtrar(a + b, f) == Filtrar(a, f) + Filtrar(b, f)
  {
    if a == [] {
      assert a + b == b;
    } else {
      var h := if f(a[0]) then [a[0]] else [];
      assert (a + b)[0] == a[0];
      assert (a + b)[1..] == a[1..] + b;
      calc {
        Filtrar(a + b, f);
        h + Filtrar(a[1..] + b, f);
        { FiltrarConcatena(a[1..], b, f); }
        h + (Filtrar(a[1..], f) + Filtrar(b, f));
        (h + Filtrar(a[1..], f)) + Filtrar(b, f);
        Filtrar(a, f) + Filtrar(b, f);
      }
    }
  }

  lemma FiltrarPrefixo<T(!new)>(s: seq<T>, j: nat, f: T -> bool)
    requires j < |s|
    ensures Filtrar(s[..j + 1], f) == Filtrar(s[..j], f) + (if f(s[j]) then [s[j]] else [])
  {
    FiltrarConcatena(s[..j], [s[j]], f);
    assert s[..j + 1] == s[..j] + [s[j]];
  }

  /** Stream.filter(p).findFirst(): the index of the first element passing `p`. */
  function Primeiro<T>(xs: seq<T>, p: T -> bool): (r: Option<nat>)
    ensures r.Some? ==> r.value < |xs| && p(xs[r.value]) && forall j :: 0 <= j < r.value ==> !p(xs[j])
    ensures r.None? <==> forall j :: 0 <= j < |xs| ==> !p(xs[j])
  {
    if xs == [] then None
    else if p(xs[0]) then Some(0)
    else match Primeiro(xs[1..], p)
      case None => None
      case Some(i) => Some(i + 1)
  }
}
