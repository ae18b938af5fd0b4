/** `ORDER BY key DESC` over a sequence of rows: a stable insertion sort on an
    integer key. */
module Sorting {

  /** Keys never increase from left to right. */
  predicate Descendente<T>(s: seq<T>, key: T -> int) {
    forall i, j | 0 <= i < j < |s| :: key(s[i]) >= key(s[j])
  }

  /** Puts x in front of the first row whose key is not above its own. */
  function Insertar<T>(x: T, s: seq<T>, key: T -> int): (r: seq<T>)
    requires Descendente(s, key)
    ensures Descendente(r, key)
    ensures multiset(r) == multiset(s) + multiset{x}
    ensures |r| == |s| + 1 && (r[0] == x || (s != [] && r[0] == s[0]))
    decreases |s|
  {
    if s == [] || key(x) >= key(s[0]) then
      [x] + s
    else
      var t := Insertar(x, s[1..], key);
      assert s == [s[0]] + s[1..];
      DescendenteCons(s[0], t, key);
      [s[0]] + t
  }

  /** A row whose key is not below the first key of a sorted sequence can go in front of it. */
  lemma DescendenteCons<T>(h: T, t: seq<T>, key: T -> int)
    requires Descendente(t, key)
    requires t != [] ==> key(h) >= key(t[0])
    ensures Descendente([h] + t, key)
  {
    var r := [h] + t;
    forall i, j | 0 <= i < j < |r| ensures key(r[i]) >= key(r[j]) {
      if i == 0 {
        assert r[j] == t[j - 1];
      } else {
        assert r[i] == t[i - 1] && r[j] == t[j - 1];
      }
    }
  }

  function Ordenar<T>(s: seq<T>, key: T -> int): (r: seq<T>)
    ensures Descendente(r, key)
    ensures multiset(r) == multiset(s)
    decreases |s|
  {
    if s == [] then []
    else
      assert s == [s[0]] + s[1..];
      Insertar(s[0], Ordenar(s[1..], key), key)
  }

  /** The rows kept by a sort are the rows given: membership is unchanged. */
  lemma OrdenarMiembros<T>(s: seq<T>, key: T -> int, x: T)
    ensures x in Ordenar(s, key) <==> x in s
  {
    assert x in multiset(Ordenar(s, key)) <==> x in multiset(s);
  }
}
