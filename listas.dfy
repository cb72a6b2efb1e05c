/** The list operations the inventory relies on (Python's `x in l` and `l.remove(x)`). */
module Listas {

  /** The position of the first occurrence of `x` in `s`. */
  function IndiceDe<T(==)>(s: seq<T>, x: T): (i: nat)
    requires x in s
    ensures i < |s| && s[i] == x
    ensures forall j :: 0 <= j < i ==> s[j] != x
  {
    if s[0] == x then 0 else 1 + IndiceDe(s[1..], x)
  }

  /** `s` after `l.remove(x)`: the first occurrence of `x` is taken out, everything
      else keeps its order; a list without `x` is returned unchanged. */
  function SemPrimeira<T(==)>(s: seq<T>, x: T): (r: seq<T>)
    ensures x !in s ==> r == s
    ensures x in s ==> r == s[..IndiceDe(s, x)] + s[IndiceDe(s, x) + 1..]
  {
    if s == [] then []
    else if s[0] == x then s[1..]
    else
      var t := SemPrimeira(s[1..], x);
      assert x in s[1..] ==> 1 + IndiceDe(s[1..], x) == IndiceDe(s, x);
      [s[0]] + t
  }

  /** Removing one occurrence takes exactly one copy of `x` out of the contents. */
  lemma {:induction false} SemPrimeiraMultiset<T>(s: seq<T>, x: T)
    requires x in s
    ensures multiset(SemPrimeira(s, x)) == multiset(s) - multiset{x}
    ensures |SemPrimeira(s, x)| == |s| - 1
  {
    var i := IndiceDe(s, x);
    assert s == s[..i] + [x] + s[i + 1..];
    assert multiset(s) == multiset(s[..i]) + multiset{x} + multiset(s[i + 1..]);
  }

  /** Appending an item that was not there and then removing it gives the list back. */
  lemma SemPrimeiraDoAcrescentado<T>(s: seq<T>, x: T)
    requires x !in s
    ensures SemPrimeira(s + [x], x) == s
  {
  }
}
