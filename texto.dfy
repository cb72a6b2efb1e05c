/** Case-insensitive comparison of names (Python's str.lower on ASCII letters). */
module Texto {

  function MinusculaChar(c: char): (r: char)
    ensures 'A' <= c <= 'Z' ==> r as int == c as int + 32
    ensures !('A' <= c <= 'Z') ==> r == c
  {
    if 'A' <= c <= 'Z' then (c as int + 32) as char else c
  }

  /** `s` with every upper-case ASCII letter lowered in place (`s.lower()`). */
  function Minusculas(s: string): (r: string)
    ensures |r| == |s|
  {
    seq(|s|, i requires 0 <= i < |s| => MinusculaChar(s[i]))
  }

  /** The result has no upper-case ASCII letter left. */
  lemma MinusculasSemMaiusculas(s: string)
    ensures forall i :: 0 <= i < |s| ==> !('A' <= Minusculas(s)[i] <= 'Z')
  {
  }

  /** Lowering twice is lowering once. */
  lemma MinusculasIdempotente(s: string)
    ensures Minusculas(Minusculas(s)) == Minusculas(s)
  {
  }

  /** `a.lower() == b.lower()`. */
  predicate IgualSemCaixa(a: string, b: string) {
    Minusculas(a) == Minusculas(b)
  }
}
