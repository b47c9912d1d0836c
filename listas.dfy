/** List operations the handlers build their new arrays with. */
module Listas {

  /** `s.filter((_, i) => i !== index)`: keeps every element whose position is
      not `index`, in order. An index outside the list removes nothing. */
  function SinPosicion<T>(s: seq<T>, index: int): (r: seq<T>)
    ensures 0 <= index < |s| ==> r == s[..index] + s[index + 1..]
    ensures !(0 <= index < |s|) ==> r == s
    decreases |s|
  {
    if |s| == 0 then []
    else
      var previos := SinPosicion(s[..|s| - 1], index);
      if index == |s| - 1 then previos else previos + [s[|s| - 1]]
  }

  /** The removed elements are exactly the one at `index`. */
  lemma {:induction false} SinPosicionMulticonjunto<T>(s: seq<T>, index: int)
    requires 0 <= index < |s|
    ensures multiset(SinPosicion(s, index)) + multiset{s[index]} == multiset(s)
  {
    MulticonjuntoSinPosicion(s, index);
  }

  /** Deleting position j removes exactly one copy of its element. */
  lemma {:induction false} MulticonjuntoSinPosicion<T>(b: seq<T>, j: nat)
    requires j < |b|
    ensures multiset(b[..j] + b[j + 1..]) + multiset{b[j]} == multiset(b)
  {
    var a, x, c := b[..j], b[j], b[j + 1..];
    var d := b[j..];
    assert b == a + d;
    assert d == [x] + c by { assert d[1..] == c; }
    assert multiset(b) == multiset(a) + multiset(d);
    assert multiset([x] + c) == multiset{x} + multiset(c);
    assert multiset(a + c) == multiset(a) + multiset(c);
  }
}
