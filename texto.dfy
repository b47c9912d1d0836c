/** Character classes and case mapping, restricted to ASCII: `toUpperCase`
    and `toLowerCase` change only the letters A-Z and a-z here, and the
    whitespace class `\s` (also what `trim` removes) is space, tab, line
    feed, vertical tab, form feed and carriage return. */
module Texto {

  predicate EsMayuscula(c: char)
  {
    'A' <= c <= 'Z'
  }

  predicate EsMinuscula(c: char)
  {
    'a' <= c <= 'z'
  }

  predicate EsEspacio(c: char)
  {
    c == ' ' || c == '\t' || c == '\n' || c == '\r' || c == 11 as char || c == 12 as char
  }

  function AMayuscula(c: char): (r: char)
    ensures !EsMinuscula(r)
    ensures EsMinuscula(c) ==> EsMayuscula(r)
    ensures !EsMinuscula(c) ==> r == c
    ensures AMinuscula(r) == AMinuscula(c)
  {
    if EsMinuscula(c) then (c as int - 32) as char else c
  }

  function AMinuscula(c: char): (r: char)
    ensures !EsMayuscula(r)
    ensures EsMayuscula(c) ==> EsMinuscula(r)
    ensures !EsMayuscula(c) ==> r == c
    ensures EsEspacio(r) <==> EsEspacio(c)
  {
    if EsMayuscula(c) then (c as int + 32) as char else c
  }

  /** `toLowerCase`: every letter lower-cased, every other character kept. */
  function Minusculas(s: string): (r: string)
    ensures |r| == |s|
    ensures forall k :: 0 <= k < |s| ==> r[k] == AMinuscula(s[k])
  {
    seq(|s|, k requires 0 <= k < |s| => AMinuscula(s[k]))
  }

  /** `s.trim() === ''`: nothing but whitespace (the empty text included). */
  predicate EsBlanco(s: string)
  {
    forall k :: 0 <= k < |s| ==> EsEspacio(s[k])
  }
}
