/**
 * Lower-casing (`strings.ToLower`) on the characters whose lower-case form is ASCII: the
 * capitals A-Z, the Kelvin sign U+212A (to 'k') and the dotted capital I U+0130 (to 'i').
 * Every name and unit the engine accepts is ASCII, and no other character lower-cases to
 * ASCII, so these are the foldings that decide whether a text is accepted.
 */
module Ascii {

  const KelvinSign: char := '\U{212A}'
  const DottedCapitalI: char := '\U{0130}'

  predicate IsAsciiUpper(c: char) {
    'A' <= c <= 'Z'
  }

  /** A capital whose lower-case form is an ASCII letter. */
  predicate IsUpper(c: char) {
    IsAsciiUpper(c) || c == KelvinSign || c == DottedCapitalI
  }

  function ToLowerChar(c: char): (r: char)
    ensures IsUpper(c) ==> 'a' <= r <= 'z'
    ensures !IsUpper(c) ==> r == c
    ensures IsAsciiUpper(c) ==> r as int == c as int + 32
  {
    if IsAsciiUpper(c) then (c as int + 32) as char
    else if c == KelvinSign then 'k'
    else if c == DottedCapitalI then 'i'
    else c
  }

  /** Lower-cases every capital above and keeps every other character. */
  function Lower(s: string): (r: string)
    ensures |r| == |s|
    ensures forall i :: 0 <= i < |s| ==> r[i] == ToLowerChar(s[i])
  {
    seq(|s|, i requires 0 <= i < |s| => ToLowerChar(s[i]))
  }

  /** Lower-casing distributes over concatenation. */
  lemma LowerAppend(a: string, b: string)
    ensures Lower(a + b) == Lower(a) + Lower(b)
  {
    assert forall i :: 0 <= i < |a + b| ==> Lower(a + b)[i] == (Lower(a) + Lower(b))[i];
  }

  /** Lower-casing a string that has no capitals changes nothing. */
  lemma LowerNoCapitals(s: string)
    requires forall i :: 0 <= i < |s| ==> !IsUpper(s[i])
    ensures Lower(s) == s
  {
  }

  /** The Kelvin sign and the dotted capital I fold to the ASCII letters 'k' and 'i'. */
  lemma LowerNonAscii()
    ensures Lower([KelvinSign, 'B']) == "kb"
    ensures Lower(['L', DottedCapitalI, 'N', 'U', 'X']) == "linux"
  {
  }
}
