/** Decimal numerals: rendering a count (`strconv.Itoa`) and reading one back (`strconv.Atoi`). */
module Decimal {
  import opened Results

  predicate IsDigit(c: char) {
    '0' <= c <= '9'
  }

  predicate AllDigits(s: string) {
    forall i :: 0 <= i < |s| ==> IsDigit(s[i])
  }

  function DigitChar(d: nat): (c: char)
    requires d < 10
    ensures IsDigit(c)
  {
    ('0' as int + d) as char
  }

  function DigitValue(c: char): (d: nat)
    requires IsDigit(c)
    ensures d < 10
  {
    c as int - '0' as int
  }

  /** The number a string of decimal digits denotes (most significant digit first). */
  function Value(s: string): nat
    requires AllDigits(s)
    decreases |s|
  {
    if |s| == 0 then 0 else 10 * Value(s[..|s| - 1]) + DigitValue(s[|s| - 1])
  }

  /** The decimal rendering of a count, without sign or leading zeros. */
  function Show(n: nat): (s: string)
    ensures |s| > 0 && AllDigits(s)
    ensures |s| > 1 ==> s[0] != '0'
    decreases n
  {
    if n < 10 then [DigitChar(n)] else Show(n / 10) + [DigitChar(n % 10)]
  }

  /** Reading back a rendered count gives the count. */
  lemma {:induction false} ValueOfShow(n: nat)
    ensures Value(Show(n)) == n
    decreases n
  {
    if n >= 10 {
      var prefix := Show(n / 10);
      var s := prefix + [DigitChar(n % 10)];
      assert s[..|s| - 1] == prefix;
      ValueOfShow(n / 10);
    }
  }

  /** The digits after an optional leading sign. */
  function Unsigned(s: string): string {
    if |s| > 0 && (s[0] == '+' || s[0] == '-') then s[1..] else s
  }

  /** The integer syntax `strconv.Atoi` accepts: an optional sign and at least one digit. */
  predicate IsIntLiteral(s: string) {
    |Unsigned(s)| > 0 && AllDigits(Unsigned(s))
  }

  /** `strconv.Atoi` on base-10 text; the 64-bit range limit is not modelled. */
  function Atoi(s: string): (r: Result<int>)
    ensures r.Ok? <==> IsIntLiteral(s)
    ensures r.Err? ==> r.error == BadInteger(s)
    ensures r.Ok? ==> (r.value < 0 ==> s[0] == '-')
  {
    var digits := Unsigned(s);
    if |digits| == 0 || !AllDigits(digits) then Err(BadInteger(s))
    else
      var magnitude: int := Value(digits);
      if s[0] == '-' then Ok(-magnitude) else Ok(magnitude)
  }

  /** `strconv.Atoi` with its error discarded, as Go code does with `n, _ := strconv.Atoi(s)`. */
  function AtoiOrZero(s: string): int {
    match Atoi(s)
    case Ok(n) => n
    case Err(_) => 0
  }

  /** `Atoi` reads back what `Itoa` wrote. */
  lemma AtoiOfShow(n: nat)
    ensures Atoi(Show(n)) == Ok(n)
    ensures AtoiOrZero(Show(n)) == n
  {
    var s := Show(n);
    assert Unsigned(s) == s;
    ValueOfShow(n);
  }

  /** A minus sign in front of a rendered count reads back as its negation. */
  lemma AtoiOfNegative(n: nat)
    ensures Atoi("-" + Show(n)) == Ok(-(n as int))
  {
    var s := "-" + Show(n);
    assert Unsigned(s) == Show(n);
    ValueOfShow(n);
  }

  /** The empty string is not a number. */
  lemma AtoiRejectsEmpty()
    ensures Atoi("") == Err(BadInteger(""))
  {
  }
}
