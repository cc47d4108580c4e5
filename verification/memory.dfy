/**
 * Memory quantities (`DbMemory`): a byte count, parsed from text such as "16GB" or
 * "512m" and rendered back in the largest binary unit that divides it evenly.
 */
module Memory {
  import opened Results
  import opened Ascii
  import opened Decimal

  const KB: nat := 1024
  const MB: nat := 1024 * KB
  const GB: nat := 1024 * MB

  /** The unit part of the grammar `^[0-9]+[kmg]?b?$`, on lower-cased text. */
  predicate IsUnit(u: string) {
    && |u| <= 2
    && (|u| == 1 ==> u[0] in "kmgb")
    && (|u| == 2 ==> u[0] in "kmg" && u[1] == 'b')
  }

  /** Bytes per unit: a leading k, m or g selects KiB, MiB or GiB; "b" and "" mean bytes. */
  function UnitMultiplier(u: string): (k: nat)
    ensures k in {1, KB, MB, GB}
  {
    if |u| > 0 && u[0] == 'k' then KB
    else if |u| > 0 && u[0] == 'm' then MB
    else if |u| > 0 && u[0] == 'g' then GB
    else 1
  }

  /** `t` matches the memory grammar with the digits ending at position `i`. */
  ghost predicate SplitsAt(t: string, i: int) {
    1 <= i <= |t| && AllDigits(t[..i]) && IsUnit(t[i..])
  }

  /** `t` matches `^[0-9]+[kmg]?b?$`. */
  ghost predicate Matches(t: string) {
    exists i :: SplitsAt(t, i)
  }

  /** Length of the longest all-digit prefix of `t`. */
  function DigitRun(t: string): (i: nat)
    ensures i <= |t|
    ensures AllDigits(t[..i])
    ensures i < |t| ==> !IsDigit(t[i])
    decreases |t|
  {
    if |t| == 0 || !IsDigit(t[0]) then 0
    else
      var rest := DigitRun(t[1..]);
      assert forall k :: 1 <= k < 1 + rest ==> t[k] == t[1..][..rest][k - 1];
      1 + rest
  }

  /** Any digit prefix that stops at a non-digit (or at the end) is the longest one. */
  lemma DigitRunUnique(t: string, i: nat)
    requires i <= |t| && AllDigits(t[..i])
    requires i < |t| ==> !IsDigit(t[i])
    ensures DigitRun(t) == i
  {
    var j := DigitRun(t);
    PrefixDigits(t, i);
    PrefixDigits(t, j);
  }

  /** An all-digit prefix says every character before its end is a digit. */
  lemma PrefixDigits(t: string, i: nat)
    requires i <= |t| && AllDigits(t[..i])
    ensures forall k :: 0 <= k < i ==> IsDigit(t[k])
  {
    forall k | 0 <= k < i
      ensures IsDigit(t[k])
    {
      assert t[..i][k] == t[k];
    }
  }

  /** A split of the grammar always ends where the digit run ends, so it is unique. */
  lemma SplitsAtDigitRun(t: string)
    ensures forall i :: SplitsAt(t, i) ==> i == DigitRun(t)
  {
    forall i | SplitsAt(t, i)
      ensures i == DigitRun(t)
    {
      if i < |t| {
        assert t[i] == t[i..][0];
      }
      DigitRunUnique(t, i);
    }
  }

  /**
   * `NewDBMemory`: lower-case the text, match it against `^[0-9]+[kmg]?b?$` and scale the
   * digits by the unit; any other text is an error naming the original text.
   */
  function ParseMemory(text: string): (r: Result<nat>)
    ensures r.Ok? <==> Matches(Lower(text))
    ensures forall i :: SplitsAt(Lower(text), i) ==>
              r == Ok(Value(Lower(text)[..i]) * UnitMultiplier(Lower(text)[i..]))
    ensures r.Err? ==> r.error == BadMemory(text)
  {
    var t := Lower(text);
    SplitsAtDigitRun(t);
    var i := DigitRun(t);
    if i > 0 && IsUnit(t[i..]) then
      assert SplitsAt(t, i);
      Ok(Value(t[..i]) * UnitMultiplier(t[i..]))
    else
      Err(BadMemory(text))
  }

  /** `InKbytes`: whole kibibytes, truncated. */
  function InKbytes(bytes: nat): (k: nat)
    ensures k * KB <= bytes < (k + 1) * KB
  {
    bytes / KB
  }

  /** `InMbytes`: whole mebibytes, truncated. */
  function InMbytes(bytes: nat): (m: nat)
    ensures m * MB <= bytes < (m + 1) * MB
  {
    bytes / MB
  }

  /** `InGbytes`: whole gibibytes, truncated. */
  function InGbytes(bytes: nat): (g: nat)
    ensures g * GB <= bytes < (g + 1) * GB
  {
    bytes / GB
  }

  /** `Get`: the count in the largest of GB, MB, KB that divides it, else plain bytes. */
  function Format(bytes: nat): (s: string)
    ensures |s| > 0
  {
    if bytes % GB == 0 then Show(bytes / GB) + "GB"
    else if bytes % MB == 0 then Show(bytes / MB) + "MB"
    else if bytes % KB == 0 then Show(bytes / KB) + "KB"
    else Show(bytes)
  }

  /** The units `Format` can choose from, with their sizes and labels. */
  datatype Unit = Bytes | Kibi | Mebi | Gibi

  function UnitSize(u: Unit): nat {
    match u
    case Bytes => 1
    case Kibi => KB
    case Mebi => MB
    case Gibi => GB
  }

  function UnitLabel(u: Unit): string {
    match u
    case Bytes => ""
    case Kibi => "KB"
    case Mebi => "MB"
    case Gibi => "GB"
  }

  /** A rendered count followed by a suffix whose lower-case form is a unit parses back. */
  lemma ParseShownWithLabel(q: nat, suffix: string)
    requires IsUnit(Lower(suffix))
    ensures ParseMemory(Show(q) + suffix) == Ok(q * UnitMultiplier(Lower(suffix)))
  {
    var digits := Show(q);
    LowerAppend(digits, suffix);
    LowerNoCapitals(digits);
    var t := Lower(digits + suffix);
    assert t == digits + Lower(suffix);
    assert t[..|digits|] == digits;
    assert t[|digits|..] == Lower(suffix);
    assert SplitsAt(t, |digits|);
    ValueOfShow(q);
  }

  /** A count that is a whole number of `size`-byte units renders and parses back. */
  lemma ParseWholeUnits(bytes: nat, size: nat, suffix: string)
    requires size > 0 && bytes % size == 0
    requires IsUnit(Lower(suffix)) && UnitMultiplier(Lower(suffix)) == size
    ensures ParseMemory(Show(bytes / size) + suffix) == Ok(bytes)
  {
    var q := bytes / size;
    assert q * size == bytes;
    ParseShownWithLabel(q, suffix);
  }

  /** Re-parsing the rendered form of a byte count gives back the same count. */
  lemma FormatRoundTrip(bytes: nat)
    ensures ParseMemory(Format(bytes)) == Ok(bytes)
  {
    if bytes % GB == 0 {
      assert Lower("GB") == "gb";
      ParseWholeUnits(bytes, GB, "GB");
    } else if bytes % MB == 0 {
      assert Lower("MB") == "mb";
      ParseWholeUnits(bytes, MB, "MB");
    } else if bytes % KB == 0 {
      assert Lower("KB") == "kb";
      ParseWholeUnits(bytes, KB, "KB");
    } else {
      assert Lower("") == "";
      assert Show(bytes) + "" == Show(bytes);
      ParseWholeUnits(bytes, 1, "");
    }
  }

  /**
   * The rendering is canonical: it is the count in some unit that divides the byte count
   * evenly, and no larger unit divides it.
   */
  lemma FormatLargestUnit(bytes: nat)
    ensures exists u :: && bytes % UnitSize(u) == 0
                        && Format(bytes) == Show(bytes / UnitSize(u)) + UnitLabel(u)
                        && forall w :: UnitSize(w) > UnitSize(u) ==> bytes % UnitSize(w) != 0
  {
    Coarser(bytes);
    var u := if bytes % GB == 0 then Gibi
             else if bytes % MB == 0 then Mebi
             else if bytes % KB == 0 then Kibi
             else Bytes;
    assert Format(bytes) == Show(bytes / UnitSize(u)) + UnitLabel(u);
    forall w | UnitSize(w) > UnitSize(u)
      ensures bytes % UnitSize(w) != 0
    {
    }
  }

  /** A count that is a whole number of a larger unit is a whole number of each smaller one. */
  lemma Coarser(bytes: nat)
    ensures bytes % GB == 0 ==> bytes % MB == 0
    ensures bytes % MB == 0 ==> bytes % KB == 0
  {
    if bytes % GB == 0 {
      var q := bytes / GB;
      assert bytes == MB * (1024 * q);
    }
    if bytes % MB == 0 {
      var q := bytes / MB;
      assert bytes == KB * (1024 * q);
    }
  }

  /** Zero is divisible by every unit, so it renders in gigabytes. */
  lemma FormatZero()
    ensures Format(0) == "0GB"
  {
    assert Show(0) == "0";
  }

  /** Text outside the grammar is refused: the empty string, a sign, an unknown unit. */
  lemma ParseMemoryRejects()
    ensures ParseMemory("") == Err(BadMemory(""))
    ensures ParseMemory("-5gb") == Err(BadMemory("-5gb"))
    ensures ParseMemory("10xb") == Err(BadMemory("10xb"))
  {
    assert Lower("-5gb")[0] == '-';
    var t := Lower("10xb");
    assert t == "10xb";
    assert t[..2] == "10";
    DigitRunUnique(t, 2);
    assert t[2..] == "xb";
  }

  /** Upper-case units are accepted and scale the count. */
  lemma ParseMemoryExample()
    ensures ParseMemory("16GB") == Ok(16 * GB)
  {
    assert Show(1) == "1" && Show(6) == "6";
    assert Show(16) == "16";
    assert Lower("GB") == "gb";
    assert "16GB" == Show(16) + "GB";
    ParseShownWithLabel(16, "GB");
  }

  /** The Kelvin sign lower-cases to 'k', so it selects kibibytes. */
  lemma ParseMemoryKelvinSign()
    ensures ParseMemory(['1', '6', KelvinSign, 'B']) == Ok(16 * KB)
  {
    assert Show(1) == "1" && Show(6) == "6";
    assert Show(16) == "16";
    assert Lower([KelvinSign, 'B']) == "kb";
    assert ['1', '6', KelvinSign, 'B'] == Show(16) + [KelvinSign, 'B'];
    ParseShownWithLabel(16, [KelvinSign, 'B']);
  }
}
