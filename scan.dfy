/** Hand-coded scanners for the few regular-expression pieces the OCR
    code uses: runs of digits and commas, and the number pattern
    `\d[\d,]*\.?\d*` whose greedy runs never give characters back. */
module Scan {
  import opened Wrappers
  import opened Text
  import opened Numbers

  predicate DigitOrComma(c: char) { IsDigit(c) || c == ',' }

  /** The first index from `i` on that holds a digit, or `|s|`. */
  function SkipNonDigits(s: string, i: nat): (k: nat)
    requires i <= |s|
    decreases |s| - i
    ensures i <= k <= |s| && (k < |s| ==> IsDigit(s[k]))
    ensures forall j :: i <= j < k ==> !IsDigit(s[j])
  {
    if i == |s| || IsDigit(s[i]) then i else SkipNonDigits(s, i + 1)
  }

  /** The end of the run of digits and commas that starts at `i`. */
  function SkipDigitsCommas(s: string, i: nat): (k: nat)
    requires i <= |s|
    decreases |s| - i
    ensures i <= k <= |s| && (k < |s| ==> !DigitOrComma(s[k]))
    ensures forall j :: i <= j < k ==> DigitOrComma(s[j])
  {
    if i == |s| || !DigitOrComma(s[i]) then i else SkipDigitsCommas(s, i + 1)
  }

  /** The end of the run of digits that starts at `i`. */
  function SkipDigits(s: string, i: nat): (k: nat)
    requires i <= |s|
    decreases |s| - i
    ensures i <= k <= |s| && (k < |s| ==> !IsDigit(s[k]))
    ensures forall j :: i <= j < k ==> IsDigit(s[j])
  {
    if i == |s| || !IsDigit(s[i]) then i else SkipDigits(s, i + 1)
  }

  predicate NumberChar(c: char) { IsDigit(c) || c == ',' || c == '.' }

  /** The end of the run of whitespace that starts at `i` (greedy `\s*`). */
  function SkipSpaces(s: string, i: nat): (k: nat)
    requires i <= |s|
    decreases |s| - i
    ensures i <= k <= |s| && (k < |s| ==> !IsSpace(s[k]))
    ensures forall j :: i <= j < k ==> IsSpace(s[j])
  {
    if i == |s| || !IsSpace(s[i]) then i else SkipSpaces(s, i + 1)
  }

  /** The end of the run of `[\d,\.]` that starts at `i`. */
  function SkipNumberChars(s: string, i: nat): (k: nat)
    requires i <= |s|
    decreases |s| - i
    ensures i <= k <= |s| && (k < |s| ==> !NumberChar(s[k]))
    ensures forall j :: i <= j < k ==> NumberChar(s[j])
  {
    if i == |s| || !NumberChar(s[i]) then i else SkipNumberChars(s, i + 1)
  }

  /** The end of one or two digits starting at `i` (greedy `\d{1,2}`), or
      `None` when `i` holds no digit. */
  function OneOrTwoDigits(s: string, i: nat): (e: Option<nat>)
    ensures e.Some? ==> i < e.value <= i + 2 && e.value <= |s| && AllDigits(s[i..e.value])
    ensures e.Some? && e.value < |s| ==> e.value == i + 2 || !IsDigit(s[e.value])
  {
    if i < |s| && IsDigit(s[i]) then
      Some(if i + 1 < |s| && IsDigit(s[i + 1]) then i + 2 else i + 1)
    else None
  }

  /** The group `(\d[\d,]*\.?\d*)` after the gap `[^\d]*` that starts at `start`. */
  function NumberFrom(text: string, start: nat): Option<string>
    requires start <= |text|
  {
    var d := SkipNonDigits(text, start);
    if d == |text| then None
    else
      var e := SkipDigitsCommas(text, d + 1);
      var f := if e < |text| && text[e] == '.' then SkipDigits(text, e + 1) else e;
      Some(text[d..f])
  }

  lemma NumberFromFound(text: string, start: nat, d: nat)
    requires start <= d < |text| && IsDigit(text[d])
    ensures NumberFrom(text, start).Some?
  {
  }

  /** The captured group is a run of digits and commas starting with a
      digit, then nothing or `.` and digits. */
  predicate AmountShape(a: string, b: string) {
    a != [] && IsDigit(a[0]) && (forall j :: 0 <= j < |a| ==> DigitOrComma(a[j])) &&
    (b == [] || (b[0] == '.' && AllDigits(b[1..])))
  }

  lemma NumberFromShape(text: string, start: nat) returns (a: string, b: string)
    requires start <= |text| && NumberFrom(text, start).Some?
    ensures AmountShape(a, b) && NumberFrom(text, start).value == a + b
  {
    var d := SkipNonDigits(text, start);
    var e := SkipDigitsCommas(text, d + 1);
    var f := if e < |text| && text[e] == '.' then SkipDigits(text, e + 1) else e;
    a := text[d..e];
    b := text[e..f];
    assert text[d..f] == a + b;
  }

  lemma ShapeParses(a: string, b: string)
    requires AmountShape(a, b)
    ensures ParseFloat(RemoveChar(a + b, ',')).Some? && ParseFloat(RemoveChar(a + b, ',')).value >= 0.0
  {
    RemoveCharAppend(a, b, ',');
    CommasRemoved(a);
    assert forall j :: 0 <= j < |b| ==> b[j] != ',';
    assert RemoveChar(b, ',') == b;
    PlainDecimal(RemoveChar(a, ','), b);
  }

  /** Removing the commas from a run of digits and commas that starts with
      a digit leaves a non-empty digit string. */
  lemma CommasRemoved(a: string)
    requires a != [] && IsDigit(a[0]) && forall j :: 0 <= j < |a| ==> DigitOrComma(a[j])
    ensures RemoveChar(a, ',') != [] && AllDigits(RemoveChar(a, ','))
  {
    var r := RemoveChar(a, ',');
    assert r == [a[0]] + RemoveChar(a[1..], ',');
    forall j | 0 <= j < |r|
      ensures IsDigit(r[j])
    {
      assert r[j] in r;
      assert r[j] in a;
    }
  }

  /** `float()` of digits followed by nothing or by `.` and digits. */
  lemma PlainDecimal(ip: string, b: string)
    requires ip != [] && AllDigits(ip)
    requires b == [] || (b[0] == '.' && AllDigits(b[1..]))
    ensures ParseFloat(ip + b).Some? && ParseFloat(ip + b).value >= 0.0
  {
    var t := ip + b;
    assert t[0] == ip[0];
    assert !IsSpace(t[|t| - 1]);
    StripNoop(t);
    assert SplitSign(t) == (false, t);
    if b == [] {
      assert t == ip;
      assert IndexOfChar(t, '.', 0) == |t|;
    } else {
      IndexOfCharAt(t, '.', 0, |ip|);
      assert t[..|ip|] == ip;
      assert t[|ip| + 1..] == b[1..];
    }
  }

  /** The number found from `start` on, with its commas removed, is a
      non-negative value `float()` accepts. */
  lemma NumberFromParses(text: string, start: nat)
    requires start <= |text| && NumberFrom(text, start).Some?
    ensures ParseFloat(RemoveChar(NumberFrom(text, start).value, ',')).Some?
    ensures ParseFloat(RemoveChar(NumberFrom(text, start).value, ',')).value >= 0.0
  {
    var a, b := NumberFromShape(text, start);
    ShapeParses(a, b);
  }

  /** `float()` of a digit string is its value. */
  lemma WholeParses(s: string)
    requires s != [] && AllDigits(s)
    ensures ParseFloat(s) == Some(ParseDigits(s) as real)
  {
    Unsigned(s);
    UnsignedWhole(s);
  }

  /** A digit string has no surrounding space and no sign. */
  lemma Unsigned(s: string)
    requires s != [] && AllDigits(s)
    ensures SplitSign(Strip(s)) == (false, s)
  {
    assert !IsSpace(s[0]) && !IsSpace(s[|s| - 1]) by {
      assert IsDigit(s[0]) && IsDigit(s[|s| - 1]);
    }
    StripNoop(s);
    assert IsDigit(s[0]);
  }

  lemma UnsignedWhole(s: string)
    requires s != [] && AllDigits(s)
    ensures ParseUnsigned(s) == Some(ParseDigits(s) as real)
  {
    var k := IndexOfChar(s, '.', 0);
    assert k == |s|;
    assert s[..k] == s;
    assert DecimalValue(s, []) == ParseDigits(s) as real;
  }
}
