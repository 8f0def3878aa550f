/** Decimal text and numbers: Python's `int()`/`float()` on the plain
    decimal forms, `str()` of an `int`, `repr()` of a float held as an exact
    `real`, the `,` thousands format, zero padding and `round(x, d)`. */
module Numbers {
  import opened Wrappers
  import opened Text

  function Pow10(n: nat): (r: nat)
    ensures r >= 1
  {
    if n == 0 then 1 else 10 * Pow10(n - 1)
  }

  /** The value of a string of decimal digits (leading zeros allowed). */
  function ParseDigits(s: string): nat
    requires AllDigits(s)
  {
    if s == [] then 0 else ParseDigits(s[..|s| - 1]) * 10 + DigitValue(s[|s| - 1])
  }

  function DigitChar(d: nat): (c: char)
    requires d < 10
    ensures IsDigit(c) && DigitValue(c) == d
  {
    ('0' as int + d) as char
  }

  /** `str(n)` for a natural number: no leading zeros, value `n`. */
  function NatToString(n: nat): (s: string)
    ensures 1 <= |s| && AllDigits(s) && ParseDigits(s) == n
    ensures s[0] == '0' ==> n == 0
  {
    if n < 10 then [DigitChar(n)]
    else
      var p := NatToString(n / 10);
      var s := p + [DigitChar(n % 10)];
      assert s[..|s| - 1] == p;
      s
  }

  function Zeros(k: nat): (s: string)
    ensures |s| == k && AllDigits(s)
    ensures forall i :: 0 <= i < k ==> s[i] == '0'
  {
    if k == 0 then [] else Zeros(k - 1) + "0"
  }

  lemma {:induction false} ParseDigitsZeros(k: nat)
    ensures ParseDigits(Zeros(k)) == 0
  {
    if k > 0 {
      assert Zeros(k)[..k - 1] == Zeros(k - 1);
      ParseDigitsZeros(k - 1);
    }
  }

  /** Leading zeros do not change the value of a digit string. */
  lemma {:induction false} ParseDigitsPadded(k: nat, s: string)
    requires AllDigits(s)
    ensures AllDigits(Zeros(k) + s) && ParseDigits(Zeros(k) + s) == ParseDigits(s)
    decreases |s|
  {
    var t := Zeros(k) + s;
    if s == [] {
      assert t == Zeros(k);
      ParseDigitsZeros(k);
    } else {
      assert t[..|t| - 1] == Zeros(k) + s[..|s| - 1];
      ParseDigitsPadded(k, s[..|s| - 1]);
    }
  }

  /** `f"{n:0{width}d}"`: `n` zero padded on the left to at least `width` digits. */
  function PadNat(n: nat, width: nat): (s: string)
    ensures AllDigits(s) && ParseDigits(s) == n
    ensures |s| == if |NatToString(n)| < width then width else |NatToString(n)|
  {
    var t := NatToString(n);
    var z := if |t| < width then width - |t| else 0;
    ParseDigitsPadded(z, t);
    Zeros(z) + t
  }

  /** Exactly `w` digits for an `n` that fits in them (`f"{n:0{w}d}"`). */
  function Digits(n: nat, w: nat): (s: string)
    requires n < Pow10(w)
    ensures |s| == w && AllDigits(s) && ParseDigits(s) == n
  {
    if w == 0 then []
    else
      var p := Digits(n / 10, w - 1);
      var s := p + [DigitChar(n % 10)];
      assert s[..|s| - 1] == p;
      s
  }

  lemma Pow10Values()
    ensures Pow10(2) == 100 && Pow10(4) == 10000 && Pow10(6) == 1000000
  {
    assert Pow10(1) == 10;
    assert Pow10(2) == 100;
    assert Pow10(3) == 1000;
    assert Pow10(4) == 10000;
    assert Pow10(5) == 100000;
  }

  /** `str(i)` for a Python `int`. */
  function IntToString(i: int): string {
    if i < 0 then "-" + NatToString(-i) else NatToString(i)
  }

  /** Splits off an optional leading `+` or `-`: whether it was `-`, and the rest. */
  function SplitSign(t: string): (bool, string) {
    if t != [] && t[0] == '-' then (true, t[1..])
    else if t != [] && t[0] == '+' then (false, t[1..])
    else (false, t)
  }

  /** Python's `int(s)` for a plain decimal literal with optional sign and
      surrounding whitespace; `None` stands for the `ValueError`. */
  function ParseInt(s: string): (r: Option<int>)
    ensures r.Some? ==> Strip(s) != []
  {
    var (negative, body) := SplitSign(Strip(s));
    if body != [] && AllDigits(body) then
      var n: int := ParseDigits(body);
      Some(if negative then -n else n)
    else None
  }

  lemma ParseIntOfString(i: int)
    ensures ParseInt(IntToString(i)) == Some(i)
  {
    var t := IntToString(i);
    TrimStartNoop(t, IsSpace);
    TrimEndNoop(t, IsSpace);
    if i < 0 {
      assert t[1..] == NatToString(-i);
    }
  }

  /** The value of `ip.fp` for digit strings `ip` and `fp`. */
  function DecimalValue(ip: string, fp: string): real
    requires AllDigits(ip) && AllDigits(fp)
  {
    ParseDigits(ip) as real + Unscale(ParseDigits(fp) as real, |fp|)
  }

  /** Unsigned decimal text: digits with an optional `.` fraction and at
      least one digit in all. */
  function ParseUnsigned(body: string): (r: Option<real>)
    ensures r.Some? ==> r.value >= 0.0
  {
    var k := IndexOfChar(body, '.', 0);
    var ip := body[..k];
    var fp := if k < |body| then body[k + 1..] else [];
    if AllDigits(ip) && AllDigits(fp) && |ip| + |fp| >= 1 then Some(DecimalValue(ip, fp))
    else None
  }

  /** Python's `float(s)` for plain decimal text: optional sign, an
      unsigned decimal, surrounding whitespace ignored.  `None` stands for
      the `ValueError`. */
  function ParseFloat(s: string): (r: Option<real>)
  {
    var t := Strip(s);
    var signed := SplitSign(t);
    match ParseUnsigned(signed.1)
    case Some(v) => Some(if signed.0 then -v else v)
    case None => None
  }

  /** `y * 10^d`, as `d` multiplications by ten: every proof about it
      stays within linear arithmetic. */
  function Scale(y: real, d: nat): real {
    if d == 0 then y else 10.0 * Scale(y, d - 1)
  }

  /** `y / 10^d`, as `d` divisions by ten. */
  function Unscale(y: real, d: nat): (r: real)
    ensures y >= 0.0 ==> r >= 0.0
  {
    if d == 0 then y else Unscale(y, d - 1) / 10.0
  }

  lemma {:induction false} ScaleSub(a: real, b: real, d: nat)
    ensures Scale(a - b, d) == Scale(a, d) - Scale(b, d)
  {
    if d > 0 {
      ScaleSub(a, b, d - 1);
    }
  }

  lemma {:induction false} UnscaleSub(a: real, b: real, d: nat)
    ensures Unscale(a - b, d) == Unscale(a, d) - Unscale(b, d)
  {
    if d > 0 {
      UnscaleSub(a, b, d - 1);
    }
  }

  lemma {:induction false} ScaleMonotone(a: real, b: real, d: nat)
    requires a <= b
    ensures Scale(a, d) <= Scale(b, d)
  {
    if d > 0 {
      ScaleMonotone(a, b, d - 1);
    }
  }

  lemma {:induction false} UnscaleMonotone(a: real, b: real, d: nat)
    requires a <= b
    ensures Unscale(a, d) <= Unscale(b, d)
  {
    if d > 0 {
      UnscaleMonotone(a, b, d - 1);
    }
  }

  lemma {:induction false} UnscaleTen(y: real, d: nat)
    ensures Unscale(10.0 * y, d) == 10.0 * Unscale(y, d)
  {
    if d > 0 {
      UnscaleTen(y, d - 1);
    }
  }

  lemma {:induction false} ScaleTenth(y: real, d: nat)
    ensures Scale(y / 10.0, d) == Scale(y, d) / 10.0
  {
    if d > 0 {
      ScaleTenth(y, d - 1);
    }
  }

  /** Dividing by `10^d` undoes multiplying by it ... */
  lemma {:induction false} UnscaleScale(x: real, d: nat)
    ensures Unscale(Scale(x, d), d) == x
  {
    if d > 0 {
      UnscaleTen(Scale(x, d - 1), d - 1);
      UnscaleScale(x, d - 1);
    }
  }

  /** ... and the other way round. */
  lemma {:induction false} ScaleUnscale(y: real, d: nat)
    ensures Scale(Unscale(y, d), d) == y
  {
    if d > 0 {
      ScaleTenth(Unscale(y, d - 1), d - 1);
      ScaleUnscale(y, d - 1);
    }
  }

  /** `x * 10^d` rounded to an integer, ties to even (Python's `round`). */
  function RoundScaled(x: real, d: nat): int {
    RoundToInt(Scale(x, d))
  }

  /** The nearest integer, ties to even. */
  function RoundToInt(y: real): (n: int)
    ensures -0.5 <= n as real - y <= 0.5
  {
    var f := y.Floor;
    var frac := y - f as real;
    if frac < 0.5 then f
    else if frac > 0.5 then f + 1
    else if f % 2 == 0 then f
    else f + 1
  }

  /** `round(x, d)` on an exact real: the nearest multiple of `10^-d`,
      ties going to the even multiple. */
  function RoundHalfEven(x: real, d: nat): real {
    Unscale(RoundScaled(x, d) as real, d)
  }

  /** `x` has at most `d` digits after the decimal point. */
  predicate HasDigits(x: real, d: nat) {
    Scale(x, d).Floor as real == Scale(x, d)
  }

  /** A value with `d` fraction digits also has `d + 1`. */
  lemma HasMoreDigits(x: real, d: nat)
    requires HasDigits(x, d)
    ensures HasDigits(x, d + 1)
  {
    var k := Scale(x, d).Floor;
    assert Scale(x, d + 1) == (10 * k) as real;
  }

  /** Whole numbers are on every grid. */
  lemma {:induction false} WholeOnGrid(n: int, d: nat)
    ensures HasDigits(n as real, d)
  {
    if d > 0 {
      WholeOnGrid(n, d - 1);
      HasMoreDigits(n as real, d - 1);
    }
  }

  lemma RoundScaledExact(x: real, d: nat)
    requires HasDigits(x, d)
    ensures RoundScaled(x, d) as real == Scale(x, d)
  {
  }

  /** Rounding is never off by more than half a unit in the last place,
      that is `0.5 / 10^d` either way. */
  lemma RoundHalfEvenError(x: real, d: nat)
    ensures Unscale(-0.5, d) <= RoundHalfEven(x, d) - x <= Unscale(0.5, d)
  {
    var n := RoundScaled(x, d) as real;
    var a := n - Scale(x, d);
    UnscaleScale(x, d);
    UnscaleSub(n, Scale(x, d), d);
    assert RoundHalfEven(x, d) - x == Unscale(a, d);
    UnscaleMonotone(-0.5, a, d);
    UnscaleMonotone(a, 0.5, d);
  }

  /** A value already on the grid is returned unchanged. */
  lemma RoundHalfEvenExact(x: real, d: nat)
    requires HasDigits(x, d)
    ensures RoundHalfEven(x, d) == x
  {
    RoundScaledExact(x, d);
    UnscaleScale(x, d);
  }

  /** The result of a rounding is on the grid, so rounding again changes nothing. */
  lemma RoundHalfEvenIdempotent(x: real, d: nat)
    ensures HasDigits(RoundHalfEven(x, d), d)
    ensures RoundHalfEven(RoundHalfEven(x, d), d) == RoundHalfEven(x, d)
  {
    var n := RoundScaled(x, d);
    var r := RoundHalfEven(x, d);
    ScaleUnscale(n as real, d);
    assert Scale(r, d) == n as real;
    RoundHalfEvenExact(r, d);
  }

  /** Rounding keeps order: a smaller amount never rounds above a larger one. */
  lemma RoundScaledMonotone(x: real, y: real, d: nat)
    requires x <= y
    ensures RoundScaled(x, d) <= RoundScaled(y, d)
  {
    ScaleMonotone(x, y, d);
    RoundToIntMonotone(Scale(x, d), Scale(y, d));
  }

  lemma RoundToIntMonotone(u: real, v: real)
    requires u <= v
    ensures RoundToInt(u) <= RoundToInt(v)
  {
    var fu := u.Floor;
    var fv := v.Floor;
    if fu == fv {
      assert u - fu as real <= v - fv as real;
    } else {
      assert fu < fv;
    }
  }

  lemma RoundHalfEvenMonotone(x: real, y: real, d: nat)
    requires x <= y
    ensures RoundHalfEven(x, d) <= RoundHalfEven(y, d)
  {
    RoundScaledMonotone(x, y, d);
    UnscaleMonotone(RoundScaled(x, d) as real, RoundScaled(y, d) as real, d);
  }

  /** The difference of two amounts on the grid is on the grid. */
  lemma DifferenceOnGrid(a: real, b: real, d: nat)
    requires HasDigits(a, d) && HasDigits(b, d)
    ensures HasDigits(a - b, d)
  {
    ScaleSub(a, b, d);
    var n := Scale(a, d).Floor - Scale(b, d).Floor;
    assert Scale(a - b, d) == n as real;
  }

  /** The smallest `k` in `[from, 17]` such that `x` has at most `k`
      fraction digits, or 17 when there is none. */
  function FractionDigits(x: real, from: nat): (k: nat)
    requires 1 <= from <= 17
    decreases 17 - from
    ensures from <= k <= 17
    ensures k < 17 ==> HasDigits(x, k)
  {
    if HasDigits(x, from) || from == 17 then from else FractionDigits(x, from + 1)
  }

  /** `s` with a `,` between every group of three digits from the right. */
  function GroupThousands(s: string): string
    decreases |s|
  {
    if |s| <= 3 then s else GroupThousands(s[..|s| - 3]) + "," + s[|s| - 3..]
  }

  /** The digits of `m / 10^k` and of `m % 10^k`, the latter padded to `k`. */
  function IntPart(m: nat, k: nat): string {
    NatToString(Quot(m, Pow10(k)))
  }

  function FracPart(m: nat, k: nat): string {
    PadNat(Rem(m, Pow10(k)), k)
  }

  /** Integer quotient and remainder, kept apart so that the solver sees
      no division inside the string functions. */
  function Quot(m: nat, p: nat): (q: nat)
    requires p >= 1
    ensures q == m / p
  {
    m / p
  }

  function Rem(m: nat, p: nat): (r: nat)
    requires p >= 1
    ensures r == m % p && r < p
  {
    m % p
  }

  /** The integer `n / 10^k` written with exactly `k` fraction digits,
      the integer part grouped in thousands when `grouped`. */
  function FixedText(n: int, k: nat, grouped: bool): string {
    var m: nat := if n < 0 then -n else n;
    var ip := IntPart(m, k);
    (if n < 0 then "-" else "") + (if grouped then GroupThousands(ip) else ip) + "." + FracPart(m, k)
  }

  /** `repr(x)` for a float with at most 17 fraction digits, at least one
      of them shown: `5.0`, `0.25`, `-12.5`. */
  function FloatRepr(x: real): string {
    var k := FractionDigits(x, 1);
    FixedText(RoundScaled(x, k), k, false)
  }

  /** `f"{x:,}"` for a float: its repr with the integer part grouped. */
  function FloatGrouped(x: real): string {
    var k := FractionDigits(x, 1);
    FixedText(RoundScaled(x, k), k, true)
  }

  /** `f"{i:,}"` for an int. */
  function IntGrouped(i: int): string {
    if i < 0 then "-" + GroupThousands(NatToString(-i)) else GroupThousands(NatToString(i))
  }

  lemma {:induction false} RemoveCharAppend(a: string, b: string, c: char)
    ensures RemoveChar(a + b, c) == RemoveChar(a, c) + RemoveChar(b, c)
    decreases |a|
  {
    if a == [] {
      assert a + b == b;
    } else {
      assert (a + b)[0] == a[0];
      assert (a + b)[1..] == a[1..] + b;
      RemoveCharAppend(a[1..], b, c);
    }
  }

  /** Removing the separators from grouped digits gives the digits back
      (the inverse `str.replace(",", "")` that the OCR code applies). */
  lemma {:induction false} GroupThousandsUngroup(s: string)
    requires ',' !in s
    ensures RemoveChar(GroupThousands(s), ',') == s
    decreases |s|
  {
    if |s| > 3 {
      var a := s[..|s| - 3];
      var b := s[|s| - 3..];
      assert s == a + b;
      var g := GroupThousands(a);
      Assoc(g, ",", b);
      assert GroupThousands(s) == g + ("," + b);
      GroupThousandsUngroup(a);
      RemoveCharAppend(g, "," + b, ',');
      RemoveCharAppend(",", b, ',');
      assert RemoveChar(",", ',') == [];
      assert RemoveChar("," + b, ',') == b;
      assert RemoveChar(GroupThousands(s), ',') == a + b;
    }
  }

  lemma WholeScaled(n: int)
    ensures FractionDigits(n as real, 1) == 1 && RoundScaled(n as real, 1) == 10 * n
  {
    var x := n as real;
    assert Scale(x, 1) == (10 * n) as real;
    assert HasDigits(x, 1);
  }

  lemma FixedTextTens(n: int, grouped: bool)
    ensures var m: nat := if n < 0 then -n else n;
            var ip := NatToString(m);
            FixedText(10 * n, 1, grouped) ==
            (if n < 0 then "-" else "") + (if grouped then GroupThousands(ip) else ip) + "." + "0"
  {
    var m: nat := if n < 0 then -n else n;
    TensQuot(m);
    TensRem(m);
    FixedTextOf(10 * n, 1, grouped, 10 * m);
  }

  lemma TensQuot(m: nat)
    ensures IntPart(10 * m, 1) == NatToString(m)
  {
    var p := Pow10(1);
    assert p == 10;
    assert Quot(10 * m, p) == m;
  }

  lemma TensRem(m: nat)
    ensures FracPart(10 * m, 1) == "0"
  {
    var p := Pow10(1);
    assert p == 10;
    assert Rem(10 * m, p) == 0;
    assert PadNat(0, 1) == "0";
  }

  /** `FixedText` in terms of the magnitude `m` of its argument. */
  lemma FixedTextOf(n: int, k: nat, grouped: bool, m: nat)
    requires m == if n < 0 then -n else n
    ensures FixedText(n, k, grouped) ==
            (if n < 0 then "-" else "") + (if grouped then GroupThousands(IntPart(m, k)) else IntPart(m, k)) +
            "." + FracPart(m, k)
  {
  }

  /** `repr` of a whole number is its digits followed by `.0`. */
  lemma FloatReprOfInt(n: int)
    ensures FloatRepr(n as real) == IntToString(n) + "." + "0"
  {
    WholeScaled(n);
    FixedTextTens(n, false);
    var x := n as real;
    assert FloatRepr(x) == FixedText(10 * n, 1, false);
    if n >= 0 {
      assert "" + NatToString(n) == NatToString(n);
    }
  }

  /** `k` digits are enough for any `n < 10^k`, so padding to `k` gives exactly `k`. */
  lemma PadNatWidth(n: nat, k: nat)
    requires k >= 1 && n < Pow10(k)
    ensures |PadNat(n, k)| == k
  {
    NatToStringLength(n, k);
  }

  lemma {:induction false} NatToStringLength(n: nat, k: nat)
    requires k >= 1 && n < Pow10(k)
    ensures |NatToString(n)| <= k
  {
    if n >= 10 {
      assert k != 1;
      assert n / 10 < Pow10(k - 1);
      NatToStringLength(n / 10, k - 1);
    }
  }
}
