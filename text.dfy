/** String helpers with Python's `str` semantics where the modelled code
    relies on them: `strip`, `lower`/`upper` (ASCII letters only),
    `in` on strings, `replace` for one character, `join` and `splitlines`. */
module Text {

  /** Python's `str.isspace()` (also what `\s` matches in a `str` regex). */
  predicate IsSpace(c: char) {
    c == ' ' || ('\t' <= c <= '\r') || ('\U{1C}' <= c <= '\U{1F}') || c == '\U{85}' ||
    c == '\U{A0}' || c == '\U{1680}' || ('\U{2000}' <= c <= '\U{200A}') ||
    c == '\U{2028}' || c == '\U{2029}' || c == '\U{202F}' || c == '\U{205F}' || c == '\U{3000}'
  }

  /** An ASCII decimal digit (what this model takes `\d` to mean). */
  predicate IsDigit(c: char) { '0' <= c <= '9' }

  function DigitValue(c: char): nat
    requires IsDigit(c)
  {
    (c as int - '0' as int) as nat
  }

  predicate AllDigits(s: string) { forall i :: 0 <= i < |s| ==> IsDigit(s[i]) }

  predicate HasDigit(s: string) { exists i :: 0 <= i < |s| && IsDigit(s[i]) }

  /** Drops the leading characters that satisfy `p`. */
  function TrimStart(s: string, p: char -> bool): (r: string)
    ensures |r| <= |s| && r == s[|s| - |r|..]
    ensures r != [] ==> !p(r[0])
    ensures forall i :: 0 <= i < |s| - |r| ==> p(s[i])
  {
    if s != [] && p(s[0]) then TrimStart(s[1..], p) else s
  }

  /** Drops the trailing characters that satisfy `p`. */
  function TrimEnd(s: string, p: char -> bool): (r: string)
    ensures |r| <= |s| && r == s[..|r|]
    ensures r != [] ==> !p(r[|r| - 1])
    ensures forall i :: |r| <= i < |s| ==> p(s[i])
  {
    if s != [] && p(s[|s| - 1]) then TrimEnd(s[..|s| - 1], p) else s
  }

  /** `s.strip(chars)` for an explicit character set. */
  function StripSet(s: string, chars: set<char>): (r: string)
    ensures r != [] ==> r[0] !in chars && r[|r| - 1] !in chars
  {
    TrimEnd(TrimStart(s, c => c in chars), c => c in chars)
  }

  /** `s.strip()`: removes surrounding whitespace. */
  function Strip(s: string): (r: string)
    ensures r != [] ==> !IsSpace(r[0]) && !IsSpace(r[|r| - 1])
    ensures |r| <= |s|
  {
    TrimEnd(TrimStart(s, IsSpace), IsSpace)
  }

  lemma {:induction false} TrimStartNoop(s: string, p: char -> bool)
    requires s == [] || !p(s[0])
    ensures TrimStart(s, p) == s
  {
  }

  lemma {:induction false} TrimEndNoop(s: string, p: char -> bool)
    requires s == [] || !p(s[|s| - 1])
    ensures TrimEnd(s, p) == s
  {
  }

  lemma StripSetNoop(s: string, chars: set<char>)
    requires s != [] && s[0] !in chars && s[|s| - 1] !in chars
    ensures StripSet(s, chars) == s
  {
    var t := TrimStart(s, c => c in chars);
    assert |t| == |s|;
    var r := TrimEnd(t, c => c in chars);
    assert |r| == |t|;
  }

  lemma StripNoop(s: string)
    requires s != [] && !IsSpace(s[0]) && !IsSpace(s[|s| - 1])
    ensures Strip(s) == s
  {
    TrimStartNoop(s, IsSpace);
    TrimEndNoop(s, IsSpace);
  }

  lemma IndexOfCharAt(s: string, c: char, i: nat, k: nat)
    requires i <= k < |s| && s[k] == c
    requires forall j :: i <= j < k ==> s[j] != c
    ensures IndexOfChar(s, c, i) == k
    decreases k - i
  {
    if i < k {
      IndexOfCharAt(s, c, i + 1, k);
    }
  }

  /** Stripping twice is stripping once. */
  lemma StripIdempotent(s: string)
    ensures Strip(Strip(s)) == Strip(s)
  {
    var r := Strip(s);
    TrimStartNoop(r, IsSpace);
    TrimEndNoop(r, IsSpace);
  }

  function LowerChar(c: char): char {
    if 'A' <= c <= 'Z' then (c as int + 32) as char else c
  }

  function UpperChar(c: char): char {
    if 'a' <= c <= 'z' then (c as int - 32) as char else c
  }

  /** `s.lower()` on ASCII letters. */
  function Lower(s: string): (r: string)
    ensures |r| == |s| && forall i :: 0 <= i < |s| ==> r[i] == LowerChar(s[i])
  {
    seq(|s|, i requires 0 <= i < |s| => LowerChar(s[i]))
  }

  /** `s.upper()` on ASCII letters. */
  function Upper(s: string): (r: string)
    ensures |r| == |s| && forall i :: 0 <= i < |s| ==> r[i] == UpperChar(s[i])
  {
    seq(|s|, i requires 0 <= i < |s| => UpperChar(s[i]))
  }

  /** `s.capitalize()` on ASCII letters: first character upper-cased, the rest lower-cased. */
  function Capitalize(s: string): (r: string)
    ensures |r| == |s|
    ensures s != [] ==> r[0] == UpperChar(s[0]) && r[1..] == Lower(s[1..])
  {
    if s == [] then [] else [UpperChar(s[0])] + Lower(s[1..])
  }

  lemma LowerIdempotent(s: string)
    ensures Lower(Lower(s)) == Lower(s)
  {
  }

  /** Case-insensitive equality of two characters (ASCII letters fold). */
  predicate EqualsIgnoreCase(a: string, b: string) {
    Lower(a) == Lower(b)
  }

  /** `sub` occurs in `s` starting at index `i`. */
  predicate OccursAt(s: string, sub: string, i: nat) {
    i + |sub| <= |s| && s[i..i + |sub|] == sub
  }

  /** Index of the first occurrence of `sub` in `s` at or after `from`. */
  function FindFrom(s: string, sub: string, from: nat): (r: Option<nat>)
    decreases |s| - from
    ensures r.Some? ==> from <= r.value && OccursAt(s, sub, r.value)
    ensures r.Some? ==> forall j :: from <= j < r.value ==> !OccursAt(s, sub, j)
    ensures r.None? ==> forall j :: from <= j ==> !OccursAt(s, sub, j)
  {
    if from + |sub| > |s| then None
    else if s[from..from + |sub|] == sub then Some(from)
    else FindFrom(s, sub, from + 1)
  }

  /** Python's `sub in s`. */
  predicate Contains(s: string, sub: string) {
    FindFrom(s, sub, 0).Some?
  }

  lemma ContainsIff(s: string, sub: string)
    ensures Contains(s, sub) <==> exists i: nat :: OccursAt(s, sub, i)
  {
    var r := FindFrom(s, sub, 0);
    if r.Some? {
      assert OccursAt(s, sub, r.value);
    }
  }

  /** `s.replace(c, rep)` where the pattern is one character. */
  function ReplaceChar(s: string, c: char, rep: string): (r: string)
    ensures c !in rep ==> c !in r
    ensures c !in s ==> r == s
  {
    if s == [] then []
    else (if s[0] == c then rep else [s[0]]) + ReplaceChar(s[1..], c, rep)
  }

  /** `s.replace(c, "")`. */
  function RemoveChar(s: string, c: char): (r: string)
    ensures c !in r && |r| <= |s|
    ensures forall x :: x in r ==> x in s
    ensures c !in s ==> r == s
  {
    if s == [] then []
    else (if s[0] == c then [] else [s[0]]) + RemoveChar(s[1..], c)
  }

  /** `sep.join(parts)`. */
  function Join(sep: string, parts: seq<string>): string {
    if parts == [] then []
    else if |parts| == 1 then parts[0]
    else parts[0] + sep + Join(sep, parts[1..])
  }

  /** The characters at which `str.splitlines()` breaks a line. */
  predicate IsLineBoundary(c: char) {
    c == '\n' || c == '\r' || c == '\U{0B}' || c == '\U{0C}' || ('\U{1C}' <= c <= '\U{1E}') ||
    c == '\U{85}' || c == '\U{2028}' || c == '\U{2029}'
  }

  function FirstBoundary(s: string, i: nat): (k: nat)
    requires i <= |s|
    decreases |s| - i
    ensures i <= k <= |s| && (k < |s| ==> IsLineBoundary(s[k]))
    ensures forall j :: i <= j < k ==> !IsLineBoundary(s[j])
  {
    if i == |s| || IsLineBoundary(s[i]) then i else FirstBoundary(s, i + 1)
  }

  /** `s.splitlines()`: `"\r\n"` is one break, a final break adds no empty line. */
  function SplitLines(s: string): (lines: seq<string>)
    decreases |s|
    ensures forall k, j :: 0 <= k < |lines| && 0 <= j < |lines[k]| ==> !IsLineBoundary(lines[k][j])
    ensures s == [] <==> lines == []
  {
    if s == [] then []
    else
      var k := FirstBoundary(s, 0);
      if k == |s| then [s]
      else
        var next := if s[k] == '\r' && k + 1 < |s| && s[k + 1] == '\n' then k + 2 else k + 1;
        [s[..k]] + SplitLines(s[next..])
  }

  /** Text with no line boundary is one line. */
  lemma SingleLine(s: string)
    requires s != [] && forall j :: 0 <= j < |s| ==> !IsLineBoundary(s[j])
    ensures SplitLines(s) == [s]
  {
    assert FirstBoundary(s, 0) == |s|;
  }

  /** Index of the first `c` in `s` at or after `i`, or `|s|` if none. */
  function IndexOfChar(s: string, c: char, i: nat): (k: nat)
    requires i <= |s|
    decreases |s| - i
    ensures i <= k <= |s| && (k < |s| ==> s[k] == c)
    ensures forall j :: i <= j < k ==> s[j] != c
  {
    if i == |s| || s[i] == c then i else IndexOfChar(s, c, i + 1)
  }

  /** Splits `s` at every occurrence of `c` (Python's `s.split(c)`). */
  function SplitOn(s: string, c: char): (parts: seq<string>)
    decreases |s|
    ensures |parts| >= 1
    ensures forall k :: 0 <= k < |parts| ==> c !in parts[k]
  {
    var k := IndexOfChar(s, c, 0);
    if k == |s| then [s] else [s[..k]] + SplitOn(s[k + 1..], c)
  }

  /** Text without the separator splits into itself. */
  lemma SplitOnAbsent(s: string, c: char)
    requires c !in s
    ensures SplitOn(s, c) == [s]
  {
  }

  /** Concatenation regrouped, stated once so that callers need not
      reason about sequence extensionality. */
  lemma Assoc<T>(a: seq<T>, b: seq<T>, c: seq<T>)
    ensures a + b + c == a + (b + c)
  {
  }

  /** `[f(x) for x in xs]`. */
  function MapSeq<A, B>(xs: seq<A>, f: A -> B): (r: seq<B>)
    ensures |r| == |xs| && forall i :: 0 <= i < |xs| ==> r[i] == f(xs[i])
  {
    seq(|xs|, i requires 0 <= i < |xs| => f(xs[i]))
  }

  /** Mapping a prefix gives the prefix of the mapping. */
  lemma MapSeqPrefix<A, B>(xs: seq<A>, f: A -> B, n: nat)
    requires n <= |xs|
    ensures MapSeq(xs[..n], f) == MapSeq(xs, f)[..n]
  {
  }

  /** Appending the next element keeps a sequence an initial part of `all`. */
  lemma AgreeSnoc<T>(cs: seq<T>, all: seq<T>, x: T)
    requires |cs| < |all| && x == all[|cs|]
    requires forall j :: 0 <= j < |cs| ==> cs[j] == all[j]
    ensures forall j :: 0 <= j < |cs + [x]| ==> (cs + [x])[j] == all[j]
  {
  }

  import opened Wrappers
}
