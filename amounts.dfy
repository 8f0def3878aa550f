/** Monetary amounts read from OCR spans: the spans are cut into tokens,
    every number in a token becomes a candidate for the total, the
    subtotal and the tax, candidates are scored by nearby keywords, and
    the best of each kind is chosen, with a total implied from subtotal
    and tax when none is found and a penalty for an inconsistent total.

    Unicode NFKC normalisation is a parameter `nfkc`; amounts are integer
    yen and scores exact reals. */
module Amounts {
  import opened Wrappers
  import opened Text
  import opened Numbers
  import opened Sorting
  import opened Scan
  import R = Recognize

  const TotalKeywords: seq<string> :=
    ["合計", "総合計", "請求金額", "お支払金額", "お支払い金額", "合計金額", "税込", "請求額"]
  const SubtotalKeywords: seq<string> := ["小計", "税抜", "税別", "小計金額"]
  const TaxKeywords: seq<string> := ["税", "消費税", "内税", "外税", "税額", "消費税額"]

  /** The three kinds of amount, with the name the source uses as `label` and `type`. */
  datatype Label = Total | Subtotal | Tax {
    function Name(): string {
      match this
      case Total => "total"
      case Subtotal => "subtotal"
      case Tax => "tax"
    }

    function Keywords(): seq<string> {
      match this
      case Total => TotalKeywords
      case Subtotal => SubtotalKeywords
      case Tax => TaxKeywords
    }
  }

  /** `Token`: one non-blank line of a span with its share of the box. */
  datatype Token = Token(text: string, normalized: string, x: real, y: real, width: real, height: real, span: R.Span) {
    /** `rightness`: the horizontal centre. */
    function Rightness(): real {
      x + width / 2.0
    }
  }

  // ---- _normalize ----

  lemma ReplaceKeepsOut(s: string, c: char, rep: string, d: char)
    requires d !in s && d !in rep
    ensures d !in ReplaceChar(s, c, rep)
  {
    if s != [] {
      ReplaceKeepsOut(s[1..], c, rep, d);
    }
  }

  /** `_normalize`: NFKC, then the full-width comma and full stop and the
      full-width yen sign become `,`, `.` and `¥` (the other two entries of
      the table map a character to itself). */
  function Normalize(nfkc: string -> string, text: string): (r: string)
    ensures '\U{FF0C}' !in r && '\U{FF0E}' !in r && '\U{FFE5}' !in r
  {
    var a := ReplaceChar(nfkc(text), '\U{FF0C}', ",");
    var b := ReplaceChar(a, '\U{FF0E}', ".");
    ReplaceKeepsOut(a, '\U{FF0E}', ".", '\U{FF0C}');
    ReplaceKeepsOut(b, '\U{FFE5}', "\U{A5}", '\U{FF0C}');
    ReplaceKeepsOut(b, '\U{FFE5}', "\U{A5}", '\U{FF0E}');
    ReplaceChar(b, '\U{FFE5}', "\U{A5}")
  }

  // ---- _tokenize ----

  /** The box of a span, four zero corners when it has none. */
  function Box(span: R.Span): (b: seq<R.Point>)
    ensures b != []
  {
    if span.bbox == [] then [(0, 0), (0, 0), (0, 0), (0, 0)] else span.bbox
  }

  function MinOf(xs: seq<int>): (m: int)
    requires xs != []
    ensures m in xs && forall i :: 0 <= i < |xs| ==> m <= xs[i]
  {
    if |xs| == 1 then xs[0]
    else
      var m := MinOf(xs[1..]);
      assert m in xs;
      if xs[0] <= m then xs[0] else m
  }

  function MaxOf(xs: seq<int>): (m: int)
    requires xs != []
    ensures m in xs && forall i :: 0 <= i < |xs| ==> xs[i] <= m
  {
    if |xs| == 1 then xs[0]
    else
      var m := MaxOf(xs[1..]);
      assert m in xs;
      if xs[0] >= m then xs[0] else m
  }

  function Xs(b: seq<R.Point>): (r: seq<int>)
    ensures |r| == |b| && forall i :: 0 <= i < |b| ==> r[i] == b[i].0
  {
    seq(|b|, i requires 0 <= i < |b| => b[i].0)
  }

  function Ys(b: seq<R.Point>): (r: seq<int>)
    ensures |r| == |b| && forall i :: 0 <= i < |b| ==> r[i] == b[i].1
  {
    seq(|b|, i requires 0 <= i < |b| => b[i].1)
  }

  /** `base_x`, `base_y`, `width` and `height` of a span's box. */
  datatype Frame = Frame(baseX: int, baseY: int, width: int, height: int)

  function FrameOf(span: R.Span): (f: Frame)
    ensures f.width >= 0 && f.height >= 0
  {
    var xs := Xs(Box(span));
    var ys := Ys(Box(span));
    Frame(MinOf(xs), MinOf(ys), MaxOf(xs) - MinOf(xs), MaxOf(ys) - MinOf(ys))
  }

  /** `span.text.splitlines() or [span.text]`. */
  function Parts(text: string): (p: seq<string>)
    ensures |p| >= 1
  {
    var lines := SplitLines(text);
    if lines == [] then [text] else lines
  }

  /** The token of part `i` of `parts`: the stripped line with the box's
      left edge and width and an equal slice of its height. */
  function PartToken(nfkc: string -> string, span: R.Span, parts: seq<string>, i: nat): Option<Token>
    requires i < |parts|
  {
    var text := Strip(parts[i]);
    if text == [] then None
    else
      var f := FrameOf(span);
      var n := |parts| as real;
      Some(Token(text, Normalize(nfkc, text), f.baseX as real,
                 f.baseY as real + (f.height as real / n) * i as real,
                 f.width as real, f.height as real / n, span))
  }

  function Indices(n: nat): (r: seq<nat>)
    ensures |r| == n && forall i :: 0 <= i < n ==> r[i] == i
  {
    seq(n, i requires 0 <= i < n => i)
  }

  /** The token of each line index of a span. */
  function PartFn(nfkc: string -> string, span: R.Span, parts: seq<string>): nat -> Option<Token> {
    (i: nat) => if i < |parts| then PartToken(nfkc, span, parts, i) else None
  }

  /** The tokens of one span, in line order. */
  function SpanTokens(nfkc: string -> string, span: R.Span): seq<Token> {
    var parts := Parts(span.text);
    R.Kept(Indices(|parts|), PartFn(nfkc, span, parts))
  }

  /** `_tokenize(spans)`. */
  function AllTokens(nfkc: string -> string, spans: seq<R.Span>): seq<Token> {
    if spans == [] then []
    else AllTokens(nfkc, spans[..|spans| - 1]) + SpanTokens(nfkc, spans[|spans| - 1])
  }

  /** `_tokenize`, outer loop. */
  method Tokenize(nfkc: string -> string, spans: seq<R.Span>) returns (tokens: seq<Token>)
    ensures tokens == AllTokens(nfkc, spans)
  {
    tokens := [];
    var i := 0;
    while i < |spans|
      invariant 0 <= i <= |spans|
      invariant tokens == AllTokens(nfkc, spans[..i])
    {
      assert spans[..i + 1][..i] == spans[..i];
      var more := TokenizeSpan(nfkc, spans[i]);
      tokens := tokens + more;
      i := i + 1;
    }
    assert spans[..i] == spans;
  }

  /** `_tokenize`, inner loop over the lines of one span. */
  method TokenizeSpan(nfkc: string -> string, span: R.Span) returns (tokens: seq<Token>)
    ensures tokens == SpanTokens(nfkc, span)
  {
    var parts := Parts(span.text);
    var f := PartFn(nfkc, span, parts);
    var xs := Indices(|parts|);
    tokens := [];
    var index := 0;
    while index < |parts|
      invariant 0 <= index <= |parts|
      invariant tokens == R.Kept(xs[..index], f)
    {
      R.KeptStep(xs, f, index);
      var t := PartToken(nfkc, span, parts, index);
      assert f(xs[index]) == t;
      if t.Some? {
        tokens := tokens + [t.value];
      }
      index := index + 1;
    }
    assert xs[..index] == xs;
  }

  /** The shape every token has. */
  predicate TokenOfPart(nfkc: string -> string, t: Token, span: R.Span, parts: seq<string>, i: nat) {
    i < |parts| && t.text == Strip(parts[i]) && t.text != [] && t.span == span &&
    t.normalized == Normalize(nfkc, t.text) && t.width >= 0.0 && t.height >= 0.0
  }

  lemma PartTokenShape(nfkc: string -> string, span: R.Span, parts: seq<string>, i: nat, t: Token)
    requires i < |parts| && PartToken(nfkc, span, parts, i) == Some(t)
    ensures TokenOfPart(nfkc, t, span, parts, i)
  {
    var f := FrameOf(span);
    QuotientNonneg(f.height as real, |parts| as real);
  }

  lemma QuotientNonneg(a: real, n: real)
    requires a >= 0.0 && n >= 1.0
    ensures a / n >= 0.0
  {
  }

  lemma SpanTokensShape(nfkc: string -> string, span: R.Span, t: Token)
    requires t in SpanTokens(nfkc, span)
    ensures exists i :: 0 <= i < |Parts(span.text)| && TokenOfPart(nfkc, t, span, Parts(span.text), i)
  {
    var parts := Parts(span.text);
    var xs := Indices(|parts|);
    R.KeptSound(xs, PartFn(nfkc, span, parts), t);
    var k :| 0 <= k < |xs| && PartFn(nfkc, span, parts)(xs[k]) == Some(t);
    assert xs[k] == k;
    PartTokenShape(nfkc, span, parts, k, t);
  }

  lemma SpanTokensComplete(nfkc: string -> string, span: R.Span, i: nat)
    requires i < |Parts(span.text)| && Strip(Parts(span.text)[i]) != []
    ensures PartToken(nfkc, span, Parts(span.text), i).Some?
    ensures PartToken(nfkc, span, Parts(span.text), i).value in SpanTokens(nfkc, span)
  {
    var parts := Parts(span.text);
    var xs := Indices(|parts|);
    assert PartFn(nfkc, span, parts)(xs[i]) == PartToken(nfkc, span, parts, i);
    R.KeptComplete(xs, PartFn(nfkc, span, parts), i);
  }

  /** Every token is a stripped non-blank line of one of the spans, with
      its normalised text and a box of non-negative size: blank lines make
      no token. */
  lemma {:induction false} TokensSound(nfkc: string -> string, spans: seq<R.Span>, t: Token)
    requires t in AllTokens(nfkc, spans)
    ensures t.span in spans
    ensures exists i :: 0 <= i < |Parts(t.span.text)| && TokenOfPart(nfkc, t, t.span, Parts(t.span.text), i)
  {
    var last := spans[|spans| - 1];
    if t in AllTokens(nfkc, spans[..|spans| - 1]) {
      TokensSound(nfkc, spans[..|spans| - 1], t);
    } else {
      SpanTokensShape(nfkc, last, t);
    }
  }

  /** Every non-blank line of every span makes a token. */
  lemma {:induction false} TokensComplete(nfkc: string -> string, spans: seq<R.Span>, k: nat, i: nat)
    requires k < |spans| && i < |Parts(spans[k].text)| && Strip(Parts(spans[k].text)[i]) != []
    ensures PartToken(nfkc, spans[k], Parts(spans[k].text), i).Some?
    ensures PartToken(nfkc, spans[k], Parts(spans[k].text), i).value in AllTokens(nfkc, spans)
  {
    SpanTokensComplete(nfkc, spans[k], i);
    if k < |spans| - 1 {
      TokensComplete(nfkc, spans[..|spans| - 1], k, i);
    }
  }

  // ---- NUMBER_PATTERN ----

  /** One match of `(?<!\d)(\d{1,3}(?:,\d{3})+|\d+)(?:\.(\d{1,2}))?`: the
      integer group is `start..intEnd`, the fraction group (when present)
      `intEnd + 1..end`. */
  datatype NumberMatch = NumberMatch(start: nat, intEnd: nat, end: nat)

  /** `(?:,\d{3})*`, greedy, from `p`. */
  function GroupsEnd(s: string, p: nat): (e: nat)
    requires p <= |s|
    ensures p <= e <= |s|
    ensures forall j :: p <= j < e ==> IsDigit(s[j]) || s[j] == ','
    decreases |s| - p
  {
    if p + 4 <= |s| && s[p] == ',' && IsDigit(s[p + 1]) && IsDigit(s[p + 2]) && IsDigit(s[p + 3])
    then GroupsEnd(s, p + 4)
    else p
  }

  /** The end of the integer group from a digit at `i`: a run of one to
      three digits followed by at least one `,ddd` group takes the groups;
      otherwise the whole digit run. (With more than three digits, or fewer
      than the run, a comma cannot follow, so these are the only cases.) */
  function IntegerEnd(s: string, i: nat): (e: nat)
    requires i < |s| && IsDigit(s[i])
    ensures i < e <= |s|
    ensures forall j :: i <= j < e ==> IsDigit(s[j]) || s[j] == ','
  {
    var d := SkipDigits(s, i);
    if d - i <= 3 && GroupsEnd(s, d) > d then GroupsEnd(s, d) else d
  }

  /** `(?:\.(\d{1,2}))?` from `e`. */
  function FractionEnd(s: string, e: nat): (f: nat)
    requires e <= |s|
    ensures f == e || (e + 2 <= f <= e + 3 && f <= |s| && s[e] == '.' && AllDigits(s[e + 1..f]))
  {
    if e + 1 < |s| && s[e] == '.' && IsDigit(s[e + 1]) then
      if e + 2 < |s| && IsDigit(s[e + 2]) then e + 3 else e + 2
    else e
  }

  /** A match may start at `i`: a digit not preceded by a digit. */
  predicate StartsNumber(s: string, i: nat) {
    i < |s| && IsDigit(s[i]) && (i == 0 || !IsDigit(s[i - 1]))
  }

  /** A well-formed match of the pattern against `s`. */
  predicate ValidMatch(s: string, m: NumberMatch) {
    StartsNumber(s, m.start) && m.start < m.intEnd <= m.end <= |s| &&
    (forall j :: m.start <= j < m.intEnd ==> IsDigit(s[j]) || s[j] == ',') &&
    (m.end == m.intEnd || (m.end >= m.intEnd + 2 && s[m.intEnd] == '.' && AllDigits(s[m.intEnd + 1..m.end])))
  }

  function MatchAt(s: string, i: nat): (m: NumberMatch)
    requires StartsNumber(s, i)
    ensures ValidMatch(s, m) && m.start == i
  {
    var e := IntegerEnd(s, i);
    NumberMatch(i, e, FractionEnd(s, e))
  }

  /** Match `k + 1` starts at or after the end of match `k`. */
  predicate Precedes(ms: seq<NumberMatch>, k: nat)
    requires k + 1 < |ms|
  {
    ms[k].end <= ms[k + 1].start
  }

  /** `NUMBER_PATTERN.finditer(s)` from position `i`: the leftmost match,
      then the search resumes where it ended. */
  function Matches(s: string, i: nat): seq<NumberMatch>
    requires i <= |s|
    decreases |s| - i
  {
    if i == |s| then []
    else if StartsNumber(s, i) then [MatchAt(s, i)] + Matches(s, MatchAt(s, i).end)
    else Matches(s, i + 1)
  }

  /** Every match is a well-formed match of the pattern at or after `i`. */
  lemma {:induction false} MatchesValid(s: string, i: nat)
    requires i <= |s|
    ensures forall k :: 0 <= k < |Matches(s, i)| ==> ValidMatch(s, Matches(s, i)[k]) && i <= Matches(s, i)[k].start
    decreases |s| - i
  {
    if i < |s| {
      if StartsNumber(s, i) {
        var m := MatchAt(s, i);
        MatchesValid(s, m.end);
        var ms := Matches(s, i);
        forall k | 0 <= k < |ms|
          ensures ValidMatch(s, ms[k]) && i <= ms[k].start
        {
          if k > 0 {
            assert ms[k] == Matches(s, m.end)[k - 1];
          }
        }
      } else {
        MatchesValid(s, i + 1);
      }
    }
  }

  lemma FirstMatchAfter(s: string, i: nat)
    requires i <= |s|
    ensures Matches(s, i) != [] ==> i <= Matches(s, i)[0].start
  {
    MatchesValid(s, i);
  }

  /** The matches do not overlap and come in text order. */
  lemma {:induction false} MatchesOrdered(s: string, i: nat)
    requires i <= |s|
    ensures forall k :: 0 <= k < |Matches(s, i)| - 1 ==> Precedes(Matches(s, i), k)
    decreases |s| - i
  {
    if i < |s| {
      if StartsNumber(s, i) {
        var m := MatchAt(s, i);
        var rest := Matches(s, m.end);
        FirstMatchAfter(s, m.end);
        MatchesOrdered(s, m.end);
        var ms := Matches(s, i);
        assert ms == [m] + rest;
        forall k | 0 <= k < |ms| - 1
          ensures Precedes(ms, k)
        {
          assert ms[k + 1] == rest[k];
          if k > 0 {
            assert ms[k] == rest[k - 1];
            assert Precedes(rest, k - 1);
          }
        }
      } else {
        MatchesOrdered(s, i + 1);
      }
    }
  }

  /** Finditer finds nothing exactly when no digit can start a number. */
  lemma {:induction false} MatchesEmpty(s: string, i: nat)
    requires i <= |s|
    ensures Matches(s, i) == [] <==> forall j :: i <= j < |s| ==> !StartsNumber(s, j)
    decreases |s| - i
  {
    if i < |s| && !StartsNumber(s, i) {
      MatchesEmpty(s, i + 1);
    }
  }

  /** The first digit of any text starts a number. */
  lemma {:induction false} FirstDigitStarts(s: string, j: nat)
    requires j < |s| && IsDigit(s[j])
    ensures exists k :: 0 <= k <= j && StartsNumber(s, k)
  {
    if !StartsNumber(s, j) {
      FirstDigitStarts(s, j - 1);
    }
  }

  /** A token yields a number exactly when it holds a digit. */
  lemma MatchesIffDigit(s: string)
    ensures Matches(s, 0) != [] <==> HasDigit(s)
  {
    MatchesEmpty(s, 0);
    if HasDigit(s) {
      var j :| 0 <= j < |s| && IsDigit(s[j]);
      FirstDigitStarts(s, j);
    }
  }

  lemma DigitsOnly(t: string)
    requires forall j :: 0 <= j < |t| ==> IsDigit(t[j]) || t[j] == ','
    ensures AllDigits(RemoveChar(t, ','))
  {
    var r := RemoveChar(t, ',');
    forall j | 0 <= j < |r|
      ensures IsDigit(r[j])
    {
      assert r[j] in r;
      var k :| 0 <= k < |t| && t[k] == r[j];
    }
  }

  /** The integer group's digits, commas removed. */
  function IntegerDigits(s: string, m: NumberMatch): (d: string)
    requires ValidMatch(s, m)
    ensures AllDigits(d)
  {
    var t := s[m.start..m.intEnd];
    assert forall j :: 0 <= j < |t| ==> t[j] == s[m.start + j];
    DigitsOnly(t);
    RemoveChar(t, ',')
  }

  /** The number the match stands for, before rounding. */
  function MatchReal(s: string, m: NumberMatch): (v: real)
    requires ValidMatch(s, m)
    ensures v >= 0.0
  {
    var ip := ParseDigits(IntegerDigits(s, m));
    if m.end == m.intEnd then ip as real else DecimalValue(IntegerDigits(s, m), s[m.intEnd + 1..m.end])
  }

  /** `_parse_number`: the integer group without commas, and with a
      fraction `int(round(value + 0.fraction))`, ties to even. */
  function ParseNumber(s: string, m: NumberMatch): (value: int)
    requires ValidMatch(s, m)
  {
    var ip := ParseDigits(IntegerDigits(s, m));
    if m.end == m.intEnd then ip else RoundToInt(MatchReal(s, m))
  }

  /** No sign is matched, so every value is at least 0; it is the matched
      number rounded to the nearest integer, a tie going to the even one. */
  lemma ParseNumberRounds(s: string, m: NumberMatch)
    requires ValidMatch(s, m)
    ensures var v := ParseNumber(s, m);
      var x := MatchReal(s, m);
      v >= 0 && -0.5 <= v as real - x <= 0.5 &&
      (v as real - x == 0.5 || v as real - x == -0.5 ==> v % 2 == 0) &&
      (m.end == m.intEnd ==> v as real == x)
  {
    var x := MatchReal(s, m);
    if m.end != m.intEnd {
      RoundToIntTie(x);
    }
  }

  lemma RoundToIntTie(y: real)
    requires y >= 0.0
    ensures RoundToInt(y) >= 0
    ensures RoundToInt(y) as real - y == 0.5 || RoundToInt(y) as real - y == -0.5 ==> RoundToInt(y) % 2 == 0
  {
  }

  // ---- _find_keyword_score ----

  /** How many of the keywords the text contains. */
  function Hits(text: string, keywords: seq<string>): (n: nat)
    ensures n <= |keywords|
  {
    if keywords == [] then 0
    else Hits(text, keywords[..|keywords| - 1]) + (if Contains(text, keywords[|keywords| - 1]) then 1 else 0)
  }

  /** No hit exactly when the text contains none of the keywords. */
  lemma {:induction false} HitsZero(text: string, keywords: seq<string>)
    ensures Hits(text, keywords) == 0 <==> !AnyKeyword(text, keywords)
  {
    if keywords != [] {
      var n := |keywords| - 1;
      HitsZero(text, keywords[..n]);
      if AnyKeyword(text, keywords[..n]) {
        var k :| 0 <= k < n && Contains(text, keywords[..n][k]);
        assert keywords[k] == keywords[..n][k];
      }
      if AnyKeyword(text, keywords) {
        var k :| 0 <= k < |keywords| && Contains(text, keywords[k]);
        if k < n {
          assert keywords[..n][k] == keywords[k];
        }
      }
    }
  }

  predicate AnyKeyword(text: string, keywords: seq<string>) {
    exists k :: 0 <= k < |keywords| && Contains(text, keywords[k])
  }

  /** The squared distance between two tokens (ordering by it is ordering by `math.hypot`). */
  function Distance2(t: Token, o: Token): real {
    (t.x - o.x) * (t.x - o.x) + (t.y - o.y) * (t.y - o.y)
  }

  function Closer(t: Token): (Token, Token) -> bool {
    (a: Token, b: Token) => Distance2(t, a) <= Distance2(t, b)
  }

  lemma CloserTotal(t: Token)
    ensures TotalPreorder(Closer(t))
  {
  }

  function Take<T>(s: seq<T>, n: nat): (r: seq<T>)
    ensures |r| <= n && |r| <= |s| && r == s[..|r|]
    ensures |s| >= n ==> |r| == n
  {
    if |s| <= n then s else s[..n]
  }

  /** The five nearest neighbours, nearest first (stable on ties). */
  function Nearest(t: Token, neighbours: seq<Token>): seq<Token> {
    Take(Sort(neighbours, Closer(t)), 5)
  }

  /** What the neighbour at rank `idx` adds: `1.2 / (idx + 1)` when it
      contains a keyword. */
  function RankBonus(o: Token, keywords: seq<string>, idx: nat): (b: real)
    ensures b >= 0.0 && (b > 0.0 <==> AnyKeyword(o.normalized, keywords))
  {
    if AnyKeyword(o.normalized, keywords) then 1.2 / (idx + 1) as real else 0.0
  }

  function NeighbourScore(ranked: seq<Token>, keywords: seq<string>): (s: real)
    ensures s >= 0.0
  {
    if ranked == [] then 0.0
    else
      var n := |ranked| - 1;
      NeighbourScore(ranked[..n], keywords) + RankBonus(ranked[n], keywords, n)
  }

  /** The neighbours add something exactly when one of them holds a keyword. */
  lemma {:induction false} NeighbourScorePositive(ranked: seq<Token>, keywords: seq<string>)
    ensures NeighbourScore(ranked, keywords) > 0.0 <==>
      exists j :: 0 <= j < |ranked| && AnyKeyword(ranked[j].normalized, keywords)
  {
    if ranked != [] {
      var n := |ranked| - 1;
      NeighbourScorePositive(ranked[..n], keywords);
      if exists j :: 0 <= j < n && AnyKeyword(ranked[..n][j].normalized, keywords) {
        var j :| 0 <= j < n && AnyKeyword(ranked[..n][j].normalized, keywords);
        assert ranked[j] == ranked[..n][j];
      }
      if exists j :: 0 <= j < |ranked| && AnyKeyword(ranked[j].normalized, keywords) {
        var j :| 0 <= j < |ranked| && AnyKeyword(ranked[j].normalized, keywords);
        if j < n {
          assert ranked[..n][j] == ranked[j];
        }
      }
    }
  }

  /** `_find_keyword_score(token, neighbours, keywords)`. */
  function KeywordScore(t: Token, neighbours: seq<Token>, keywords: seq<string>): real {
    1.5 * Hits(t.normalized, keywords) as real + NeighbourScore(Nearest(t, neighbours), keywords)
  }

  /** The keyword score is never negative, and it is positive exactly when
      the token or one of its five nearest neighbours contains a keyword. */
  lemma KeywordScoreSign(t: Token, neighbours: seq<Token>, keywords: seq<string>)
    ensures KeywordScore(t, neighbours, keywords) >= 0.0
    ensures KeywordScore(t, neighbours, keywords) > 0.0 <==>
      AnyKeyword(t.normalized, keywords) ||
      exists j :: 0 <= j < |Nearest(t, neighbours)| && AnyKeyword(Nearest(t, neighbours)[j].normalized, keywords)
  {
    HitsZero(t.normalized, keywords);
    NeighbourScorePositive(Nearest(t, neighbours), keywords);
  }

  /** The ranked neighbours are neighbours, at most five, nearest first,
      and none left out is nearer than one kept. */
  lemma NearestAreNearest(t: Token, neighbours: seq<Token>)
    ensures var near := Nearest(t, neighbours);
      var sorted := Sort(neighbours, Closer(t));
      |near| == (if |neighbours| < 5 then |neighbours| else 5) &&
      (forall j :: 0 <= j < |near| ==> near[j] in neighbours) &&
      (forall i, j :: 0 <= i < |near| && |near| <= j < |sorted| ==> Distance2(t, near[i]) <= Distance2(t, sorted[j]))
  {
    var sorted := Sort(neighbours, Closer(t));
    CloserTotal(t);
    SortSorted(neighbours, Closer(t));
    var near := Nearest(t, neighbours);
    forall j | 0 <= j < |near|
      ensures near[j] in neighbours
    {
      assert near[j] == sorted[j];
      assert near[j] in multiset(sorted);
    }
    forall i, j | 0 <= i < |near| && |near| <= j < |sorted|
      ensures Distance2(t, near[i]) <= Distance2(t, sorted[j])
    {
      assert near[i] == sorted[i];
      SortedPairwise(sorted, Closer(t), i, j);
    }
  }

  /** `_find_keyword_score`, with its loops. */
  method FindKeywordScore(t: Token, neighbours: seq<Token>, keywords: seq<string>) returns (score: real)
    ensures score == KeywordScore(t, neighbours, keywords)
  {
    var own := OwnScore(t.normalized, keywords);
    var near := NeighbourLoop(Nearest(t, neighbours), keywords);
    score := own + near;
  }

  /** The first loop: 1.5 for each keyword in the token itself. */
  method OwnScore(text: string, keywords: seq<string>) returns (score: real)
    ensures score == 1.5 * Hits(text, keywords) as real
  {
    score := 0.0;
    var k := 0;
    while k < |keywords|
      invariant 0 <= k <= |keywords|
      invariant score == 1.5 * Hits(text, keywords[..k]) as real
    {
      assert keywords[..k + 1][..k] == keywords[..k];
      if Contains(text, keywords[k]) {
        score := score + 1.5;
      }
      k := k + 1;
    }
    assert keywords[..k] == keywords;
  }

  /** The second loop, over the ranked neighbours. */
  method NeighbourLoop(near: seq<Token>, keywords: seq<string>) returns (score: real)
    ensures score == NeighbourScore(near, keywords)
  {
    score := 0.0;
    var idx := 0;
    while idx < |near|
      invariant 0 <= idx <= |near|
      invariant score == NeighbourScore(near[..idx], keywords)
    {
      assert near[..idx + 1][..idx] == near[..idx];
      var hit := HasKeyword(near[idx].normalized, keywords);
      if hit {
        score := score + 1.2 / (idx + 1) as real;
      }
      idx := idx + 1;
    }
    assert near[..idx] == near;
  }

  /** The inner `for keyword in keywords: if keyword in ...: break`. */
  method HasKeyword(text: string, keywords: seq<string>) returns (hit: bool)
    ensures hit == AnyKeyword(text, keywords)
  {
    var k := 0;
    while k < |keywords| && !Contains(text, keywords[k])
      invariant 0 <= k <= |keywords|
      invariant forall j :: 0 <= j < k ==> !Contains(text, keywords[j])
    {
      k := k + 1;
    }
    hit := k < |keywords|;
  }

  // ---- candidates ----

  /** `AmountCandidate`. */
  datatype AmountCandidate = AmountCandidate(value: int, score: real, token: Token, category: Label, hasKeyword: bool)

  /** The candidate one match gives: score 1.0, plus 3.0 and the keyword
      score when that is positive. */
  function CandidateOf(s: string, m: NumberMatch, t: Token, category: Label, ks: real): AmountCandidate
    requires ValidMatch(s, m)
  {
    AmountCandidate(ParseNumber(s, m), if ks > 0.0 then 1.0 + (3.0 + ks) else 1.0, t, category, ks > 0.0)
  }

  /** `_candidate_from_token(token, category, neighbours)`: one candidate
      per number in the normalised text, in order. */
  function TokenCandidates(t: Token, category: Label, neighbours: seq<Token>): (cs: seq<AmountCandidate>)
    ensures |cs| == |Matches(t.normalized, 0)|
  {
    var ms := Matches(t.normalized, 0);
    var ks := KeywordScore(t, neighbours, category.Keywords());
    MatchesValid(t.normalized, 0);
    seq(|ms|, k requires 0 <= k < |ms| => CandidateOf(t.normalized, ms[k], t, category, ks))
  }

  /** Every candidate of a token carries the token and the category, a value
      of at least 0, `has_keyword` exactly when the keyword score is
      positive, and the score 1.0 without a keyword or more than 4.0 with
      one; a token has candidates exactly when it holds a digit. */
  lemma TokenCandidatesSpec(t: Token, category: Label, neighbours: seq<Token>)
    ensures var cs := TokenCandidates(t, category, neighbours);
      var ks := KeywordScore(t, neighbours, category.Keywords());
      (cs != [] <==> HasDigit(t.normalized)) &&
      forall k :: 0 <= k < |cs| ==>
        cs[k].token == t && cs[k].category == category && cs[k].value >= 0 &&
        (cs[k].hasKeyword <==> ks > 0.0) &&
        (if cs[k].hasKeyword then cs[k].score == 4.0 + ks && cs[k].score > 4.0 else cs[k].score == 1.0)
  {
    MatchesIffDigit(t.normalized);
    MatchesValid(t.normalized, 0);
    var ms := Matches(t.normalized, 0);
    forall k | 0 <= k < |ms|
      ensures ParseNumber(t.normalized, ms[k]) >= 0
    {
      ParseNumberRounds(t.normalized, ms[k]);
    }
  }

  /** `_candidate_from_token`, with its loop over the matches. */
  method CandidateFromToken(t: Token, category: Label, neighbours: seq<Token>) returns (cs: seq<AmountCandidate>)
    ensures cs == TokenCandidates(t, category, neighbours)
  {
    var ms := Matches(t.normalized, 0);
    MatchesValid(t.normalized, 0);
    var ks := FindKeywordScore(t, neighbours, category.Keywords());
    ghost var all := TokenCandidates(t, category, neighbours);
    cs := [];
    var k := 0;
    while k < |ms|
      invariant 0 <= k <= |ms| == |all|
      invariant |cs| == k && forall j :: 0 <= j < k ==> cs[j] == all[j]
    {
      TokenCandidateAt(t, category, neighbours, k);
      var c := CandidateOf(t.normalized, ms[k], t, category, ks);
      AgreeSnoc(cs, all, c);
      cs := cs + [c];
      k := k + 1;
    }
  }

  /** The `k`-th candidate of a token comes from its `k`-th number. */
  lemma TokenCandidateAt(t: Token, category: Label, neighbours: seq<Token>, k: nat)
    requires k < |Matches(t.normalized, 0)|
    ensures ValidMatch(t.normalized, Matches(t.normalized, 0)[k]) &&
            TokenCandidates(t, category, neighbours)[k] ==
            CandidateOf(t.normalized, Matches(t.normalized, 0)[k], t, category, KeywordScore(t, neighbours, category.Keywords()))
  {
    MatchesValid(t.normalized, 0);
  }

  /** The other tokens (`other is not token`). */
  function Others(tokens: seq<Token>, i: nat): seq<Token>
    requires i < |tokens|
  {
    tokens[..i] + tokens[i + 1..]
  }

  /** The raw candidates of one category from the first `n` tokens. */
  function RawCandidates(tokens: seq<Token>, category: Label, n: nat): seq<AmountCandidate>
    requires n <= |tokens|
  {
    if n == 0 then []
    else RawCandidates(tokens, category, n - 1) + TokenCandidates(tokens[n - 1], category, Others(tokens, n - 1))
  }

  /** One more token's candidates extend the raw candidates. */
  lemma RawNext(tokens: seq<Token>, category: Label, i: nat, acc: seq<AmountCandidate>, cs: seq<AmountCandidate>)
    requires i < |tokens| && acc == RawCandidates(tokens, category, i)
    requires cs == TokenCandidates(tokens[i], category, Others(tokens, i))
    ensures RawCandidates(tokens, category, i + 1) == acc + cs
  {
  }

  /** Every raw candidate comes from one of the tokens, with that category. */
  lemma {:induction false} RawFromTokens(tokens: seq<Token>, category: Label, n: nat, c: AmountCandidate)
    requires n <= |tokens| && c in RawCandidates(tokens, category, n)
    ensures c.category == category && c.value >= 0 && exists i :: 0 <= i < n && c.token == tokens[i]
  {
    var cs := TokenCandidates(tokens[n - 1], category, Others(tokens, n - 1));
    assert RawCandidates(tokens, category, n) == RawCandidates(tokens, category, n - 1) + cs;
    if c in RawCandidates(tokens, category, n - 1) {
      RawFromTokens(tokens, category, n - 1, c);
      var i :| 0 <= i < n - 1 && c.token == tokens[i];
      assert 0 <= i < n;
    } else {
      assert c in cs;
      CandidateOfToken(tokens[n - 1], category, Others(tokens, n - 1), c);
      assert c.token == tokens[n - 1];
    }
  }

  /** A candidate of a token carries that token and the category, with a value of at least 0. */
  lemma CandidateOfToken(t: Token, category: Label, neighbours: seq<Token>, c: AmountCandidate)
    requires c in TokenCandidates(t, category, neighbours)
    ensures c.token == t && c.category == category && c.value >= 0
  {
    var cs := TokenCandidates(t, category, neighbours);
    TokenCandidatesSpec(t, category, neighbours);
    var k :| 0 <= k < |cs| && cs[k] == c;
  }

  // ---- postprocess ----

  function MaxValue(cs: seq<AmountCandidate>): (m: int)
    requires cs != []
    ensures (exists k :: 0 <= k < |cs| && cs[k].value == m) && forall k :: 0 <= k < |cs| ==> cs[k].value <= m
  {
    if |cs| == 1 then cs[0].value
    else
      var m := MaxValue(cs[1..]);
      assert forall k :: 1 <= k < |cs| ==> cs[k] == cs[1..][k - 1];
      if cs[0].value >= m then cs[0].value else m
  }

  /** What `postprocess` adds to a score: 2.0 for the largest value, 1.0
      right of x = 0.6. */
  function Bonus(c: AmountCandidate, maxValue: int): real {
    (if c.value == maxValue then 2.0 else 0.0) + (if c.token.Rightness() > 0.6 then 1.0 else 0.0)
  }

  function Adjusted(cs: seq<AmountCandidate>, maxValue: int): (r: seq<AmountCandidate>)
    ensures |r| == |cs|
  {
    seq(|cs|, k requires 0 <= k < |cs| => cs[k].(score := cs[k].score + Bonus(cs[k], maxValue)))
  }

  /** `b` may follow `a` in `sorted(..., key=score, reverse=True)`. */
  function ByScore(): (AmountCandidate, AmountCandidate) -> bool {
    (a: AmountCandidate, b: AmountCandidate) => a.score >= b.score
  }

  lemma ByScoreTotal()
    ensures TotalPreorder(ByScore())
  {
  }

  /** `postprocess(candidates)`: every candidate, with its bonuses, and no
      other. */
  function Postprocessed(cs: seq<AmountCandidate>): (r: seq<AmountCandidate>)
    ensures |r| == |cs|
    ensures cs != [] ==> multiset(r) == multiset(Adjusted(cs, MaxValue(cs)))
  {
    if cs == [] then []
    else
      var a := Adjusted(cs, MaxValue(cs));
      ByScoreTotal();
      SortSorted(a, ByScore());
      assert |Sort(a, ByScore())| == |multiset(Sort(a, ByScore()))|;
      Sort(a, ByScore())
  }

  /** The bonuses keep each candidate's value, token and category, and
      give +2.0 exactly to those of the largest value and +1.0 exactly to
      those right of 0.6. */
  lemma AdjustedSpec(cs: seq<AmountCandidate>)
    requires cs != []
    ensures var m := MaxValue(cs);
      var a := Adjusted(cs, m);
      forall k :: 0 <= k < |cs| ==>
        a[k].value == cs[k].value && a[k].token == cs[k].token && a[k].category == cs[k].category &&
        (a[k].score - cs[k].score >= 2.0 <==> cs[k].value == m) &&
        (a[k].score - cs[k].score == 1.0 || a[k].score - cs[k].score == 3.0 <==> cs[k].token.Rightness() > 0.6)
  {
  }

  /** `postprocess` returns the adjusted candidates, all of them, ordered
      by score, highest first. */
  lemma PostprocessSorted(cs: seq<AmountCandidate>)
    requires cs != []
    ensures var r := Postprocessed(cs);
      multiset(r) == multiset(Adjusted(cs, MaxValue(cs))) && |r| == |cs| &&
      forall i, j :: 0 <= i <= j < |r| ==> r[i].score >= r[j].score
  {
    var r := Postprocessed(cs);
    ByScoreTotal();
    SortSorted(Adjusted(cs, MaxValue(cs)), ByScore());
    assert |r| == |multiset(r)|;
    forall i, j | 0 <= i <= j < |r|
      ensures r[i].score >= r[j].score
    {
      SortedPairwise(r, ByScore(), i, j);
    }
  }

  /** `postprocess`, with the loop that adds the bonuses. */
  method Postprocess(cs: seq<AmountCandidate>) returns (r: seq<AmountCandidate>)
    ensures r == Postprocessed(cs)
  {
    if cs == [] {
      return [];
    }
    var maxValue := MaxValue(cs);
    var adjusted: seq<AmountCandidate> := [];
    var k := 0;
    while k < |cs|
      invariant 0 <= k <= |cs|
      invariant adjusted == Adjusted(cs, maxValue)[..k]
    {
      var c := cs[k];
      var score := c.score;
      if c.value == maxValue {
        score := score + 2.0;
      }
      if c.token.Rightness() > 0.6 {
        score := score + 1.0;
      }
      assert c.(score := score) == Adjusted(cs, maxValue)[k];
      adjusted := adjusted + [c.(score := score)];
      k := k + 1;
    }
    assert adjusted == Adjusted(cs, maxValue);
    r := Sort(adjusted, ByScore());
  }

  /** `_score_candidates(tokens)`: the postprocessed candidates of each category. */
  datatype Scores = Scores(total: seq<AmountCandidate>, subtotal: seq<AmountCandidate>, tax: seq<AmountCandidate>)

  function ScoresOf(tokens: seq<Token>): Scores {
    Scores(Postprocessed(RawCandidates(tokens, Total, |tokens|)),
           Postprocessed(RawCandidates(tokens, Subtotal, |tokens|)),
           Postprocessed(RawCandidates(tokens, Tax, |tokens|)))
  }

  /** `_score_candidates`, with its loop over the tokens. */
  method ScoreCandidates(tokens: seq<Token>) returns (scores: Scores)
    ensures scores == ScoresOf(tokens)
  {
    var totals: seq<AmountCandidate> := [];
    var subtotals: seq<AmountCandidate> := [];
    var taxes: seq<AmountCandidate> := [];
    var i := 0;
    while i < |tokens|
      invariant 0 <= i <= |tokens|
      invariant totals == RawCandidates(tokens, Total, i)
      invariant subtotals == RawCandidates(tokens, Subtotal, i)
      invariant taxes == RawCandidates(tokens, Tax, i)
    {
      var neighbours := Others(tokens, i);
      var t := CandidateFromToken(tokens[i], Total, neighbours);
      var s := CandidateFromToken(tokens[i], Subtotal, neighbours);
      var x := CandidateFromToken(tokens[i], Tax, neighbours);
      RawNext(tokens, Total, i, totals, t);
      RawNext(tokens, Subtotal, i, subtotals, s);
      RawNext(tokens, Tax, i, taxes, x);
      totals := totals + t;
      subtotals := subtotals + s;
      taxes := taxes + x;
      i := i + 1;
    }
    var pt := Postprocess(totals);
    var ps := Postprocess(subtotals);
    var px := Postprocess(taxes);
    scores := Scores(pt, ps, px);
  }

  // ---- _select_best and _consistency_check ----

  /** `_select_best`: the first candidate, if any. */
  function SelectBest(cs: seq<AmountCandidate>): (r: Option<AmountCandidate>)
    ensures r.None? <==> cs == []
    ensures r.Some? ==> r.value == cs[0]
  {
    if cs == [] then None else Some(cs[0])
  }

  /** The candidate selected from postprocessed candidates has the largest
      score among them. */
  lemma SelectedIsBest(cs: seq<AmountCandidate>)
    ensures var r := Postprocessed(cs);
      (SelectBest(r).None? <==> cs == []) &&
      (SelectBest(r).Some? ==> forall k :: 0 <= k < |r| ==> SelectBest(r).value.score >= r[k].score)
  {
    if cs != [] {
      PostprocessSorted(cs);
    }
  }

  /** `a[i]` has the largest score of `a`, and no candidate before it has that score. */
  predicate FirstBestAt(a: seq<AmountCandidate>, i: int) {
    0 <= i < |a| &&
    (forall k :: 0 <= k < |a| ==> a[i].score >= a[k].score) &&
    (forall k :: 0 <= k < i ==> a[k].score < a[i].score)
  }

  /** The selected candidate is the first candidate of the largest score in
      the order the bonuses were given (token order): the sort is stable. */
  lemma SelectedIsFirstBest(cs: seq<AmountCandidate>)
    requires cs != []
    ensures exists i ::
              FirstBestAt(Adjusted(cs, MaxValue(cs)), i) &&
              SelectBest(Postprocessed(cs)) == Some(Adjusted(cs, MaxValue(cs))[i])
  {
    var a := Adjusted(cs, MaxValue(cs));
    ByScoreTotal();
    var i := SortHead(a, ByScore());
    assert Postprocessed(cs) == Sort(a, ByScore());
    forall k | 0 <= k < |a|
      ensures a[i].score >= a[k].score
    {
      assert ByScore()(a[i], a[k]);
    }
    forall k | 0 <= k < i
      ensures a[k].score < a[i].score
    {
      assert !ByScore()(a[k], a[i]);
    }
    assert FirstBestAt(a, i) && SelectBest(Postprocessed(cs)) == Some(a[i]);
  }

  /** `_consistency_check(subtotal, tax, total)`. */
  function ConsistencyCheck(subtotal: Option<int>, tax: Option<int>, total: Option<int>): (ok: bool)
    ensures subtotal.None? || tax.None? || total.None? ==> ok
    ensures subtotal.Some? && tax.Some? && total.Some? ==>
      (ok <==> -1 <= subtotal.value + tax.value - total.value <= 1)
  {
    if subtotal.None? || tax.None? || total.None? then true
    else Abs(subtotal.value + tax.value - total.value) <= 1
  }

  function Abs(x: int): nat {
    if x < 0 then -x else x
  }

  // ---- extract_amounts ----

  function ValueOf(c: Option<AmountCandidate>): Option<int> {
    if c.Some? then Some(c.value.value) else None
  }

  /** The total implied by a subtotal and a tax: their sum, on the
      subtotal's token, with the two scores added and no keyword. */
  function Implied(sub: AmountCandidate, tax: AmountCandidate): AmountCandidate {
    AmountCandidate(sub.value + tax.value, sub.score + tax.score, sub.token, Total, false)
  }

  /** The total before the consistency check. */
  function TotalCandidate(s: Scores): Option<AmountCandidate> {
    var sub := SelectBest(s.subtotal);
    var tax := SelectBest(s.tax);
    match SelectBest(s.total)
    case Some(c) => Some(c)
    case None => if sub.Some? && tax.Some? then Some(Implied(sub.value, tax.value)) else None
  }

  /** The total is penalised when there is a subtotal or a tax and the
      three disagree by more than 1. */
  predicate Penalised(s: Scores) {
    var sub := SelectBest(s.subtotal);
    var tax := SelectBest(s.tax);
    var total := TotalCandidate(s);
    total.Some? && (sub.Some? || tax.Some?) && !ConsistencyCheck(ValueOf(sub), ValueOf(tax), ValueOf(total))
  }

  function Penalty(c: AmountCandidate): AmountCandidate {
    c.(score := c.score - 2.0)
  }

  function FinalTotal(s: Scores): Option<AmountCandidate> {
    var total := TotalCandidate(s);
    if Penalised(s) then Some(Penalty(total.value)) else total
  }

  /** The total candidates as listed in the payload. The penalised total,
      when it was selected from the list, is the list's first element
      itself, so the list shows its lowered score. */
  function ListedTotals(s: Scores): seq<AmountCandidate> {
    if Penalised(s) && s.total != [] then [Penalty(s.total[0])] + s.total[1..] else s.total
  }

  /** `candidate.to_dict()` with `type` added. */
  // `category` is the `label` key.
  datatype Payload = Payload(value: int, score: real, category: string, text: string, bbox: seq<R.Point>, kind: string)

  function PayloadOf(c: AmountCandidate, kind: string): Payload {
    Payload(c.value, c.score, c.category.Name(), c.token.text, c.token.span.bbox, kind)
  }

  /** The payload of the first five candidates of one category. */
  function PayloadList(cs: seq<AmountCandidate>, kind: string): (p: seq<Payload>)
    ensures |p| <= 5 && |p| <= |cs|
    ensures forall k :: 0 <= k < |p| ==> p[k] == PayloadOf(cs[k], kind)
  {
    var top := Take(cs, 5);
    seq(|top|, k requires 0 <= k < |top| => PayloadOf(top[k], kind))
  }

  function CandidatesPayload(s: Scores): seq<Payload> {
    PayloadList(ListedTotals(s), "total") + PayloadList(s.subtotal, "subtotal") + PayloadList(s.tax, "tax")
  }

  /** One entry of `keyword_regions`; the matched keywords come from a
      set, so their order is not fixed and they are a set here. */
  datatype KeywordRegion = KeywordRegion(text: string, normalized: string, bbox: seq<R.Point>, keywords: set<string>)

  const AllKeywords: seq<string> := TotalKeywords + SubtotalKeywords + TaxKeywords

  function Matched(normalized: string): (m: set<string>)
    ensures forall kw :: kw in m <==> kw in AllKeywords && Contains(normalized, kw)
  {
    set kw | kw in AllKeywords && Contains(normalized, kw)
  }

  function RegionOf(t: Token): Option<KeywordRegion> {
    var m := Matched(t.normalized);
    if m == {} then None else Some(KeywordRegion(t.text, t.normalized, t.span.bbox, m))
  }

  /** The dictionary `extract_amounts` returns, `debug` flattened. */
  datatype AmountsResult = AmountsResult(
    currency: string,
    subtotal: Option<int>,
    tax: Option<int>,
    total: Option<int>,
    candidates: seq<Payload>,
    vendor: Option<string>,
    invoiceDate: Option<string>,
    tokenCount: nat,
    totalScore: real,
    keywordRegions: seq<KeywordRegion>)

  function ResultOf(tokens: seq<Token>, s: Scores): AmountsResult {
    var total := FinalTotal(s);
    AmountsResult("JPY", ValueOf(SelectBest(s.subtotal)), ValueOf(SelectBest(s.tax)), ValueOf(total),
                  CandidatesPayload(s), None, None, |tokens|,
                  if total.Some? then total.value.score else 0.0,
                  R.Kept(tokens, RegionOf))
  }

  /** `extract_amounts(spans)`: a subtotal or a tax is never reported
      without a total, and at most five candidates of each kind are listed. */
  function AmountsOf(nfkc: string -> string, spans: seq<R.Span>): (r: AmountsResult)
    ensures r.subtotal.Some? || r.tax.Some? ==> r.total.Some?
    ensures |r.candidates| <= 15
  {
    var tokens := AllTokens(nfkc, spans);
    ScoredListsAligned(tokens);
    ResultOf(tokens, ScoresOf(tokens))
  }

  /** `extract_amounts`. */
  method ExtractAmounts(nfkc: string -> string, spans: seq<R.Span>) returns (r: AmountsResult)
    ensures r == AmountsOf(nfkc, spans)
  {
    var tokens := Tokenize(nfkc, spans);
    var scores := ScoreCandidates(tokens);
    var total := FinalTotal(scores);
    var payload := BuildPayload(scores);
    var regions := R.Collect(tokens, RegionOf);
    r := AmountsResult("JPY", ValueOf(SelectBest(scores.subtotal)), ValueOf(SelectBest(scores.tax)), ValueOf(total),
                       payload, None, None, |tokens|,
                       if total.Some? then total.value.score else 0.0, regions);
  }

  /** The payload loops: the first five of each category, in the order
      total, subtotal, tax. */
  method BuildPayload(s: Scores) returns (payload: seq<Payload>)
    ensures payload == CandidatesPayload(s)
  {
    var t := PayloadLoop(ListedTotals(s), "total");
    var u := PayloadLoop(s.subtotal, "subtotal");
    var x := PayloadLoop(s.tax, "tax");
    payload := t + u + x;
  }

  method PayloadLoop(cs: seq<AmountCandidate>, kind: string) returns (p: seq<Payload>)
    ensures p == PayloadList(cs, kind)
  {
    var top := Take(cs, 5);
    p := [];
    var k := 0;
    while k < |top|
      invariant 0 <= k <= |top|
      invariant p == PayloadList(cs, kind)[..k]
    {
      p := p + [PayloadOf(top[k], kind)];
      k := k + 1;
    }
  }

  // ---- what extract_amounts promises ----

  /** With no total candidate but a subtotal and a tax, the total is their sum. */
  lemma ImpliedTotal(s: Scores)
    requires s.total == [] && s.subtotal != [] && s.tax != []
    ensures TotalCandidate(s) == Some(Implied(s.subtotal[0], s.tax[0]))
    ensures ValueOf(FinalTotal(s)) == Some(s.subtotal[0].value + s.tax[0].value)
    ensures !Penalised(s)
  {
  }

  /** Every category collects one candidate per number of every token, so
      the three raw lists have the same length. */
  lemma {:induction false} RawSameLength(tokens: seq<Token>, c1: Label, c2: Label, n: nat)
    requires n <= |tokens|
    ensures |RawCandidates(tokens, c1, n)| == |RawCandidates(tokens, c2, n)|
  {
    if n > 0 {
      RawSameLength(tokens, c1, c2, n - 1);
    }
  }

  /** The three postprocessed lists of `_score_candidates` have the same
      length. So a subtotal and a tax are found only along with a total,
      and the implied-total branch of `extract_amounts` never runs on
      candidates scored from tokens: without a total there is no total. */
  lemma ScoredListsAligned(tokens: seq<Token>)
    ensures var s := ScoresOf(tokens);
      |s.total| == |s.subtotal| == |s.tax| &&
      (s.total == [] ==> s.subtotal == [] && s.tax == [] && FinalTotal(s).None?)
  {
    var n := |tokens|;
    RawSameLength(tokens, Total, Subtotal, n);
    RawSameLength(tokens, Total, Tax, n);
    var t := RawCandidates(tokens, Total, n);
    var u := RawCandidates(tokens, Subtotal, n);
    var x := RawCandidates(tokens, Tax, n);
    if t != [] {
      PostprocessSorted(t);
      PostprocessSorted(u);
      PostprocessSorted(x);
    }
    var s := ScoresOf(tokens);
    if s.total == [] {
      NoTotal(s);
    }
  }

  /** Without a total candidate and without both a subtotal and a tax
      there is no total. */
  lemma NoTotal(s: Scores)
    requires s.total == [] && (s.subtotal == [] || s.tax == [])
    ensures FinalTotal(s).None?
  {
  }

  /** An inconsistent total keeps its value and loses 2.0 of its score;
      a consistent one is unchanged. */
  lemma PenaltyRule(s: Scores)
    ensures ValueOf(FinalTotal(s)) == ValueOf(TotalCandidate(s))
    ensures Penalised(s) ==> FinalTotal(s).value.score == TotalCandidate(s).value.score - 2.0
    ensures !Penalised(s) ==> FinalTotal(s) == TotalCandidate(s)
    ensures Penalised(s) <==>
      (TotalCandidate(s).Some? && s.subtotal != [] && s.tax != [] &&
       Abs(s.subtotal[0].value + s.tax[0].value - TotalCandidate(s).value.value) > 1)
  {
  }

  /** The result's fixed fields and its candidate list: currency `JPY`,
      no vendor or date, the token count, and at most five candidates of
      each category, in the order total, subtotal, tax, each tagged with its
      category as `type`. */
  lemma ResultShape(tokens: seq<Token>, s: Scores)
    ensures var r := ResultOf(tokens, s);
      r.currency == "JPY" && r.vendor.None? && r.invoiceDate.None? && r.tokenCount == |tokens| &&
      |r.candidates| <= 15 &&
      exists a: seq<Payload>, b: seq<Payload>, c: seq<Payload> :: r.candidates == a + b + c && |a| <= 5 && |b| <= 5 && |c| <= 5 &&
        (forall k :: 0 <= k < |a| ==> a[k].kind == "total") &&
        (forall k :: 0 <= k < |b| ==> b[k].kind == "subtotal") &&
        (forall k :: 0 <= k < |c| ==> c[k].kind == "tax")
  {
    var a := PayloadList(ListedTotals(s), "total");
    var b := PayloadList(s.subtotal, "subtotal");
    var c := PayloadList(s.tax, "tax");
    assert ResultOf(tokens, s).candidates == a + b + c;
  }

  /** The total score is the final total's, or 0.0 without a total. */
  lemma TotalScoreRule(tokens: seq<Token>, s: Scores)
    ensures var r := ResultOf(tokens, s);
      (r.total.None? <==> FinalTotal(s).None?) &&
      (FinalTotal(s).Some? ==> r.totalScore == FinalTotal(s).value.score && r.total == Some(FinalTotal(s).value.value)) &&
      (FinalTotal(s).None? ==> r.totalScore == 0.0)
  {
  }

  /** The keyword regions are exactly the tokens whose normalised text
      contains a keyword, in token order, each with every keyword it
      contains. */
  lemma KeywordRegions(tokens: seq<Token>, s: Scores, g: KeywordRegion)
    ensures g in ResultOf(tokens, s).keywordRegions <==>
      exists k :: 0 <= k < |tokens| && RegionOf(tokens[k]) == Some(g)
    ensures forall t :: RegionOf(t).Some? <==> exists kw :: kw in AllKeywords && Contains(t.normalized, kw)
  {
    if g in ResultOf(tokens, s).keywordRegions {
      R.KeptSound(tokens, RegionOf, g);
    }
    if exists k :: 0 <= k < |tokens| && RegionOf(tokens[k]) == Some(g) {
      var k :| 0 <= k < |tokens| && RegionOf(tokens[k]) == Some(g);
      R.KeptComplete(tokens, RegionOf, k);
    }
    forall t: Token
      ensures RegionOf(t).Some? <==> exists kw :: kw in AllKeywords && Contains(t.normalized, kw)
    {
      if exists kw :: kw in AllKeywords && Contains(t.normalized, kw) {
        var kw :| kw in AllKeywords && Contains(t.normalized, kw);
        assert kw in Matched(t.normalized);
      }
    }
  }
}
