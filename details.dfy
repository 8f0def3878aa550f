/** Structured fields read from OCR spans: spans are grouped into lines by
    their vertical position, and the vendor, the issue and due dates, the
    line items and the totals are read off those lines.

    The regular expressions are hand-coded; `\d` is an ASCII digit. */
module Details {
  import opened Wrappers
  import opened Text
  import opened Numbers
  import opened Sorting
  import opened Scan
  import opened Recognize

  /** `_LINE_TOLERANCE_PX`. */
  const LineTolerance: real := 14.0

  const CompanyKeywords: seq<string> :=
    ["株式会社", "有限会社", "合同会社", "Inc", "Co.", "Company", "Corporation"]
  const IssueDateLabels: seq<string> := ["発行日", "発行年月日", "請求日", "Invoice Date"]
  const DueDateLabels: seq<string> := ["支払期日", "支払期限", "お支払期日", "Payment Due"]
  const LineHeaders: seq<string> := ["品目", "内容", "明細", "数量", "単価", "金額"]
  const TotalLabels: seq<string> := ["合計", "Total", "請求金額"]
  const SubtotalLabels: seq<string> := ["小計", "Subtotal"]
  const TaxLabels: seq<string> := ["消費税", "税額", "Tax"]

  // ---- grouping spans into lines ----

  /** `_mean`: 0.0 for no values. */
  function Mean(xs: seq<real>): real {
    if xs == [] then 0.0 else Sum(xs) / |xs| as real
  }

  function Ys(bbox: seq<Point>): (r: seq<real>)
    ensures |r| == |bbox| && forall i :: 0 <= i < |bbox| ==> r[i] == bbox[i].1 as real
  {
    seq(|bbox|, i requires 0 <= i < |bbox| => bbox[i].1 as real)
  }

  /** `_line_key`: the mean height of the box's corners, 0.0 without a box. */
  function LineKey(s: Span): real {
    Mean(Ys(s.bbox))
  }

  /** The second half of the sort key: the first corner's x, or 0. */
  function FirstX(s: Span): int {
    if s.bbox == [] then 0 else s.bbox[0].0
  }

  /** The sort key `(line_key, x)` of `a` is at most that of `b`. */
  predicate SpanLe(a: Span, b: Span) {
    LineKey(a) < LineKey(b) || (LineKey(a) == LineKey(b) && FirstX(a) <= FirstX(b))
  }

  lemma SpanLeTotal()
    ensures TotalPreorder(SpanLe)
  {
  }

  function Abs(x: real): real {
    if x < 0.0 then -x else x
  }

  /** A span joins the line whose last span is `last` when their keys are
      at most 14 pixels apart. */
  predicate Joins(last: Span, x: Span) {
    Abs(LineKey(last) - LineKey(x)) <= LineTolerance
  }

  function Last(b: seq<Span>): Span
    requires b != []
  {
    b[|b| - 1]
  }

  predicate NonEmpty(buckets: seq<seq<Span>>) {
    forall i :: 0 <= i < |buckets| ==> buckets[i] != []
  }

  /** One pass of the bucketing loop: the span joins the last bucket or
      opens a new one. */
  function Place(buckets: seq<seq<Span>>, x: Span): (r: seq<seq<Span>>)
    requires NonEmpty(buckets)
    ensures NonEmpty(r) && |r| >= 1
  {
    if buckets == [] then [[x]]
    else
      var last := buckets[|buckets| - 1];
      if Joins(Last(last), x) then buckets[..|buckets| - 1] + [last + [x]]
      else buckets + [[x]]
  }

  /** The buckets after the loop has seen every span of `s`. */
  function Bucketed(s: seq<Span>): (r: seq<seq<Span>>)
    ensures NonEmpty(r)
    ensures s == [] <==> r == []
  {
    if s == [] then [] else Place(Bucketed(s[..|s| - 1]), s[|s| - 1])
  }

  function Flatten(b: seq<seq<Span>>): seq<Span> {
    if b == [] then [] else Flatten(b[..|b| - 1]) + b[|b| - 1]
  }

  lemma FlattenAppend(b: seq<seq<Span>>, x: seq<Span>)
    ensures Flatten(b + [x]) == Flatten(b) + x
  {
    assert (b + [x])[..|b|] == b;
  }

  /** Placing a span adds it at the end of the buckets read in order. */
  lemma PlaceFlatten(b: seq<seq<Span>>, x: Span)
    requires NonEmpty(b)
    ensures Flatten(Place(b, x)) == Flatten(b) + [x]
  {
    if b == [] {
      FlattenAppend([], [x]);
    } else {
      var last := b[|b| - 1];
      var init := b[..|b| - 1];
      assert b == init + [last];
      FlattenAppend(init, last);
      if Joins(Last(last), x) {
        assert Place(b, x) == init + [last + [x]];
        FlattenAppend(init, last + [x]);
        Text.Assoc(Flatten(init), last, [x]);
      } else {
        assert Place(b, x) == b + [[x]];
        FlattenAppend(b, [x]);
      }
    }
  }

  /** Every span lands in exactly one bucket, and the buckets read in
      order give back the spans in order. */
  lemma {:induction false} BucketedFlatten(s: seq<Span>)
    ensures Flatten(Bucketed(s)) == s
    decreases |s|
  {
    if s != [] {
      var q := s[..|s| - 1];
      var x := s[|s| - 1];
      assert s == q + [x];
      BucketedFlatten(q);
      assert Bucketed(s) == Place(Bucketed(q), x);
      PlaceFlatten(Bucketed(q), x);
    }
  }

  /** Inside a bucket, each span is within the tolerance of the one before it. */
  predicate InsideJoined(b: seq<seq<Span>>) {
    forall i, j :: 0 <= i < |b| && 0 <= j < |b[i]| - 1 ==> Joins(b[i][j], b[i][j + 1])
  }

  /** A bucket ends where the next span is further than the tolerance from
      the bucket's last span. */
  predicate BetweenApart(b: seq<seq<Span>>) {
    forall i :: 0 <= i < |b| - 1 ==> Apart(b, i)
  }

  /** Bucket `i + 1` starts further than the tolerance from bucket `i`'s end. */
  predicate Apart(b: seq<seq<Span>>, i: nat)
    requires i < |b| - 1
  {
    b[i] != [] && b[i + 1] != [] && !Joins(Last(b[i]), b[i + 1][0])
  }

  lemma PlaceGaps(b: seq<seq<Span>>, x: Span)
    requires NonEmpty(b) && InsideJoined(b) && BetweenApart(b)
    ensures InsideJoined(Place(b, x)) && BetweenApart(Place(b, x))
  {
    var r := Place(b, x);
    if b != [] {
      var n := |b| - 1;
      var last := b[n];
      if Joins(Last(last), x) {
        assert r == b[..n] + [last + [x]];
        assert forall i :: 0 <= i < n ==> r[i] == b[i];
        forall i, j | 0 <= i < |r| && 0 <= j < |r[i]| - 1
          ensures Joins(r[i][j], r[i][j + 1])
        {
          if i == n && j == |last| - 1 {
            assert r[i][j] == Last(last) && r[i][j + 1] == x;
          } else if i == n {
            assert r[i][j] == last[j] && r[i][j + 1] == last[j + 1];
          }
        }
        forall i | 0 <= i < |r| - 1
          ensures Apart(r, i)
        {
          assert Apart(b, i);
          assert r[i] == b[i];
          assert r[i + 1][0] == b[i + 1][0];
        }
      } else {
        assert r == b + [[x]];
        assert forall i :: 0 <= i < |b| ==> r[i] == b[i];
        forall i | 0 <= i < |r| - 1
          ensures Apart(r, i)
        {
          if i < n {
            assert Apart(b, i);
            assert r[i + 1] == b[i + 1];
          } else {
            assert r[i + 1][0] == x;
          }
        }
      }
    }
  }

  /** A span joins the current line exactly when it is within the
      tolerance of the line's last span. */
  lemma {:induction false} BucketedGaps(s: seq<Span>)
    ensures InsideJoined(Bucketed(s)) && BetweenApart(Bucketed(s))
    decreases |s|
  {
    if s != [] {
      BucketedGaps(s[..|s| - 1]);
      PlaceGaps(Bucketed(s[..|s| - 1]), s[|s| - 1]);
    }
  }

  /** `_Line`: a height and the non-blank tokens of one bucket. */
  datatype Line = Line(y: real, tokens: seq<string>) {
    /** `" ".join(tokens).strip()`. */
    function Text(): string {
      Strip(Join(" ", tokens))
    }
  }

  /** The token a span contributes: its stripped text, unless blank. */
  function TokenOf(s: Span): Option<string> {
    var t := Strip(s.text);
    if t != [] then Some(t) else None
  }

  /** The stripped, non-blank texts of a bucket's spans, in order. */
  function Tokens(bucket: seq<Span>): seq<string> {
    Kept(bucket, TokenOf)
  }

  /** Every token is the stripped, non-blank text of a span of the bucket,
      and every such text is a token. */
  lemma TokensOf(bucket: seq<Span>, t: string)
    ensures t in Tokens(bucket) ==> t != [] && exists k :: 0 <= k < |bucket| && t == Strip(bucket[k].text)
    ensures (exists k :: 0 <= k < |bucket| && t == Strip(bucket[k].text)) && t != [] ==> t in Tokens(bucket)
  {
    if t in Tokens(bucket) {
      KeptSound(bucket, TokenOf, t);
    }
    if t != [] && exists k :: 0 <= k < |bucket| && t == Strip(bucket[k].text) {
      var k :| 0 <= k < |bucket| && t == Strip(bucket[k].text);
      KeptComplete(bucket, TokenOf, k);
    }
  }

  function Keys(bucket: seq<Span>): (r: seq<real>)
    ensures |r| == |bucket| && forall i :: 0 <= i < |bucket| ==> r[i] == LineKey(bucket[i])
  {
    seq(|bucket|, i requires 0 <= i < |bucket| => LineKey(bucket[i]))
  }

  /** The line one bucket gives: none when every token is blank. */
  function LineOf(bucket: seq<Span>): Option<Line> {
    var tokens := Tokens(bucket);
    if tokens == [] then None else Some(Line(Mean(Keys(bucket)), tokens))
  }

  /** The buckets `_group_lines` cuts the spans into, sorted by line key and x. */
  function Buckets(spans: seq<Span>): seq<seq<Span>> {
    Bucketed(Sort(spans, SpanLe))
  }

  /** `_group_lines(spans)`: no spans give no lines, and no line is
      without tokens. */
  function GroupedLines(spans: seq<Span>): (r: seq<Line>)
    ensures spans == [] ==> r == []
    ensures forall i :: 0 <= i < |r| ==> r[i].tokens != []
  {
    LinesHaveTokens(Buckets(spans));
    Kept(Buckets(spans), LineOf)
  }

  lemma LinesHaveTokens(b: seq<seq<Span>>)
    ensures forall i :: 0 <= i < |Kept(b, LineOf)| ==> Kept(b, LineOf)[i].tokens != []
  {
    forall i | 0 <= i < |Kept(b, LineOf)|
      ensures Kept(b, LineOf)[i].tokens != []
    {
      BucketLines(b, Kept(b, LineOf)[i]);
    }
  }

  /** What `_group_lines` promises: the spans, sorted by line key and x,
      are cut into buckets exactly where the gap exceeds the tolerance;
      each line is a non-blank bucket's tokens and mean height, and every
      non-blank bucket gives a line. */
  lemma GroupedLinesSpec(spans: seq<Span>)
    ensures var b := Bucketed(Sort(spans, SpanLe));
      Flatten(b) == Sort(spans, SpanLe) && Sorted(Flatten(b), SpanLe) &&
      multiset(Flatten(b)) == multiset(spans) &&
      InsideJoined(b) && BetweenApart(b)
  {
    var sorted := Sort(spans, SpanLe);
    SpanLeTotal();
    SortSorted(spans, SpanLe);
    BucketedFlatten(sorted);
    BucketedGaps(sorted);
  }

  /** Each line is the tokens and mean height of one bucket with a
      non-blank token, and each such bucket gives its line. */
  lemma LinesAreBuckets(spans: seq<Span>, l: Line)
    ensures l in GroupedLines(spans) <==>
      exists i :: 0 <= i < |Buckets(spans)| && LineFrom(Buckets(spans)[i], l)
  {
    BucketLines(Buckets(spans), l);
  }

  lemma BucketLines(b: seq<seq<Span>>, l: Line)
    ensures l in Kept(b, LineOf) <==> exists i :: 0 <= i < |b| && LineFrom(b[i], l)
  {
    if l in Kept(b, LineOf) {
      KeptSound(b, LineOf, l);
      var k :| 0 <= k < |b| && LineOf(b[k]) == Some(l);
      assert LineFrom(b[k], l);
    }
    if exists i :: 0 <= i < |b| && LineFrom(b[i], l) {
      var i :| 0 <= i < |b| && LineFrom(b[i], l);
      assert LineOf(b[i]) == Some(l);
      KeptComplete(b, LineOf, i);
    }
  }

  /** `l` is the line of `bucket`: the bucket has a token, `l` holds its
      tokens and sits at the mean of the bucket's line keys. */
  predicate LineFrom(bucket: seq<Span>, l: Line) {
    Tokens(bucket) != [] && l == Line(Mean(Keys(bucket)), Tokens(bucket))
  }

  /** `_group_lines`, with its two loops. */
  method GroupLines(spans: seq<Span>) returns (lines: seq<Line>)
    ensures lines == GroupedLines(spans)
  {
    var sorted := Sort(spans, SpanLe);
    var buckets := BucketSpans(sorted);
    lines := Collect(buckets, LineOf);
  }

  /** The bucketing loop over the sorted spans. */
  method BucketSpans(sorted: seq<Span>) returns (buckets: seq<seq<Span>>)
    ensures buckets == Bucketed(sorted)
  {
    buckets := [];
    var i := 0;
    while i < |sorted|
      invariant 0 <= i <= |sorted|
      invariant buckets == Bucketed(sorted[..i])
    {
      var span := sorted[i];
      assert sorted[..i + 1][..i] == sorted[..i];
      assert Bucketed(sorted[..i + 1]) == Place(buckets, span);
      if buckets == [] {
        buckets := [[span]];
      } else {
        var lastBucket := buckets[|buckets| - 1];
        assert lastBucket != [];
        if Abs(LineKey(lastBucket[|lastBucket| - 1]) - LineKey(span)) <= LineTolerance {
          assert Joins(Last(lastBucket), span);
          buckets := buckets[..|buckets| - 1] + [lastBucket + [span]];
        } else {
          buckets := buckets + [[span]];
        }
      }
      i := i + 1;
    }
    assert sorted[..i] == sorted;
  }

  // ---- dates ----

  predicate IsYearSep(c: char) { c == '.' || c == '/' || c == '年' || c == '-' }
  predicate IsMonthSep(c: char) { c == '.' || c == '/' || c == '月' || c == '-' }

  /** `[sep]?\s*` from `i`. When `i` holds a separator, leaving it out puts
      a separator where a space or a digit is needed, so taking it is the
      only choice that can succeed. */
  function SkipGap(s: string, i: nat, sep: char -> bool): (k: nat)
    requires i <= |s|
    ensures i <= k <= |s|
  {
    SkipSpaces(s, if i < |s| && sep(s[i]) then i + 1 else i)
  }

  /** The year `20\d{2}|19\d{2}` at `i`. */
  function YearAt(s: string, i: nat): Option<nat> {
    if i + 4 <= |s| && ((s[i] == '2' && s[i + 1] == '0') || (s[i] == '1' && s[i + 1] == '9')) &&
       IsDigit(s[i + 2]) && IsDigit(s[i + 3])
    then Some(ParseDigits(s[i..i + 4]))
    else None
  }

  /** The day `[./月-]?\s*\d{1,2}` after a month that ends at `k`. */
  function DayAfter(s: string, k: nat): Option<nat>
    requires k <= |s|
  {
    var d := SkipGap(s, k, IsMonthSep);
    match OneOrTwoDigits(s, d)
    case None => None
    case Some(e) => Some(ParseDigits(s[d..e]))
  }

  /** Month then day from `j`: the month takes two digits when the day can
      still follow, else it gives its second digit back. */
  function MonthDay(s: string, j: nat): Option<(nat, nat)>
    requires j <= |s|
  {
    match OneOrTwoDigits(s, j)
    case None => None
    case Some(e) =>
      match DayAfter(s, e)
      case Some(d) => Some((ParseDigits(s[j..e]), d))
      case None =>
        if e == j + 2 then
          match DayAfter(s, j + 1)
          case Some(d) => Some((ParseDigits(s[j..j + 1]), d))
          case None => None
        else None
  }

  /** `DATE_PATTERN` matched at `i`: year, month and day. */
  function DateAt(s: string, i: nat): Option<(nat, nat, nat)>
    requires i <= |s|
  {
    match YearAt(s, i)
    case None => None
    case Some(y) =>
      match MonthDay(s, SkipGap(s, i + 4, IsYearSep))
      case None => None
      case Some(md) => Some((y, md.0, md.1))
  }

  /** `DATE_PATTERN.search(s)`: the leftmost match from `from` on. */
  function FirstDate(s: string, from: nat): Option<(nat, nat, nat)>
    requires from <= |s|
    decreases |s| - from
  {
    var here := DateAt(s, from);
    if here.Some? || from == |s| then here else FirstDate(s, from + 1)
  }

  /** `YYYY-MM-DD`: ten characters, digits around two dashes. */
  predicate DateShaped(r: string) {
    |r| == 10 && r[4] == '-' && r[7] == '-' &&
    AllDigits(r[..4]) && AllDigits(r[5..7]) && AllDigits(r[8..])
  }

  /** `_normalize_date`: `f"{year:04d}-{month:02d}-{day:02d}"` of the first
      date in the text, or `None`.  A normalised date is `YYYY-MM-DD` with
      a 19xx or 20xx year, and its fields read back as the year, month and
      day found. */
  function NormalizeDate(raw: string): (r: Option<string>)
    ensures r.Some? <==> FirstDate(raw, 0).Some?
    ensures r.Some? ==>
      var d := FirstDate(raw, 0).value;
      DateShaped(r.value) && 1900 <= ParseDigits(r.value[..4]) <= 2099 &&
      ParseDigits(r.value[..4]) == d.0 && ParseDigits(r.value[5..7]) == d.1 && ParseDigits(r.value[8..]) == d.2
  {
    match FirstDate(raw, 0)
    case None => None
    case Some(d) =>
      FirstDateRange(raw, 0);
      Pow10Values();
      PadNatWidth(d.0, 4);
      PadNatWidth(d.1, 2);
      PadNatWidth(d.2, 2);
      DashedParts(PadNat(d.0, 4), PadNat(d.1, 2), PadNat(d.2, 2));
      Some(PadNat(d.0, 4) + "-" + PadNat(d.1, 2) + "-" + PadNat(d.2, 2))
  }

  lemma YearRange(s: string, i: nat)
    requires YearAt(s, i).Some?
    ensures 1900 <= YearAt(s, i).value <= 2099
  {
    var t := s[i..i + 4];
    assert t[..3][..2][..1] == [t[0]];
    assert t[..3][..2] == t[..2];
    assert t[..3] == t[..3];
    assert ParseDigits(t) == ParseDigits(t[..3]) * 10 + DigitValue(t[3]);
    assert ParseDigits(t[..3]) == ParseDigits(t[..2]) * 10 + DigitValue(t[2]);
    assert ParseDigits(t[..2]) == ParseDigits(t[..1]) * 10 + DigitValue(t[1]);
    assert ParseDigits(t[..1]) == ParseDigits([]) * 10 + DigitValue(t[0]);
  }

  lemma TwoDigits(s: string, d: nat, e: nat)
    requires d < e <= d + 2 && e <= |s| && AllDigits(s[d..e])
    ensures ParseDigits(s[d..e]) < 100
  {
    var t := s[d..e];
    assert IsDigit(t[0]) && DigitValue(t[0]) <= 9;
    assert t[..0] == [];
    if |t| == 1 {
      assert ParseDigits(t) == ParseDigits(t[..0]) * 10 + DigitValue(t[0]);
    } else {
      assert IsDigit(t[1]) && DigitValue(t[1]) <= 9;
      assert t[..1][..0] == [];
      assert ParseDigits(t[..1]) == ParseDigits(t[..1][..0]) * 10 + DigitValue(t[0]);
      assert ParseDigits(t) == ParseDigits(t[..1]) * 10 + DigitValue(t[1]);
    }
  }

  lemma MonthDayRange(s: string, j: nat)
    requires j <= |s| && MonthDay(s, j).Some?
    ensures MonthDay(s, j).value.0 < 100 && MonthDay(s, j).value.1 < 100
  {
    var e := OneOrTwoDigits(s, j).value;
    TwoDigits(s, j, e);
    TwoDigits(s, j, j + 1);
    var d := SkipGap(s, e, IsMonthSep);
    if OneOrTwoDigits(s, d).Some? {
      TwoDigits(s, d, OneOrTwoDigits(s, d).value);
    }
    if e == j + 2 {
      var d' := SkipGap(s, j + 1, IsMonthSep);
      if OneOrTwoDigits(s, d').Some? {
        TwoDigits(s, d', OneOrTwoDigits(s, d').value);
      }
    }
  }

  lemma {:induction false} FirstDateRange(s: string, from: nat)
    requires from <= |s| && FirstDate(s, from).Some?
    ensures 1900 <= FirstDate(s, from).value.0 <= 2099
    ensures FirstDate(s, from).value.1 < 100 && FirstDate(s, from).value.2 < 100
    decreases |s| - from
  {
    if DateAt(s, from).Some? {
      YearRange(s, from);
      MonthDayRange(s, SkipGap(s, from + 4, IsYearSep));
    } else {
      FirstDateRange(s, from + 1);
    }
  }

  lemma DashedParts(a: string, b: string, c: string)
    requires |a| == 4 && |b| == 2 && |c| == 2
    ensures var r := a + "-" + b + "-" + c;
      |r| == 10 && r[4] == '-' && r[7] == '-' && r[..4] == a && r[5..7] == b && r[8..] == c
  {
  }

  /** Without a year starting with 19 or 20 there is no date. */
  lemma {:induction false} NoYearNoDate(s: string, from: nat)
    requires from <= |s|
    requires forall i :: from <= i <= |s| ==> YearAt(s, i).None?
    ensures FirstDate(s, from).None?
    decreases |s| - from
  {
    if from < |s| {
      NoYearNoDate(s, from + 1);
    }
  }

  /** `"2024/04/01"` normalises to `"2024-04-01"`. */
  lemma SlashDate()
    ensures NormalizeDate("2024/04/01") == Some("2024-04-01")
  {
    SlashDateFound();
    Pads();
    SlashText();
  }

  lemma SlashText()
    ensures "2024" + "-" + "04" + "-" + "01" == "2024-04-01"
  {
    var r := "2024" + "-" + "04" + "-" + "01";
    assert |r| == 10;
    assert r[0] == '2' && r[1] == '0' && r[2] == '2' && r[3] == '4' && r[4] == '-';
    assert r[5] == '0' && r[6] == '4' && r[7] == '-' && r[8] == '0' && r[9] == '1';
  }

  lemma SlashDateFound()
    ensures FirstDate("2024/04/01", 0) == Some((2024, 4, 1))
  {
    var s := "2024/04/01";
    SlashYear();
    SlashMonthDay();
    assert DateAt(s, 0) == Some((2024, 4, 1));
  }

  lemma SlashYear()
    ensures YearAt("2024/04/01", 0) == Some(2024)
    ensures SkipGap("2024/04/01", 4, IsYearSep) == 5
  {
    var s := "2024/04/01";
    assert s[0..4] == "2024";
    Digits2024();
  }

  lemma SlashMonthDay()
    ensures MonthDay("2024/04/01", 5) == Some((4, 1))
  {
    var s := "2024/04/01";
    assert OneOrTwoDigits(s, 5) == Some(7);
    assert SkipGap(s, 7, IsMonthSep) == 8;
    assert OneOrTwoDigits(s, 8) == Some(10);
    assert s[8..10] == "01";
    assert s[5..7] == "04";
    SmallDigits();
    assert DayAfter(s, 7) == Some(1);
  }

  lemma Digits2024()
    ensures ParseDigits("2024") == 2024
  {
    assert "2024"[..3] == "202";
    assert "202"[..2] == "20";
    assert "20"[..1] == "2";
    assert "2"[..0] == "";
  }

  lemma SmallDigits()
    ensures ParseDigits("04") == 4 && ParseDigits("01") == 1
  {
    assert "04"[..1] == "0";
    assert "01"[..1] == "0";
    assert "0"[..0] == "";
  }

  lemma Pads()
    ensures PadNat(2024, 4) == "2024" && PadNat(4, 2) == "04" && PadNat(1, 2) == "01"
  {
    PadYear();
    PadDigit(4);
    PadDigit(1);
  }

  lemma PadYear()
    ensures PadNat(2024, 4) == "2024"
  {
    assert NatToString(2) == "2";
    assert NatToString(20) == "20";
    assert NatToString(202) == "202";
    assert NatToString(2024) == "2024";
  }

  /** A single digit padded to two places gets one leading zero. */
  lemma PadDigit(d: nat)
    requires d < 10
    ensures PadNat(d, 2) == "0" + [DigitChar(d)]
  {
    assert NatToString(d) == [DigitChar(d)];
    assert Zeros(1) == "0";
  }

  // ---- numbers ----

  /** The text `_parse_number` hands to `float()`: commas and the yen
      signs 円, ¥ (U+00A5) and ￥ (U+FFE5) removed, the minus sign U+2212
      turned into `-`, surrounding whitespace stripped. */
  function Cleaned(raw: string): string {
    Strip(Unsymboled(raw))
  }

  function Unsymboled(raw: string): string {
    ReplaceChar(RemoveChar(RemoveChar(RemoveChar(RemoveChar(raw, ','), '円'), '\U{A5}'), '\U{FFE5}'), '\U{2212}', "-")
  }

  /** `NUMBER_PATTERN` (`-?\d[\d,\.]*`) matched at `i`. */
  function NumberAt(s: string, i: nat): Option<string>
    requires i <= |s|
  {
    if i + 1 < |s| && s[i] == '-' && IsDigit(s[i + 1]) then Some(s[i..SkipNumberChars(s, i + 2)])
    else if i < |s| && IsDigit(s[i]) then Some(s[i..SkipNumberChars(s, i + 1)])
    else None
  }

  /** `NUMBER_PATTERN.search(s).group()` from `from` on. */
  function NumberSearch(s: string, from: nat): Option<string>
    requires from <= |s|
    decreases |s| - from
  {
    var here := NumberAt(s, from);
    if here.Some? || from == |s| then here else NumberSearch(s, from + 1)
  }

  /** The number pattern finds something exactly when there is a digit. */
  lemma {:induction false} NumberSearchIffDigit(s: string, from: nat)
    requires from <= |s|
    ensures NumberSearch(s, from).Some? <==> exists i :: from <= i < |s| && IsDigit(s[i])
    decreases |s| - from
  {
    if from < |s| {
      NumberSearchIffDigit(s, from + 1);
      if NumberAt(s, from).Some? && !IsDigit(s[from]) {
        assert IsDigit(s[from + 1]);
      }
    }
  }

  /** `_parse_number(raw)` for a token: text that cleans to nothing has no
      value; the whole cleaned text is taken when `float()` accepts it;
      otherwise only a number inside it can give a value, so text without
      a digit has none. */
  function ParseAmount(raw: string): (r: Option<real>)
    ensures Cleaned(raw) == [] ==> r.None?
    ensures ParseFloat(Cleaned(raw)).Some? ==> r == ParseFloat(Cleaned(raw))
    ensures ParseFloat(Cleaned(raw)).None? && (forall i :: 0 <= i < |Cleaned(raw)| ==> !IsDigit(Cleaned(raw)[i])) ==>
              r.None?
  {
    var c := Cleaned(raw);
    NumberSearchIffDigit(c, 0);
    if c == [] then None
    else
      match ParseFloat(c)
      case Some(v) => Some(v)
      case None =>
        match NumberSearch(c, 0)
        case None => None
        case Some(m) => ParseFloat(RemoveChar(m, ','))
  }

  /** Grouped digits read as their number: `"5,000"` gives 5000. */
  lemma ParseAmountGrouped(n: nat)
    ensures ParseAmount(GroupThousands(NatToString(n))) == Some(n as real)
  {
    var s := NatToString(n);
    CleanedGrouped(s);
    WholeParses(s);
  }

  /** Cleaning grouped digits leaves the bare digits. */
  lemma CleanedGrouped(s: string)
    requires s != [] && AllDigits(s)
    ensures Cleaned(GroupThousands(s)) == s
  {
    UnsymboledGrouped(s);
    StripNoop(s);
  }

  lemma UnsymboledGrouped(s: string)
    requires AllDigits(s)
    ensures Unsymboled(GroupThousands(s)) == s
  {
    GroupThousandsUngroup(s);
    NoSymbols(s);
  }

  lemma NoSymbols(s: string)
    requires AllDigits(s)
    ensures RemoveChar(RemoveChar(RemoveChar(s, '円'), '\U{A5}'), '\U{FFE5}') == s
    ensures ReplaceChar(s, '\U{2212}', "-") == s
  {
    assert '円' !in s && '\U{A5}' !in s && '\U{FFE5}' !in s && '\U{2212}' !in s;
  }

  /** The index of the first element meeting `p`, or `|xs|`. */
  function FirstWhere<T>(xs: seq<T>, p: T -> bool): (r: nat)
    ensures r <= |xs|
    ensures r < |xs| ==> p(xs[r])
    ensures forall j :: 0 <= j < r ==> !p(xs[j])
  {
    if xs == [] then 0 else if p(xs[0]) then 0 else 1 + FirstWhere(xs[1..], p)
  }

  /** The line's text contains one of the labels. */
  predicate HasLabel(l: Line, labels: seq<string>) {
    exists k :: 0 <= k < |labels| && Contains(l.Text(), labels[k])
  }

  /** `_find_line`: the index of the first line whose text contains one of
      the labels, or `|lines|`. */
  function FindLine(lines: seq<Line>, labels: seq<string>): (r: nat)
    ensures r <= |lines|
    ensures r < |lines| ==> HasLabel(lines[r], labels)
    ensures forall j :: 0 <= j < r ==> !HasLabel(lines[j], labels)
  {
    FirstWhere(lines, (l: Line) => HasLabel(l, labels))
  }

  /** The value of the last token that `parse` reads, if any. */
  function LastParsed(tokens: seq<string>, parse: string -> Option<real>): (r: Option<real>)
    ensures r.None? <==> forall k :: 0 <= k < |tokens| ==> parse(tokens[k]).None?
  {
    if tokens == [] then None
    else
      match parse(tokens[|tokens| - 1])
      case Some(v) => Some(v)
      case None => LastParsed(tokens[..|tokens| - 1], parse)
  }

  /** The value comes from the last token that parses. */
  lemma {:induction false} LastParsedIsLast(tokens: seq<string>, parse: string -> Option<real>)
    requires LastParsed(tokens, parse).Some?
    ensures exists k :: 0 <= k < |tokens| && parse(tokens[k]) == LastParsed(tokens, parse) &&
                        forall j :: k < j < |tokens| ==> parse(tokens[j]).None?
  {
    var n := |tokens| - 1;
    var q := tokens[..n];
    if parse(tokens[n]).None? {
      assert LastParsed(tokens, parse) == LastParsed(q, parse);
      LastParsedIsLast(q, parse);
      var k :| 0 <= k < |q| && parse(q[k]) == LastParsed(q, parse) &&
        forall j :: k < j < |q| ==> parse(q[j]).None?;
      assert tokens[k] == q[k];
      assert forall j :: k < j < n ==> tokens[j] == q[j];
      assert forall j :: k < j < |tokens| ==> parse(tokens[j]).None?;
    } else {
      assert parse(tokens[n]) == LastParsed(tokens, parse);
    }
  }

  /** `_extract_amount_from_line(lines[i])`, `None` when no line was found. */
  function AmountOfLine(lines: seq<Line>, i: nat): Option<real> {
    if i < |lines| then LastParsed(lines[i].tokens, ParseAmount) else None
  }

  // ---- line items ----

  /** A detected line item; `None` stands for Python's `None`. */
  datatype LineItem = LineItem(description: string, quantity: Option<real>, unitPrice: Option<real>, amount: Option<real>)

  /** The positions of the tokens in which the number pattern finds a match. */
  function NumericIndices(tokens: seq<string>): (r: seq<nat>)
    ensures forall i :: 0 <= i < |r| ==> r[i] < |tokens|
  {
    if tokens == [] then []
    else
      var rest := NumericIndices(tokens[..|tokens| - 1]);
      if NumberSearch(tokens[|tokens| - 1], 0).Some? then rest + [|tokens| - 1] else rest
  }

  /** `_detect_line_item`: needs two numeric tokens; the description is
      what precedes the first one (or the whole line), the amount is the
      last one, and quantity and unit price come before it. */
  function DetectLineItem(line: Line): Option<LineItem> {
    var n := NumericIndices(line.tokens);
    if |n| < 2 then None
    else
      var d := StripSet(Join(" ", line.tokens[..n[0]]), {' ', ':', '：'});
      var description := if d == [] then line.Text() else d;
      var amount := ParseAmount(line.tokens[n[|n| - 1]]);
      if |n| >= 3 then
        Some(LineItem(description, ParseAmount(line.tokens[n[|n| - 3]]), ParseAmount(line.tokens[n[|n| - 2]]), amount))
      else
        Some(LineItem(description, ParseAmount(line.tokens[n[0]]), None, amount))
  }

  /** The tokens that hold a digit, in order (a reference definition). */
  function DigitTokens(tokens: seq<string>): seq<string> {
    if tokens == [] then []
    else
      var rest := DigitTokens(tokens[..|tokens| - 1]);
      if HasDigit(tokens[|tokens| - 1]) then rest + [tokens[|tokens| - 1]] else rest
  }

  lemma SearchFindsDigit(t: string)
    ensures NumberSearch(t, 0).Some? <==> HasDigit(t)
  {
    NumberSearchIffDigit(t, 0);
  }

  /** The numeric tokens are exactly the tokens holding a digit. */
  lemma {:induction false} NumericAreDigitTokens(tokens: seq<string>)
    ensures |NumericIndices(tokens)| == |DigitTokens(tokens)|
    ensures forall i :: 0 <= i < |DigitTokens(tokens)| ==>
      tokens[NumericIndices(tokens)[i]] == DigitTokens(tokens)[i]
  {
    if tokens != [] {
      var q := tokens[..|tokens| - 1];
      var x := tokens[|tokens| - 1];
      var nq := NumericIndices(q);
      var dq := DigitTokens(q);
      NumericAreDigitTokens(q);
      SearchFindsDigit(x);
      assert forall i :: 0 <= i < |nq| ==> tokens[nq[i]] == q[nq[i]];
      if HasDigit(x) {
        assert NumericIndices(tokens) == nq + [|q|];
        assert DigitTokens(tokens) == dq + [x];
        forall i | 0 <= i < |dq| + 1
          ensures tokens[(nq + [|q|])[i]] == (dq + [x])[i]
        {
          if i < |dq| {
            assert (nq + [|q|])[i] == nq[i] && (dq + [x])[i] == dq[i];
          }
        }
      } else {
        assert NumericIndices(tokens) == nq;
        assert DigitTokens(tokens) == dq;
      }
    }
  }

  /** `_detect_line_item` in terms of the tokens that hold a digit: fewer
      than two give nothing; the amount is the last; with three or more the
      quantity and unit price are the third and second from last; with two
      the quantity is the first and there is no unit price. */
  lemma DetectLineItemSpec(line: Line)
    ensures var d := DigitTokens(line.tokens);
      var r := DetectLineItem(line);
      (r.None? <==> |d| < 2) &&
      (r.Some? ==> r.value.amount == ParseAmount(d[|d| - 1])) &&
      (r.Some? && |d| >= 3 ==>
        r.value.quantity == ParseAmount(d[|d| - 3]) && r.value.unitPrice == ParseAmount(d[|d| - 2])) &&
      (r.Some? && |d| == 2 ==> r.value.quantity == ParseAmount(d[0]) && r.value.unitPrice.None?)
  {
    var n := NumericIndices(line.tokens);
    var d := DigitTokens(line.tokens);
    NumericAreDigitTokens(line.tokens);
    if |n| >= 2 {
      assert line.tokens[n[|n| - 1]] == d[|d| - 1];
      assert line.tokens[n[0]] == d[0];
      if |n| >= 3 {
        assert line.tokens[n[|n| - 3]] == d[|d| - 3];
        assert line.tokens[n[|n| - 2]] == d[|d| - 2];
      }
    }
  }

  // ---- extract_structured_fields ----

  predicate HasCompany(l: Line) {
    exists k :: 0 <= k < |CompanyKeywords| && Contains(l.Text(), CompanyKeywords[k])
  }

  /** How many of the column headers the line's text contains. */
  function HeaderCount(text: string, headers: seq<string>): (n: nat)
    ensures n <= |headers|
  {
    if headers == [] then 0
    else HeaderCount(text, headers[..|headers| - 1]) + (if Contains(text, headers[|headers| - 1]) then 1 else 0)
  }

  predicate IsHeader(l: Line) {
    HeaderCount(l.Text(), LineHeaders) >= 2
  }

  function Head(lines: seq<Line>, n: nat): seq<Line> {
    if |lines| <= n then lines else lines[..n]
  }

  /** The vendor: the first of the first five lines naming a company form,
      else the first line, else `None`. */
  function VendorOf(lines: seq<Line>): Option<string> {
    var top := Head(lines, 5);
    var c := FirstWhere(top, HasCompany);
    if c < |top| then Some(top[c].Text())
    else if lines != [] then Some(lines[0].Text())
    else None
  }

  /** The lines read for items: those after the first header line among
      the first ten, or every line when there is none. */
  function DetailLines(lines: seq<Line>): seq<Line> {
    var top := Head(lines, 10);
    var h := FirstWhere(top, IsHeader);
    if h < |top| then lines[h + 1..] else lines
  }

  /** A detected item is kept only when it has an amount. */
  function ItemOf(line: Line): Option<LineItem> {
    var c := DetectLineItem(line);
    if c.Some? && c.value.amount.Some? then c else None
  }

  /** `totals`: the last parsable token of the first line with each label. */
  datatype Totals = Totals(total: Option<real>, subtotal: Option<real>, tax: Option<real>)

  /** The result dictionary; `totals` is `None` for the `{}` of no spans. */
  datatype Structured = Structured(
    vendor: Option<string>,
    issueDate: Option<string>,
    dueDate: Option<string>,
    lineItems: seq<LineItem>,
    totals: Option<Totals>)

  function DateOf(lines: seq<Line>, labels: seq<string>): Option<string> {
    var i := FindLine(lines, labels);
    if i < |lines| then NormalizeDate(lines[i].Text()) else None
  }

  function TotalsOf(lines: seq<Line>): Totals {
    Totals(AmountOfLine(lines, FindLine(lines, TotalLabels)),
           AmountOfLine(lines, FindLine(lines, SubtotalLabels)),
           AmountOfLine(lines, FindLine(lines, TaxLabels)))
  }

  /** `extract_structured_fields(spans)` after the lines are grouped. */
  function FieldsOfLines(lines: seq<Line>): Structured {
    Structured(VendorOf(lines), DateOf(lines, IssueDateLabels), DateOf(lines, DueDateLabels),
               Kept(DetailLines(lines), ItemOf), Some(TotalsOf(lines)))
  }

  /** `extract_structured_fields(spans)`: the totals are missing exactly
      without spans, a vendor is named exactly when some line was grouped,
      and the dates found are `YYYY-MM-DD`. */
  function StructuredOf(spans: seq<Span>): (r: Structured)
    ensures r.totals.None? <==> spans == []
    ensures r.vendor.None? <==> GroupedLines(spans) == []
    ensures r.issueDate.Some? ==> DateShaped(r.issueDate.value)
    ensures r.dueDate.Some? ==> DateShaped(r.dueDate.value)
  {
    if spans == [] then Structured(None, None, None, [], None)
    else
      VendorRule(GroupedLines(spans));
      FieldsOfLines(GroupedLines(spans))
  }

  /** `extract_structured_fields`, with its loops. */
  method ExtractStructuredFields(spans: seq<Span>) returns (r: Structured)
    ensures r == StructuredOf(spans)
  {
    if spans == [] {
      return Structured(None, None, None, [], None);
    }
    var lines := GroupLines(spans);
    var vendor := FindVendor(lines);
    var issueDate := DateOf(lines, IssueDateLabels);
    var dueDate := DateOf(lines, DueDateLabels);
    var details := FindDetailLines(lines);
    var items := Collect(details, ItemOf);
    r := Structured(vendor, issueDate, dueDate, items, Some(TotalsOf(lines)));
  }

  /** The search loops `for line in lines: if p(line): ...; break`: the
      index of the first line meeting `p`, or `|lines|`. */
  method Search(lines: seq<Line>, p: Line -> bool) returns (i: nat)
    ensures i == FirstWhere(lines, p)
  {
    i := 0;
    while i < |lines| && !p(lines[i])
      invariant 0 <= i <= |lines|
      invariant forall j :: 0 <= j < i ==> !p(lines[j])
    {
      i := i + 1;
    }
    SearchStops(lines, p, i);
  }

  lemma {:induction false} SearchStops<T>(xs: seq<T>, p: T -> bool, i: nat)
    requires i <= |xs| && (i < |xs| ==> p(xs[i])) && forall j :: 0 <= j < i ==> !p(xs[j])
    ensures i == FirstWhere(xs, p)
  {
    if xs != [] && i > 0 {
      SearchStops(xs[1..], p, i - 1);
    }
  }

  /** The vendor loop over `lines[:5]`, breaking at the first company line. */
  method FindVendor(lines: seq<Line>) returns (vendor: Option<string>)
    ensures vendor == VendorOf(lines)
  {
    var top := Head(lines, 5);
    var i := Search(top, HasCompany);
    vendor := None;
    if i < |top| {
      vendor := Some(top[i].Text());
    }
    if vendor.None? && lines != [] {
      vendor := Some(lines[0].Text());
    }
  }

  /** The header loop over `lines[:10]`, then the slice after the header. */
  method FindDetailLines(lines: seq<Line>) returns (details: seq<Line>)
    ensures details == DetailLines(lines)
  {
    var top := Head(lines, 10);
    var i := Search(top, IsHeader);
    details := if i < |top| then lines[i + 1..] else lines;
  }

  // ---- what the result promises ----

  /** No spans: no vendor, no dates, no items and empty totals. */
  lemma NoSpans()
    ensures StructuredOf([]).vendor.None? && StructuredOf([]).issueDate.None?
    ensures StructuredOf([]).dueDate.None? && StructuredOf([]).lineItems == []
    ensures StructuredOf([]).totals.None?
  {
  }

  /** The vendor is the text of the first of the first five lines that
      names a company form; failing that the first line's; `None` only
      without lines. */
  lemma VendorRule(lines: seq<Line>)
    ensures lines == [] ==> VendorOf(lines).None?
    ensures forall k :: 0 <= k < |lines| && k < 5 && HasCompany(lines[k]) &&
                        (forall j :: 0 <= j < k ==> !HasCompany(lines[j])) ==>
                        VendorOf(lines) == Some(lines[k].Text())
    ensures lines != [] && (forall k :: 0 <= k < |lines| && k < 5 ==> !HasCompany(lines[k])) ==>
      VendorOf(lines) == Some(lines[0].Text())
  {
    var top := Head(lines, 5);
    assert forall k :: 0 <= k < |top| ==> top[k] == lines[k];
    forall k | 0 <= k < |lines| && k < 5 && HasCompany(lines[k]) && (forall j :: 0 <= j < k ==> !HasCompany(lines[j]))
      ensures VendorOf(lines) == Some(lines[k].Text())
    {
      FirstWhereIs(top, HasCompany, k);
    }
    if lines != [] && (forall k :: 0 <= k < |lines| && k < 5 ==> !HasCompany(lines[k])) {
      FirstWhereNone(top, HasCompany);
    }
  }

  lemma FirstWhereIs<T>(xs: seq<T>, p: T -> bool, k: nat)
    requires k < |xs| && p(xs[k]) && forall j :: 0 <= j < k ==> !p(xs[j])
    ensures FirstWhere(xs, p) == k
  {
  }

  lemma FirstWhereNone<T>(xs: seq<T>, p: T -> bool)
    requires forall j :: 0 <= j < |xs| ==> !p(xs[j])
    ensures FirstWhere(xs, p) == |xs|
  {
  }

  /** What is kept from a suffix comes from the suffix's elements, and
      each of them contributes. */
  lemma KeptSuffix<E, S>(xs: seq<E>, start: nat, f: E -> Option<S>, y: S)
    requires start <= |xs|
    ensures y in Kept(xs[start..], f) <==> exists k :: start <= k < |xs| && f(xs[k]) == Some(y)
  {
    var tail := xs[start..];
    if y in Kept(tail, f) {
      KeptSound(tail, f, y);
      var k :| 0 <= k < |tail| && f(tail[k]) == Some(y);
      assert tail[k] == xs[start + k];
    }
    if exists k :: start <= k < |xs| && f(xs[k]) == Some(y) {
      var k :| start <= k < |xs| && f(xs[k]) == Some(y);
      assert tail[k - start] == xs[k];
      KeptComplete(tail, f, k - start);
    }
  }

  /** The line where the items start: after the first header line among
      the first ten, or the first line when there is none. */
  function ItemsStart(lines: seq<Line>): (start: nat)
    ensures start <= |lines|
    ensures DetailLines(lines) == lines[start..]
  {
    var top := Head(lines, 10);
    var h := FirstWhere(top, IsHeader);
    if h < |top| then h + 1 else 0
  }

  /** Every item is what detection gives, with an amount, for a line from
      the items' start on; every such line gives its item. */
  lemma ItemsAfterHeader(lines: seq<Line>, item: LineItem)
    ensures item in Kept(DetailLines(lines), ItemOf) <==>
      exists k :: ItemsStart(lines) <= k < |lines| && ItemOf(lines[k]) == Some(item)
  {
    KeptSuffix(lines, ItemsStart(lines), ItemOf, item);
  }

  /** An item is a detected line item that has an amount. */
  lemma ItemOfDetected(line: Line)
    ensures ItemOf(line).Some? <==> DetectLineItem(line).Some? && DetectLineItem(line).value.amount.Some?
    ensures ItemOf(line).Some? ==> ItemOf(line) == DetectLineItem(line)
  {
  }
}
