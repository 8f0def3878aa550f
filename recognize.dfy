/** Multi-backend OCR orchestration: the confidence filters applied to what
    the PaddleOCR and Tesseract engines report, the merge of spans that
    carry the same text, the score of each orientation's candidate and the
    choice of the best orientation.

    The engines themselves and the image preprocessing are not modelled:
    each orientation comes with the raw reports the engines would give it. */
module Recognize {
  import opened Wrappers
  import opened Text

  type Point = (int, int)

  /** `OCRSpan`: one recognised piece of text, its confidence in [0, 1]
      and the corner points of its box. */
  datatype Span = Span(text: string, confidence: real, bbox: seq<Point>)

  /** One PaddleOCR entry: the polygon, the text and the reported
      confidence (`None` when the engine gave none). */
  datatype PaddleEntry = PaddleEntry(points: seq<Point>, text: string, confidence: Option<real>)

  /** One row of Tesseract's `image_to_data` table; `conf` is a percentage
      and -1 for rows that hold no word. */
  datatype TesseractRow = TesseractRow(text: string, conf: real, left: int, top: int, width: int, height: int)

  const PaddleThreshold: real := 0.5
  const TesseractThreshold: real := 0.6

  // ---- the confidence filters ----

  /** `OCR_BACKEND` either unset (empty) or naming paddle lets PaddleOCR run. */
  predicate PaddleEnabled(backend: string) {
    Lower(backend) == [] || Contains(Lower(backend), "paddle")
  }

  /** The span a Paddle entry gives: a missing or zero confidence counts as
      0.0, and anything below 0.5 is dropped. */
  function PaddleSpan(e: PaddleEntry): Option<Span> {
    var c := e.confidence.GetOr(0.0);
    if c < PaddleThreshold then None else Some(Span(Strip(e.text), c, e.points))
  }

  /** The four corners of a Tesseract word box, clockwise from top left. */
  function Corners(x: int, y: int, w: int, h: int): seq<Point> {
    [(x, y), (x + w, y), (x + w, y + h), (x, y + h)]
  }

  /** The span a Tesseract row gives: empty words and negative confidences
      are dropped, and so is anything below 0.6 once turned into a fraction. */
  function TesseractSpan(row: TesseractRow): Option<Span> {
    if row.text == [] || row.conf < 0.0 then None
    else
      var c := row.conf / 100.0;
      if c < TesseractThreshold then None
      else Some(Span(Strip(row.text), c, Corners(row.left, row.top, row.width, row.height)))
  }

  /** A Paddle entry is kept exactly when its confidence reaches 0.5, and
      then keeps its stripped text, its confidence and its polygon. */
  lemma PaddleAccepts(e: PaddleEntry)
    ensures PaddleSpan(e).Some? <==> e.confidence.Some? && e.confidence.value >= 0.5
    ensures PaddleSpan(e).Some? ==>
      PaddleSpan(e).value == Span(Strip(e.text), e.confidence.value, e.points)
  {
  }

  /** A Tesseract row is kept exactly when it holds a word reported with a
      confidence of at least 60 percent; its box is the word's rectangle. */
  lemma TesseractAccepts(row: TesseractRow)
    ensures TesseractSpan(row).Some? <==> row.text != [] && row.conf >= 60.0
    ensures TesseractSpan(row).Some? ==>
      var s := TesseractSpan(row).value;
      s.text == Strip(row.text) && s.confidence * 100.0 == row.conf &&
      |s.bbox| == 4 && s.bbox[0] == (row.left, row.top) &&
      s.bbox[2] == (row.left + row.width, row.top + row.height) &&
      s.bbox[1] == (s.bbox[2].0, s.bbox[0].1) && s.bbox[3] == (s.bbox[0].0, s.bbox[2].1)
  {
  }

  /** What a filter keeps from a list of reports, in report order (the
      spans of the OCR readers, and likewise the lines and line items read
      off them). */
  function Kept<E, S>(xs: seq<E>, f: E -> Option<S>): (r: seq<S>)
    ensures |r| <= |xs|
  {
    if xs == [] then []
    else
      var rest := Kept(xs[..|xs| - 1], f);
      match f(xs[|xs| - 1])
      case Some(s) => rest + [s]
      case None => rest
  }

  /** Everything kept is what the filter gives for some report. */
  lemma {:induction false} KeptSound<E, S>(xs: seq<E>, f: E -> Option<S>, s: S)
    requires s in Kept(xs, f)
    ensures exists k :: 0 <= k < |xs| && f(xs[k]) == Some(s)
  {
    var q := xs[..|xs| - 1];
    if s in Kept(q, f) {
      KeptSound(q, f, s);
      var k :| 0 <= k < |q| && f(q[k]) == Some(s);
      assert xs[k] == q[k];
    } else {
      assert f(xs[|xs| - 1]) == Some(s);
    }
  }

  /** One more report adds what the filter gives for it, if anything. */
  lemma KeptStep<E, S>(xs: seq<E>, f: E -> Option<S>, i: nat)
    requires i < |xs|
    ensures Kept(xs[..i + 1], f) ==
      Kept(xs[..i], f) + (if f(xs[i]).Some? then [f(xs[i]).value] else [])
  {
    assert xs[..i + 1][..i] == xs[..i];
  }

  /** Every report the filter accepts contributes its value. */
  lemma {:induction false} KeptComplete<E, S>(xs: seq<E>, f: E -> Option<S>, k: nat)
    requires k < |xs| && f(xs[k]).Some?
    ensures f(xs[k]).value in Kept(xs, f)
  {
    if k < |xs| - 1 {
      KeptComplete(xs[..|xs| - 1], f, k);
    }
  }

  /** The loops that build a list by keeping what `f` gives for each
      element (`if x is None: continue; out.append(x)`). */
  method Collect<E, S>(xs: seq<E>, f: E -> Option<S>) returns (r: seq<S>)
    ensures r == Kept(xs, f)
  {
    r := [];
    var k := 0;
    while k < |xs|
      invariant 0 <= k <= |xs|
      invariant r == Kept(xs[..k], f)
    {
      KeptStep(xs, f, k);
      var y := f(xs[k]);
      if y.Some? {
        r := r + [y.value];
      }
      k := k + 1;
    }
    assert xs[..k] == xs;
  }

  /** Every span Paddle contributes reached 0.5. */
  lemma PaddleConfidence(entries: seq<PaddleEntry>)
    ensures forall s :: s in Kept(entries, PaddleSpan) ==> s.confidence >= PaddleThreshold
  {
    forall s | s in Kept(entries, PaddleSpan)
      ensures s.confidence >= PaddleThreshold
    {
      KeptSound(entries, PaddleSpan, s);
    }
  }

  /** Every span Tesseract contributes reached 0.6 and has a four-corner box. */
  lemma TesseractConfidence(rows: seq<TesseractRow>)
    ensures forall s :: s in Kept(rows, TesseractSpan) ==>
      s.confidence >= TesseractThreshold && |s.bbox| == 4
  {
    forall s | s in Kept(rows, TesseractSpan)
      ensures s.confidence >= TesseractThreshold && |s.bbox| == 4
    {
      KeptSound(rows, TesseractSpan, s);
    }
  }

  /** `_recognize_paddle` after the engine call: the accepted entries. */
  method RecognizePaddle(backend: string, entries: seq<PaddleEntry>) returns (spans: seq<Span>)
    ensures spans == if PaddleEnabled(backend) then Kept(entries, PaddleSpan) else []
  {
    spans := [];
    if !PaddleEnabled(backend) {
      return;
    }
    var i := 0;
    while i < |entries|
      invariant 0 <= i <= |entries|
      invariant spans == Kept(entries[..i], PaddleSpan)
    {
      var e := entries[i];
      var conf := e.confidence.GetOr(0.0);
      KeptStep(entries, PaddleSpan, i);
      if conf >= PaddleThreshold {
        spans := spans + [Span(Strip(e.text), conf, e.points)];
      }
      i := i + 1;
    }
    assert entries[..i] == entries;
  }

  /** `_recognize_tesseract` after the engine call: the accepted rows. */
  method RecognizeTesseract(rows: seq<TesseractRow>) returns (spans: seq<Span>)
    ensures spans == Kept(rows, TesseractSpan)
  {
    spans := [];
    var i := 0;
    while i < |rows|
      invariant 0 <= i <= |rows|
      invariant spans == Kept(rows[..i], TesseractSpan)
    {
      KeptStep(rows, TesseractSpan, i);
      var kept := TesseractWord(rows[i]);
      spans := spans + kept;
      i := i + 1;
    }
    assert rows[..i] == rows;
  }

  /** One pass of `_recognize_tesseract`'s loop: the span one row adds. */
  method TesseractWord(row: TesseractRow) returns (kept: seq<Span>)
    ensures kept == if TesseractSpan(row).Some? then [TesseractSpan(row).value] else []
  {
    kept := [];
    if row.text == [] || row.conf < 0.0 {
      return;
    }
    var conf := row.conf / 100.0;
    if conf < TesseractThreshold {
      return;
    }
    kept := [Span(Strip(row.text), conf, Corners(row.left, row.top, row.width, row.height))];
  }

  // ---- merging spans with the same text ----

  /** The index of the first span with text `t`, or `|s|` when none has it. */
  function Pos(s: seq<Span>, t: string): (r: nat)
    ensures r <= |s|
    ensures r < |s| ==> s[r].text == t
    ensures forall j :: 0 <= j < r ==> s[j].text != t
  {
    if s == [] then 0 else if s[0].text == t then 0 else 1 + Pos(s[1..], t)
  }

  /** Python's `max(a, b)`: the first argument unless the second is larger. */
  function Max(a: real, b: real): real {
    if b > a then b else a
  }

  /** One pass of the merge loop: blank spans are skipped, a text already
      present raises that entry's confidence, a new text is appended. */
  function MergeStep(m: seq<Span>, x: Span): seq<Span> {
    if x.text == [] then m
    else
      var i := Pos(m, x.text);
      if i < |m| then m[i := m[i].(confidence := Max(m[i].confidence, x.confidence))]
      else m + [x]
  }

  /** `_merge_spans`: the list after the loop has seen every span.  It is
      no longer than its input and holds no blank span. */
  function Merged(s: seq<Span>): (m: seq<Span>)
    ensures |m| <= |s|
    ensures forall i :: 0 <= i < |m| ==> m[i].text != []
  {
    if s == [] then [] else MergeStep(Merged(s[..|s| - 1]), s[|s| - 1])
  }

  // What the merge promises about its input `s` and its output `m`.

  /** No output span is blank; each takes its text and box from the first
      input span with that text. */
  ghost predicate FromFirst(s: seq<Span>, m: seq<Span>) {
    forall i :: 0 <= i < |m| ==>
      m[i].text != [] && Pos(s, m[i].text) < |s| && m[i].bbox == s[Pos(s, m[i].text)].bbox
  }

  /** Output spans come in the order their texts first occur in the input,
      so no text appears twice. */
  ghost predicate InFirstOrder(s: seq<Span>, m: seq<Span>) {
    forall i, j :: 0 <= i < j < |m| ==> Pos(s, m[i].text) < Pos(s, m[j].text)
  }

  /** Every non-blank input text has an output span. */
  ghost predicate Covers(s: seq<Span>, m: seq<Span>) {
    forall k :: 0 <= k < |s| && s[k].text != [] ==> Pos(m, s[k].text) < |m|
  }

  /** No input span with an output span's text has a higher confidence. */
  ghost predicate Dominates(s: seq<Span>, m: seq<Span>) {
    forall i, k :: 0 <= i < |m| && 0 <= k < |s| && s[k].text == m[i].text ==>
      s[k].confidence <= m[i].confidence
  }

  /** Each output confidence is that of some input span with its text. */
  ghost predicate Attained(s: seq<Span>, m: seq<Span>) {
    forall i :: 0 <= i < |m| ==>
      exists k :: 0 <= k < |s| && s[k].text == m[i].text && s[k].confidence == m[i].confidence
  }

  ghost predicate MergeSpec(s: seq<Span>, m: seq<Span>) {
    FromFirst(s, m) && InFirstOrder(s, m) && Covers(s, m) && Dominates(s, m) && Attained(s, m)
  }

  /** Appending a span leaves the first position of every earlier text. */
  lemma {:induction false} PosAppend(s: seq<Span>, x: Span, t: string)
    ensures Pos(s + [x], t) == if Pos(s, t) < |s| then Pos(s, t) else if x.text == t then |s| else |s| + 1
  {
    if s != [] && s[0].text != t {
      assert (s + [x])[1..] == s[1..] + [x];
      PosAppend(s[1..], x, t);
    }
  }

  /** Lists with the same texts in the same places find a text at the same index. */
  lemma {:induction false} PosSameTexts(a: seq<Span>, b: seq<Span>, t: string)
    requires |a| == |b| && forall i :: 0 <= i < |a| ==> a[i].text == b[i].text
    ensures Pos(a, t) == Pos(b, t)
  {
    if a != [] && a[0].text != t {
      PosSameTexts(a[1..], b[1..], t);
    }
  }

  /** A text already found in the output is not the appended span's, in the
      new-text case: the new text occurs nowhere in the input so far. */
  lemma NewText(s: seq<Span>, m: seq<Span>, x: Span)
    requires Covers(s, m) && x.text != [] && Pos(m, x.text) == |m|
    ensures Pos(s, x.text) == |s|
  {
  }

  /** In the repeated-text case only the found entry changes, and only its
      confidence. */
  lemma RepeatShape(m: seq<Span>, x: Span)
    requires x.text != [] && Pos(m, x.text) < |m|
    ensures |MergeStep(m, x)| == |m|
    ensures forall i :: 0 <= i < |m| ==>
      MergeStep(m, x)[i].text == m[i].text && MergeStep(m, x)[i].bbox == m[i].bbox
    ensures forall i :: 0 <= i < |m| && i != Pos(m, x.text) ==> MergeStep(m, x)[i] == m[i]
    ensures MergeStep(m, x)[Pos(m, x.text)].confidence == Max(m[Pos(m, x.text)].confidence, x.confidence)
  {
  }

  lemma StepFromFirst(s: seq<Span>, m: seq<Span>, x: Span)
    requires FromFirst(s, m) && Covers(s, m)
    ensures FromFirst(s + [x], MergeStep(m, x))
  {
    var s' := s + [x];
    var m' := MergeStep(m, x);
    if x.text != [] && Pos(m, x.text) < |m| {
      RepeatShape(m, x);
    } else if x.text != [] {
      NewText(s, m, x);
      PosAppend(s, x, x.text);
      assert s'[|s|] == x;
    }
    forall i | 0 <= i < |m|
      ensures Pos(s', m[i].text) == Pos(s, m[i].text) && s'[Pos(s, m[i].text)] == s[Pos(s, m[i].text)]
    {
      PosAppend(s, x, m[i].text);
    }
  }

  lemma StepInFirstOrder(s: seq<Span>, m: seq<Span>, x: Span)
    requires FromFirst(s, m) && InFirstOrder(s, m) && Covers(s, m)
    ensures InFirstOrder(s + [x], MergeStep(m, x))
  {
    var s' := s + [x];
    forall i | 0 <= i < |m|
      ensures Pos(s', m[i].text) == Pos(s, m[i].text)
    {
      PosAppend(s, x, m[i].text);
    }
    if x.text != [] && Pos(m, x.text) < |m| {
      RepeatShape(m, x);
    } else if x.text != [] {
      NewText(s, m, x);
      PosAppend(s, x, x.text);
      var m' := m + [x];
      assert forall i :: 0 <= i < |m| ==> m'[i] == m[i];
    }
  }

  lemma StepCovers(s: seq<Span>, m: seq<Span>, x: Span)
    requires Covers(s, m)
    ensures Covers(s + [x], MergeStep(m, x))
  {
    var s' := s + [x];
    var m' := MergeStep(m, x);
    if x.text != [] && Pos(m, x.text) < |m| {
      RepeatShape(m, x);
      forall t
        ensures Pos(m', t) == Pos(m, t)
      {
        PosSameTexts(m, m', t);
      }
    } else if x.text != [] {
      forall t
        ensures Pos(m, t) < |m| ==> Pos(m', t) < |m'|
        ensures Pos(m', x.text) < |m'|
      {
        PosAppend(m, x, t);
        PosAppend(m, x, x.text);
      }
    }
    forall k | 0 <= k < |s'| && s'[k].text != []
      ensures Pos(m', s'[k].text) < |m'|
    {
      if k < |s| {
        assert s'[k] == s[k];
      }
    }
  }

  lemma StepDominates(s: seq<Span>, m: seq<Span>, x: Span)
    requires FromFirst(s, m) && InFirstOrder(s, m) && Covers(s, m) && Dominates(s, m)
    ensures Dominates(s + [x], MergeStep(m, x))
  {
    var s' := s + [x];
    var m' := MergeStep(m, x);
    if x.text != [] && Pos(m, x.text) < |m| {
      RepeatShape(m, x);
      var p := Pos(m, x.text);
      forall i, k | 0 <= i < |m'| && 0 <= k < |s'| && s'[k].text == m'[i].text
        ensures s'[k].confidence <= m'[i].confidence
      {
        if k < |s| {
          assert s'[k] == s[k];
        } else if i != p {
          assert false;
        }
      }
    } else if x.text != [] {
      NewText(s, m, x);
      forall i, k | 0 <= i < |m'| && 0 <= k < |s'| && s'[k].text == m'[i].text
        ensures s'[k].confidence <= m'[i].confidence
      {
        if i < |m| && k == |s| {
          assert false;
        } else if i < |m| {
          assert s'[k] == s[k] && m'[i] == m[i];
        } else if k < |s| {
          assert false;
        }
      }
    } else {
      forall i, k | 0 <= i < |m'| && 0 <= k < |s'| && s'[k].text == m'[i].text
        ensures s'[k].confidence <= m'[i].confidence
      {
        assert k < |s| && s'[k] == s[k];
      }
    }
  }

  lemma StepAttained(s: seq<Span>, m: seq<Span>, x: Span)
    requires Attained(s, m)
    ensures Attained(s + [x], MergeStep(m, x))
  {
    var s' := s + [x];
    var m' := MergeStep(m, x);
    assert s'[|s|] == x;
    if x.text != [] && Pos(m, x.text) < |m| {
      RepeatShape(m, x);
    }
    forall i | 0 <= i < |m'|
      ensures exists k :: 0 <= k < |s'| && s'[k].text == m'[i].text && s'[k].confidence == m'[i].confidence
    {
      if i < |m| {
        var k :| 0 <= k < |s| && s[k].text == m[i].text && s[k].confidence == m[i].confidence;
        assert s'[k] == s[k];
        if x.text == [] || Pos(m, x.text) == |m| {
          assert m'[i] == m[i];
        }
      }
    }
  }

  /** `_merge_spans` meets its specification on every input. */
  lemma {:induction false} MergedMeetsSpec(s: seq<Span>)
    ensures MergeSpec(s, Merged(s))
    decreases |s|
  {
    if s != [] {
      var q := s[..|s| - 1];
      var x := s[|s| - 1];
      assert s == q + [x];
      MergedMeetsSpec(q);
      var m := Merged(q);
      StepFromFirst(q, m, x);
      StepInFirstOrder(q, m, x);
      StepCovers(q, m, x);
      StepDominates(q, m, x);
      StepAttained(q, m, x);
    }
  }

  /** The merged texts are unique and never blank. */
  lemma MergedTextsUnique(s: seq<Span>)
    ensures forall i :: 0 <= i < |Merged(s)| ==> Merged(s)[i].text != []
    ensures forall i, j :: 0 <= i < j < |Merged(s)| ==> Merged(s)[i].text != Merged(s)[j].text
  {
    MergedMeetsSpec(s);
  }

  /** `_merge_spans` as the loop runs it, updating the found entry in place. */
  method MergeSpans(spans: seq<Span>) returns (merged: seq<Span>)
    ensures merged == Merged(spans)
  {
    merged := [];
    var i := 0;
    while i < |spans|
      invariant 0 <= i <= |spans|
      invariant merged == Merged(spans[..i])
    {
      var span := spans[i];
      assert spans[..i + 1][..i] == spans[..i];
      if span.text != [] {
        var key := span.text;
        var j := 0;
        while j < |merged| && merged[j].text != key
          invariant 0 <= j <= |merged|
          invariant forall k :: 0 <= k < j ==> merged[k].text != key
        {
          j := j + 1;
        }
        assert j == Pos(merged, key);
        if j < |merged| {
          merged := merged[j := merged[j].(confidence := Max(merged[j].confidence, span.confidence))];
        } else {
          merged := merged + [span];
        }
      }
      i := i + 1;
    }
    assert spans[..i] == spans;
  }

  // ---- the candidate score ----

  /** `metadata.get(key, default)` on the orientation's numeric metadata. */
  function Meta(metadata: map<string, real>, key: string, default: real): real {
    if key in metadata then metadata[key] else default
  }

  /** The positive confidences, in span order. */
  function Positive(s: seq<Span>): (r: seq<real>)
    ensures |r| <= |s|
    ensures forall i :: 0 <= i < |r| ==> r[i] > 0.0
  {
    if s == [] then []
    else (if s[0].confidence > 0.0 then [s[0].confidence] else []) + Positive(s[1..])
  }

  function Sum(xs: seq<real>): real {
    if xs == [] then 0.0 else xs[0] + Sum(xs[1..])
  }

  /** The mean positive confidence, 0.2 when no confidence is positive. */
  function AvgConf(s: seq<Span>): real {
    var c := Positive(s);
    if c == [] then 0.2 else Sum(c) / |c| as real
  }

  datatype Scored = Scored(score: real, backendScores: map<string, real>)

  /** `_score_candidate`. */
  function ScoreCandidate(spans: seq<Span>, metadata: map<string, real>): (r: Scored)
    ensures spans == [] ==> r.score == Meta(metadata, "score", 0.0) * 0.2
    ensures spans != [] ==>
      "avg_conf" in r.backendScores && "digit_weight" in r.backendScores &&
      r.score == r.backendScores["avg_conf"] * 10.0 + r.backendScores["digit_weight"]
  {
    if spans == [] then Scored(Meta(metadata, "score", 0.0) * 0.2, map["base" := 0.0])
    else
      var avg := AvgConf(spans);
      var digits := Meta(metadata, "digit_candidates", 0.0);
      Scored(avg * 10.0 + digits, map["avg_conf" := avg, "digit_weight" := digits])
  }

  lemma {:induction false} SumBounds(xs: seq<real>, lo: real, hi: real)
    requires forall i :: 0 <= i < |xs| ==> lo <= xs[i] <= hi
    ensures |xs| as real * lo <= Sum(xs) <= |xs| as real * hi
  {
    if xs != [] {
      SumBounds(xs[1..], lo, hi);
    }
  }

  lemma MeanBounds(total: real, n: real, lo: real, hi: real)
    requires n > 0.0 && n * lo <= total <= n * hi
    ensures lo <= total / n <= hi
  {
  }

  lemma {:induction false} PositiveAll(s: seq<Span>)
    requires forall i :: 0 <= i < |s| ==> s[i].confidence > 0.0
    ensures Positive(s) == seq(|s|, i requires 0 <= i < |s| => s[i].confidence)
  {
    if s != [] {
      PositiveAll(s[1..]);
    }
  }

  /** With every confidence in [lo, hi] and `lo` positive, the mean is in
      [lo, hi] too; so a candidate of filtered spans (each at least 0.5 and
      at most 1) scores between 5 and 10 plus its digit weight. */
  lemma AvgConfBounds(s: seq<Span>, lo: real, hi: real)
    requires s != [] && 0.0 < lo
    requires forall i :: 0 <= i < |s| ==> lo <= s[i].confidence <= hi
    ensures lo <= AvgConf(s) <= hi
    ensures lo * 10.0 <= ScoreCandidate(s, map[]).score <= hi * 10.0
  {
    PositiveAll(s);
    var c := Positive(s);
    assert |c| == |s| && c != [];
    assert forall i :: 0 <= i < |c| ==> c[i] == s[i].confidence;
    MeanOfBounded(c, lo, hi);
    var avg := AvgConf(s);
    assert avg == Sum(c) / |c| as real;
    assert ScoreCandidate(s, map[]) == Scored(avg * 10.0 + 0.0, map["avg_conf" := avg, "digit_weight" := 0.0]);
    ScaleBounds(avg, lo, hi);
  }

  /** The mean of values in [lo, hi] is in [lo, hi]. */
  lemma MeanOfBounded(c: seq<real>, lo: real, hi: real)
    requires c != [] && forall i :: 0 <= i < |c| ==> lo <= c[i] <= hi
    ensures lo <= Sum(c) / |c| as real <= hi
  {
    SumBounds(c, lo, hi);
    MeanBounds(Sum(c), |c| as real, lo, hi);
  }

  lemma ScaleBounds(x: real, lo: real, hi: real)
    requires lo <= x <= hi
    ensures lo * 10.0 <= x * 10.0 + 0.0 <= hi * 10.0
  {
  }

  /** The mean confidence of any span list is positive. */
  lemma {:induction false} AvgConfPositive(s: seq<Span>)
    ensures AvgConf(s) > 0.0
  {
    var c := Positive(s);
    if c != [] {
      SumPositive(c);
    }
  }

  lemma {:induction false} SumPositive(xs: seq<real>)
    requires xs != [] && forall i :: 0 <= i < |xs| ==> xs[i] > 0.0
    ensures Sum(xs) > 0.0
  {
    if |xs| > 1 {
      SumPositive(xs[1..]);
    }
  }

  // ---- choosing the best orientation ----

  /** What the engines report for one preprocessed orientation. */
  datatype Orientation = Orientation(
    paddle: seq<PaddleEntry>,
    psm6: seq<TesseractRow>,
    psm7: seq<TesseractRow>,
    metadata: map<string, real>)

  /** `RecognitionCandidate`; `orientation` is the orientation's index. */
  datatype Candidate = Candidate(orientation: nat, spans: seq<Span>, score: real, backendScores: map<string, real>)

  /** The spans one orientation yields: Paddle's, then Tesseract's in block
      mode, or in line mode when block mode keeps nothing. */
  function OrientationSpans(backend: string, o: Orientation): seq<Span> {
    var paddle := if PaddleEnabled(backend) then Kept(o.paddle, PaddleSpan) else [];
    var block := Kept(o.psm6, TesseractSpan);
    paddle + (if block != [] then block else Kept(o.psm7, TesseractSpan))
  }

  function CandidateFor(backend: string, o: Orientation, index: nat): Candidate {
    var merged := Merged(OrientationSpans(backend, o));
    var scored := ScoreCandidate(merged, o.metadata);
    Candidate(index, merged, scored.score, scored.backendScores)
  }

  function CandidatesFor(backend: string, os: seq<Orientation>): (r: seq<Candidate>)
    ensures |r| == |os|
    ensures forall i :: 0 <= i < |os| ==> r[i] == CandidateFor(backend, os[i], i)
  {
    seq(|os|, i requires 0 <= i < |os| => CandidateFor(backend, os[i], i))
  }

  /** Python's `max(..., key=score)`: the first candidate of maximal score. */
  function BestIndex(c: seq<Candidate>): (b: nat)
    requires c != []
    ensures b < |c|
    ensures forall j :: 0 <= j < |c| ==> c[j].score <= c[b].score
    ensures forall j :: 0 <= j < b ==> c[j].score < c[b].score
  {
    if |c| == 1 then 0
    else
      var b := BestIndex(c[..|c| - 1]);
      if c[|c| - 1].score > c[b].score then |c| - 1 else b
  }

  /** The body of `recognize_text`'s loop for one orientation. */
  method RecognizeOrientation(backend: string, o: Orientation, index: nat) returns (c: Candidate)
    ensures c == CandidateFor(backend, o, index)
  {
    var spans := RecognizePaddle(backend, o.paddle);
    var tesseract := RecognizeTesseract(o.psm6);
    if tesseract == [] {
      tesseract := RecognizeTesseract(o.psm7);
    }
    spans := spans + tesseract;
    var merged := MergeSpans(spans);
    var scored := ScoreCandidate(merged, o.metadata);
    c := Candidate(index, merged, scored.score, scored.backendScores);
  }

  /** `recognize_text` from the engine reports onwards. */
  method RecognizeText(backend: string, orientations: seq<Orientation>) returns (r: Result<Candidate>)
    ensures orientations == [] ==> r == Err(RuntimeError("OCR recognition failed"))
    ensures orientations != [] ==>
      r == Ok(CandidatesFor(backend, orientations)[BestIndex(CandidatesFor(backend, orientations))])
  {
    ghost var all := CandidatesFor(backend, orientations);
    var candidates: seq<Candidate> := [];
    var i := 0;
    while i < |orientations|
      invariant 0 <= i <= |orientations| && |candidates| == i
      invariant forall k :: 0 <= k < i ==> candidates[k] == all[k]
    {
      var c := RecognizeOrientation(backend, orientations[i], i);
      assert c == all[i];
      AgreeSnoc(candidates, all, c);
      candidates := candidates + [c];
      i := i + 1;
    }
    assert candidates == all;
    if candidates == [] {
      return Err(RuntimeError("OCR recognition failed"));
    }
    r := Ok(candidates[BestIndex(candidates)]);
  }

  /** The chosen candidate scores at least as high as every orientation's,
      and it is the first orientation with that score. */
  lemma RecognizedBest(backend: string, orientations: seq<Orientation>, j: nat)
    requires orientations != [] && j < |orientations|
    ensures
      var c := CandidatesFor(backend, orientations);
      var b := BestIndex(c);
      c[b].orientation == b &&
      CandidateFor(backend, orientations[j], j).score <= c[b].score &&
      (j < b ==> CandidateFor(backend, orientations[j], j).score < c[b].score)
  {
  }
}
