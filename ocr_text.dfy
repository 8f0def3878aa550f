/** The text side of the OCR service (services/ocr/main.py): the chain of
    extractors tried in a fixed order until one yields text, and the
    first-match extraction of vendor, date, amount, tax and category from
    that text.  The extractors themselves (PaddleOCR, Tesseract, RapidOCR,
    image metadata, a `.txt` sidecar) are engine calls; the model receives
    what each of them returned.  The regular expressions are hand-coded:
    `re.IGNORECASE` folds only ASCII letters here, which is exact for the
    labels used, none of which holds a letter with a non-ASCII case
    partner. */
module OcrText {
  import opened Wrappers
  import opened Text
  import opened Numbers
  import opened Values
  import opened Scan

  /** `OCRResult(text, fields)`. */
  datatype OcrResult = OcrResult(text: string, fields: Dict)

  /** `EXTRACTORS`, in the order they are tried. */
  const Extractors: seq<string> := ["paddle", "tesseract", "rapidocr", "metadata", "sidecar"]

  // ---- extract_text ----

  /** An extractor's answer is used when it is non-empty text. */
  predicate Answered(a: Option<string>) {
    a.Some? && a.value != []
  }

  /** The position of the first answer that is used, or `|answers|`. */
  function FirstAnswered(answers: seq<Option<string>>): (k: nat)
    ensures k <= |answers|
    ensures k < |answers| ==> Answered(answers[k])
    ensures forall j :: 0 <= j < k ==> !Answered(answers[j])
  {
    if answers == [] then 0
    else if Answered(answers[0]) then 0
    else 1 + FirstAnswered(answers[1..])
  }

  /** `extract_text(path)`, given what each extractor returned, in
      extractor order: the first non-empty text, or `OCRProcessingError`
      when every extractor came back empty. */
  function ExtractText(answers: seq<Option<string>>, path: string): (r: Result<string>)
    ensures r.Ok? <==> exists i :: 0 <= i < |answers| && Answered(answers[i])
    ensures r.Ok? ==> r.value != []
    ensures r.Ok? ==> exists i :: 0 <= i < |answers| && answers[i] == Some(r.value) &&
                                  forall j :: 0 <= j < i ==> !Answered(answers[j])
    ensures r.Err? ==> r.error == OcrProcessingError("OCR extraction failed for " + path)
  {
    var k := FirstAnswered(answers);
    if k < |answers| then Ok(answers[k].value)
    else Err(OcrProcessingError("OCR extraction failed for " + path))
  }

  /** `perform_ocr(path)`: the text, and the fields extracted from it. */
  function PerformOcr(answers: seq<Option<string>>, path: string): (r: Result<OcrResult>)
    ensures r.Ok? <==> ExtractText(answers, path).Ok?
    ensures r.Ok? ==> r.value.text == ExtractText(answers, path).value && r.value.fields.Keys == FieldKeys
  {
    var text :- ExtractText(answers, path);
    Ok(OcrResult(text, ExtractFields(text)))
  }

  // ---- _to_float ----

  /** `_to_float(value)`: `None` stays `None`, the commas are removed and
      text `float()` rejects gives `None`. */
  function ToFloatText(v: Option<string>): (r: Option<real>)
    ensures v.None? ==> r.None?
  {
    match v
    case None => None
    case Some(s) => ParseFloat(RemoveChar(s, ','))
  }

  /** Thousands separators are ignored: `"1,234,567"` reads as 1234567. */
  lemma ToFloatGrouped(n: nat)
    ensures ToFloatText(Some(GroupThousands(NatToString(n)))) == Some(n as real)
  {
    var s := NatToString(n);
    GroupThousandsUngroup(s);
    WholeParses(s);
  }

  /** Text `float()` rejects reads as `None`: nothing, a lone point, two
      points. */
  lemma ToFloatRejects()
    ensures ToFloatText(Some("")) == None
    ensures ToFloatText(Some(".")) == None
    ensures ToFloatText(Some("1.2.3")) == None
  {
    StripNoDigits("");
    StripNoDigits(".");
    TwoPoints();
  }

  lemma StripNoDigits(s: string)
    requires s == "" || s == "."
    ensures ParseFloat(RemoveChar(s, ',')) == None
  {
    assert RemoveChar(s, ',') == s;
    if s == "." {
      StripNoop(s);
      assert IndexOfChar(s, '.', 0) == 0;
    }
    assert SplitSign(Strip(s)) == (false, s);
  }

  lemma TwoPoints()
    ensures ParseFloat(RemoveChar("1.2.3", ',')) == None
  {
    PlainText("1.2.3");
    var s := "1.2.3";
    assert IndexOfChar(s, '.', 0) == 1;
    assert s[2..][1] == '.' && !IsDigit(s[2..][1]);
    assert ParseUnsigned(s) == None;
  }

  /** Text of digits and points has nothing to strip and no sign. */
  lemma PlainText(s: string)
    requires s == "1.2.3"
    ensures ParseFloat(RemoveChar(s, ',')) == ParseUnsigned(s)
  {
    assert RemoveChar(s, ',') == s;
    StripNoop(s);
    assert SplitSign(s) == (false, s);
  }

  // ---- the lines searched ----

  /** The stripped lines that are not blank, in order. */
  function NonBlank(raw: seq<string>): (r: seq<string>)
    ensures |r| <= |raw|
    ensures forall i :: 0 <= i < |r| ==> r[i] != [] && Strip(r[i]) == r[i]
  {
    if raw == [] then []
    else
      var rest := NonBlank(raw[1..]);
      var s := Strip(raw[0]);
      if s == [] then rest
      else
        StripIdempotent(raw[0]);
        [s] + rest
  }

  /** `[line.strip() for line in text.splitlines() if line.strip()]`. */
  function Lines(text: string): seq<string> {
    NonBlank(SplitLines(text))
  }

  /** Every line with something on it is searched, stripped. */
  lemma {:induction false} NonBlankKeeps(raw: seq<string>, i: nat)
    requires i < |raw| && Strip(raw[i]) != []
    ensures Strip(raw[i]) in NonBlank(raw)
  {
    if i > 0 {
      NonBlankKeeps(raw[1..], i - 1);
    }
  }

  // ---- the patterns ----

  /** The three shapes of pattern `extract_fields` searches with.
      `LabelledText(labels)` is `(?:L1|L2|...)[:：]\s*(.+)`,
      `LabelledNumber(labels)` is `(?:L1|L2|...)[:：]?\s*([\d,\.]+)`, both
      without regard to case, and `CompanyName` is
      `^([^\d]+株式会社|有限会社[^\d]+)`. Each has exactly one group. */
  datatype Pattern =
    | LabelledText(labels: seq<string>)
    | LabelledNumber(labels: seq<string>)
    | CompanyName

  const VendorPatterns: seq<Pattern> := [LabelledText(["Vendor", "取引先", "会社名"]), CompanyName]
  const AmountPatterns: seq<Pattern> := [LabelledNumber(["Total", "Amount", "合計", "金額"])]
  const TaxPatterns: seq<Pattern> := [LabelledNumber(["Tax", "消費税"])]
  const CategoryPatterns: seq<Pattern> := [LabelledText(["Category", "区分"])]

  predicate IsColon(c: char) { c == ':' || c == '：' }

  /** The label `name` occurs at `i` without regard to case. */
  predicate LabelAt(line: string, i: nat, name: string) {
    i + |name| <= |line| && Lower(line[i..i + |name|]) == Lower(name)
  }

  /** The last position that does not hold a newline, if any. */
  function LastNonNewline(s: string): (r: Option<nat>)
    ensures r.Some? ==> r.value < |s| && s[r.value] != '\n' &&
                        forall j :: r.value < j < |s| ==> s[j] == '\n'
    ensures r.None? ==> forall j :: 0 <= j < |s| ==> s[j] == '\n'
  {
    if s == [] then None
    else if s[|s| - 1] != '\n' then Some(|s| - 1)
    else LastNonNewline(s[..|s| - 1])
  }

  /** The group of `\s*(.+)` matched at the start of `rest`; `.` is any
      character but a newline.  When nothing but whitespace is left, `\s*`
      gives back its last character that `.` can take. */
  function TextGroup(rest: string): (g: Option<string>)
    ensures g.Some? ==> g.value != [] && '\n' !in g.value
  {
    var w := SkipSpaces(rest, 0);
    if w < |rest| then
      var e := IndexOfChar(rest, '\n', w);
      Some(rest[w..e])
    else
      match LastNonNewline(rest)
      case Some(p) => Some([rest[p]])
      case None => None
  }

  /** The group of `\s*([\d,\.]+)` matched at the start of `rest`. */
  function NumberGroup(rest: string): (g: Option<string>)
    ensures g.Some? ==> g.value != [] && forall j :: 0 <= j < |g.value| ==> NumberChar(g.value[j])
  {
    var w := SkipSpaces(rest, 0);
    var e := SkipNumberChars(rest, w);
    if w < e then Some(rest[w..e]) else None
  }

  /** What follows a label that ends at `j`. The colon of a number
      pattern is optional; giving it back never helps, since a colon is
      neither whitespace nor part of a number. */
  function AfterLabel(line: string, j: nat, numeric: bool): Option<string>
    requires j <= |line|
  {
    if numeric then NumberGroup(line[if j < |line| && IsColon(line[j]) then j + 1 else j..])
    else if j < |line| && IsColon(line[j]) then TextGroup(line[j + 1..])
    else None
  }

  /** The alternatives of the label group tried in order at `i`. */
  function LabelledAt(labels: seq<string>, line: string, i: nat, numeric: bool): Option<string>
    requires i <= |line|
  {
    if labels == [] then None
    else
      var here := if LabelAt(line, i, labels[0]) then AfterLabel(line, i + |labels[0]|, numeric) else None;
      if here.Some? then here else LabelledAt(labels[1..], line, i, numeric)
  }

  /** The largest `j` in `[lo, hi]` at which `sub` occurs. */
  function LastOccurrence(s: string, sub: string, lo: nat, hi: int): (r: Option<nat>)
    decreases hi - lo + 1
    ensures r.Some? ==> lo <= r.value <= hi && OccursAt(s, sub, r.value)
    ensures r.Some? ==> forall j :: r.value < j <= hi ==> !OccursAt(s, sub, j)
    ensures r.None? ==> forall j :: lo <= j <= hi ==> !OccursAt(s, sub, j)
  {
    if hi < lo then None
    else if OccursAt(s, sub, hi) then Some(hi)
    else LastOccurrence(s, sub, lo, hi - 1)
  }

  /** `^([^\d]+株式会社|有限会社[^\d]+)` at the start of `line`. The greedy
      `[^\d]+` runs to the first digit and gives characters back until
      `株式会社` follows, so the first branch takes the last such name within
      the digit-free prefix that has something before it. */
  function CompanyAt(line: string): Option<string> {
    var m := SkipNonDigits(line, 0);
    match LastOccurrence(line, "株式会社", 1, m - 4)
    case Some(j) => Some(line[..j + 4])
    case None =>
      if OccursAt(line, "有限会社", 0) && m > 4 then Some(line[..m]) else None
  }

  /** The group of a match of `p` that starts at `i`. */
  function MatchAt(p: Pattern, line: string, i: nat): Option<string>
    requires i <= |line|
  {
    match p
    case LabelledText(labels) => LabelledAt(labels, line, i, false)
    case LabelledNumber(labels) => LabelledAt(labels, line, i, true)
    case CompanyName => if i == 0 then CompanyAt(line) else None
  }

  /** `regex.search(line)` from `from` on: the leftmost match. */
  function Search(p: Pattern, line: string, from: nat): Option<string>
    requires from <= |line|
    decreases |line| - from
  {
    var here := MatchAt(p, line, from);
    if here.Some? || from == |line| then here else Search(p, line, from + 1)
  }

  /** The group of the leftmost match of `p` in `line`. */
  function Find(p: Pattern, line: string): Option<string> {
    Search(p, line, 0)
  }

  /** The first line a pattern matches, and its group; `find` is the
      search of one pattern in one line. */
  function MatchIn<P>(find: (P, string) -> Option<string>, p: P, lines: seq<string>): Option<string> {
    if lines == [] then None
    else
      var here := find(p, lines[0]);
      if here.Some? then here else MatchIn(find, p, lines[1..])
  }

  /** `_match_line(patterns, lines)`: each pattern is tried on every line
      before the next pattern is, and the stripped group is returned. */
  function MatchLineWith<P>(find: (P, string) -> Option<string>, ps: seq<P>, lines: seq<string>): Option<string> {
    if ps == [] then None
    else
      match MatchIn(find, ps[0], lines)
      case Some(g) => Some(Strip(g))
      case None => MatchLineWith(find, ps[1..], lines)
  }

  /** `_match_line` with the regular-expression search: nothing is found
      exactly when no pattern matches any line. */
  function MatchLine(ps: seq<Pattern>, lines: seq<string>): (r: Option<string>)
    ensures r.None? <==> forall q, l :: 0 <= q < |ps| && 0 <= l < |lines| ==> Find(ps[q], lines[l]).None?
  {
    MatchLineNone(Find, ps, lines);
    MatchLineWith(Find, ps, lines)
  }

  // ---- what the matching promises ----

  /** The search finds the leftmost position with a match. */
  lemma {:induction false} SearchLeftmost(p: Pattern, line: string, from: nat) returns (i: nat)
    requires from <= |line| && Search(p, line, from).Some?
    ensures from <= i <= |line| && MatchAt(p, line, i) == Search(p, line, from)
    ensures forall j :: from <= j < i ==> MatchAt(p, line, j).None?
    decreases |line| - from
  {
    if MatchAt(p, line, from).Some? {
      i := from;
    } else {
      i := SearchLeftmost(p, line, from + 1);
    }
  }

  /** A match at any position is found. */
  lemma {:induction false} SearchFinds(p: Pattern, line: string, from: nat, i: nat)
    requires from <= i <= |line| && MatchAt(p, line, i).Some?
    ensures Search(p, line, from).Some?
    decreases i - from
  {
    if from < i && MatchAt(p, line, from).None? {
      SearchFinds(p, line, from + 1, i);
    }
  }

  /** The first line with a match supplies the group. */
  lemma {:induction false} MatchInFirst<P>(find: (P, string) -> Option<string>, p: P, lines: seq<string>)
    returns (j: nat)
    requires MatchIn(find, p, lines).Some?
    ensures j < |lines| && MatchIn(find, p, lines) == find(p, lines[j])
    ensures forall k :: 0 <= k < j ==> find(p, lines[k]).None?
  {
    if find(p, lines[0]).Some? {
      j := 0;
    } else {
      var j' := MatchInFirst(find, p, lines[1..]);
      j := j' + 1;
    }
  }

  lemma {:induction false} MatchInNone<P>(find: (P, string) -> Option<string>, p: P, lines: seq<string>)
    ensures MatchIn(find, p, lines).None? <==> forall k :: 0 <= k < |lines| ==> find(p, lines[k]).None?
  {
    if lines != [] {
      MatchInNone(find, p, lines[1..]);
      assert forall k :: 1 <= k < |lines| ==> lines[k] == lines[1..][k - 1];
    }
  }

  /** `_match_line` returns the stripped group of pattern `k` on line `j`,
      where no earlier pattern matches any line and pattern `k` matches no
      earlier line: the order of the patterns wins over the order of the
      lines. */
  lemma {:induction false} MatchLineFirst<P>(find: (P, string) -> Option<string>, ps: seq<P>, lines: seq<string>)
    returns (k: nat, j: nat)
    requires MatchLineWith(find, ps, lines).Some?
    ensures k < |ps| && j < |lines| && find(ps[k], lines[j]).Some?
    ensures MatchLineWith(find, ps, lines) == Some(Strip(find(ps[k], lines[j]).value))
    ensures forall q, l :: 0 <= q < k && 0 <= l < |lines| ==> find(ps[q], lines[l]).None?
    ensures forall l :: 0 <= l < j ==> find(ps[k], lines[l]).None?
  {
    if MatchIn(find, ps[0], lines).Some? {
      k := 0;
      j := MatchInFirst(find, ps[0], lines);
    } else {
      MatchInNone(find, ps[0], lines);
      var k', j' := MatchLineFirst(find, ps[1..], lines);
      k, j := k' + 1, j';
      assert forall q :: 1 <= q < |ps| ==> ps[q] == ps[1..][q - 1];
    }
  }

  /** `_match_line` finds nothing exactly when no pattern matches any line. */
  lemma {:induction false} MatchLineNone<P>(find: (P, string) -> Option<string>, ps: seq<P>, lines: seq<string>)
    ensures MatchLineWith(find, ps, lines).None? <==>
              forall q, l :: 0 <= q < |ps| && 0 <= l < |lines| ==> find(ps[q], lines[l]).None?
  {
    if ps != [] {
      MatchInNone(find, ps[0], lines);
      MatchLineNone(find, ps[1..], lines);
      assert forall q :: 1 <= q < |ps| ==> ps[q] == ps[1..][q - 1];
    }
  }

  // ---- the date pattern ----

  predicate IsDateSep(c: char) { c == '/' || c == '-' }

  /** `(\d{4}[/-]\d{1,2}[/-]\d{1,2})` matched at `i`. When the month takes
      two digits and no separator follows, giving one back leaves a digit
      where the separator should be, so the greedy choice is the only one. */
  function DateAt(text: string, i: nat): Option<string>
    requires i <= |text|
  {
    if i + 5 <= |text| && AllDigits(text[i..i + 4]) && IsDateSep(text[i + 4]) then
      match OneOrTwoDigits(text, i + 5)
      case None => None
      case Some(m) =>
        if m < |text| && IsDateSep(text[m]) then
          match OneOrTwoDigits(text, m + 1)
          case None => None
          case Some(e) => Some(text[i..e])
        else None
    else None
  }

  /** `DATE_PATTERN.search(text)`: the leftmost date. */
  function FirstDate(text: string, from: nat): Option<string>
    requires from <= |text|
    decreases |text| - from
  {
    var here := DateAt(text, from);
    if here.Some? || from == |text| then here else FirstDate(text, from + 1)
  }

  /** A date found has four digits of year, a separator, one or two digits
      of month, a separator and one or two digits of day. */
  predicate DateShaped(d: string) {
    8 <= |d| && AllDigits(d[..4]) && IsDateSep(d[4]) && IsDigit(d[5]) &&
    var m := if IsDigit(d[6]) then 7 else 6;
    m + 2 <= |d| <= m + 3 && IsDateSep(d[m]) && AllDigits(d[m + 1..])
  }

  lemma DateAtShaped(text: string, i: nat)
    requires i <= |text| && DateAt(text, i).Some?
    ensures DateShaped(DateAt(text, i).value)
  {
    var m := OneOrTwoDigits(text, i + 5).value;
    var e := OneOrTwoDigits(text, m + 1).value;
    var d := text[i..e];
    assert d == DateAt(text, i).value;
    assert forall k :: 0 <= k < |d| ==> d[k] == text[i + k];
    assert d[m - i] == text[m];
    assert d[..4] == text[i..i + 4];
    assert d[m - i + 1..] == text[m + 1..e];
  }

  lemma {:induction false} FirstDateShaped(text: string, from: nat)
    requires from <= |text| && FirstDate(text, from).Some?
    ensures DateShaped(FirstDate(text, from).value)
    decreases |text| - from
  {
    if DateAt(text, from).Some? {
      DateAtShaped(text, from);
    } else {
      FirstDateShaped(text, from + 1);
    }
  }

  lemma FoundDateShaped(text: string)
    ensures FirstDate(text, 0).Some? ==> DateShaped(FirstDate(text, 0).value)
  {
    if FirstDate(text, 0).Some? {
      FirstDateShaped(text, 0);
    }
  }

  // ---- extract_fields ----

  const FieldKeys: set<string> := {"vendor", "date", "amount", "tax", "category"}

  function TextOrNone(v: Option<string>): Value {
    match v
    case Some(s) => Str(s)
    case None => Null
  }

  function FloatOrNone(v: Option<real>): Value {
    match v
    case Some(x) => Float(x)
    case None => Null
  }

  /** The text the amount is read from: the labelled line's number, else
      the first number anywhere in the text. */
  function AmountText(text: string): Option<string> {
    var labelled := MatchLine(AmountPatterns, Lines(text));
    if labelled.Some? then labelled else NumberFrom(text, 0)
  }

  /** The dictionary `extract_fields` returns, from what each search found. */
  function FieldsOf(vendor: Option<string>, date: Option<string>, amount: Option<real>, tax: Option<real>,
                    category: Option<string>): (r: Dict)
    ensures r.Keys == FieldKeys
    ensures r["vendor"].Null? || r["vendor"].Str?
    ensures r["category"].Null? || r["category"].Str?
    ensures r["amount"].Null? || r["amount"].Float?
    ensures r["tax"].Null? || r["tax"].Float?
    ensures r["date"] == TextOrNone(date) && r["amount"] == FloatOrNone(amount) && r["tax"] == FloatOrNone(tax)
  {
    map["vendor" := TextOrNone(vendor), "date" := TextOrNone(date), "amount" := FloatOrNone(amount),
        "tax" := FloatOrNone(tax), "category" := TextOrNone(category)]
  }

  /** `extract_fields(text)`: every key is always present, `None` where
      nothing was found. */
  function ExtractFields(text: string): (r: Dict)
    ensures r.Keys == FieldKeys
    ensures r["vendor"].Null? || r["vendor"].Str?
    ensures r["category"].Null? || r["category"].Str?
    ensures r["amount"].Null? || r["amount"].Float?
    ensures r["tax"].Null? || r["tax"].Float?
    ensures r["date"].Null? || (r["date"].Str? && DateShaped(r["date"].s))
    ensures r["amount"] == FloatOrNone(ToFloatText(AmountText(text)))
    ensures r["tax"] == FloatOrNone(ToFloatText(MatchLine(TaxPatterns, Lines(text))))
  {
    var lines := Lines(text);
    FoundDateShaped(text);
    FieldsOf(MatchLine(VendorPatterns, lines), FirstDate(text, 0), ToFloatText(AmountText(text)),
             ToFloatText(MatchLine(TaxPatterns, lines)), MatchLine(CategoryPatterns, lines))
  }

  /** Without a labelled amount, any digit in the text gives a
      non-negative amount: the first number always parses. */
  lemma AmountFallback(text: string, d: nat)
    requires MatchLine(AmountPatterns, Lines(text)).None?
    requires d < |text| && IsDigit(text[d])
    ensures ExtractFields(text)["amount"].Float? && ExtractFields(text)["amount"].x >= 0.0
  {
    NumberFromFound(text, 0, d);
    NumberFromParses(text, 0);
  }

  /** A labelled amount is used even when a number comes earlier in the
      text, and it is what `float()` makes of it. */
  lemma AmountLabelled(text: string)
    requires MatchLine(AmountPatterns, Lines(text)).Some?
    ensures ExtractFields(text)["amount"] == FloatOrNone(ToFloatText(MatchLine(AmountPatterns, Lines(text))))
  {
  }

  /** No tax line means a `None` tax. */
  lemma TaxMissing(text: string)
    requires forall l :: 0 <= l < |Lines(text)| ==> Find(TaxPatterns[0], Lines(text)[l]).None?
    ensures ExtractFields(text)["tax"] == Null
  {
    var lines := Lines(text);
    MatchLineNone(Find, TaxPatterns, lines);
    assert MatchLine(TaxPatterns, lines) == None;
  }

  // ---- the example `Total: 1000` ----

  const TotalExample := "Total: 1000"

  lemma TotalExampleLines()
    ensures Lines(TotalExample) == [TotalExample]
  {
    var s := TotalExample;
    assert forall j :: 0 <= j < |s| ==> !IsLineBoundary(s[j]);
    SingleLine(s);
    StripNoop(s);
  }

  /** The labelled line gives its number. */
  lemma TotalExampleMatch()
    ensures Find(AmountPatterns[0], TotalExample) == Some("1000")
  {
    var s := TotalExample;
    assert LabelAt(s, 0, "Total");
    var rest := s[6..];
    assert rest == " 1000";
    assert SkipSpaces(rest, 0) == 1;
    assert SkipNumberChars(rest, 1) == 5;
    assert rest[1..5] == "1000";
    assert NumberGroup(rest) == Some("1000");
    assert AfterLabel(s, 5, true) == Some("1000");
    assert LabelledAt(["Total", "Amount", "合計", "金額"], s, 0, true) == Some("1000");
    assert MatchAt(AmountPatterns[0], s, 0) == Some("1000");
  }

  /** `extract_fields("Total: 1000")` reads the amount 1000. */
  lemma TotalExampleAmount()
    ensures ExtractFields(TotalExample)["amount"] == Float(1000.0)
  {
    TotalExampleLines();
    TotalExampleLabelled();
    ThousandReads();
  }

  lemma TotalExampleLabelled()
    ensures MatchLine(AmountPatterns, [TotalExample]) == Some("1000")
  {
    TotalExampleMatch();
    assert MatchIn(Find, AmountPatterns[0], [TotalExample]) == Some("1000");
    StripNoop("1000");
  }

  lemma ThousandReads()
    ensures ToFloatText(Some("1000")) == Some(1000.0)
  {
    assert RemoveChar("1000", ',') == "1000";
    assert NatToString(1) == "1";
    assert NatToString(10) == "10";
    assert NatToString(100) == "100";
    assert NatToString(1000) == "1000";
    WholeParses(NatToString(1000));
  }
}
