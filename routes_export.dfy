/** The export endpoints (services/api/routes_export.py): the jobs as a
    PDF invoice table and the journal as csv.  The PDF is the fallback the
    code writes when no HTML renderer is installed; the clock is a
    parameter, and the journal entries are passed in as read. */
module RoutesExport {
  import opened Wrappers
  import opened Text
  import opened Numbers
  import opened Values
  import opened Timestamps
  import opened Csv
  import opened Approvals
  import opened Jobs

  newtype byte = x: int | 0 <= x < 256

  // ---- bytes ----

  /** Text of code points below 256 as bytes (the literals of the PDF). */
  function Ascii(s: string): (b: seq<byte>)
    ensures |b| == |s|
    ensures forall i :: 0 <= i < |s| ==> b[i] as int == s[i] as int % 256
  {
    seq(|s|, i requires 0 <= i < |s| => (s[i] as int % 256) as byte)
  }

  /** The UTF-8 encoding of one code point. */
  function Utf8Char(c: char): (b: seq<byte>)
    ensures 1 <= |b| <= 4
    ensures c as int < 128 ==> b == [c as int as byte]
  {
    var n := c as int;
    if n < 0x80 then [n as byte]
    else if n < 0x800 then [(0xC0 + n / 64) as byte, (0x80 + n % 64) as byte]
    else if n < 0x10000 then [(0xE0 + n / 4096) as byte, (0x80 + n / 64 % 64) as byte, (0x80 + n % 64) as byte]
    else [(0xF0 + n / 262144) as byte, (0x80 + n / 4096 % 64) as byte, (0x80 + n / 64 % 64) as byte, (0x80 + n % 64) as byte]
  }

  /** `s.encode("utf-8")`: a Dafny string holds no lone surrogate, so
      `errors="ignore"` never drops anything. */
  function Utf8(s: string): (b: seq<byte>)
    ensures |s| <= |b| <= 4 * |s|
  {
    if s == [] then [] else Utf8(s[..|s| - 1]) + Utf8Char(s[|s| - 1])
  }

  /** Text of ASCII characters encodes to the same bytes. */
  lemma {:induction false} Utf8Ascii(s: string)
    requires forall i :: 0 <= i < |s| ==> s[i] as int < 128
    ensures Utf8(s) == Ascii(s)
  {
    if s != [] {
      var n := |s| - 1;
      Utf8Ascii(s[..n]);
      assert Ascii(s) == Ascii(s[..n]) + [s[n] as int as byte];
    }
  }

  predicate IsDigitByte(b: byte) {
    48 <= b as int <= 57
  }

  /** The bytes as the characters of the same number. */
  function Chars(b: seq<byte>): (s: string)
    ensures |s| == |b| && forall i :: 0 <= i < |b| ==> s[i] as int == b[i] as int
  {
    seq(|b|, i requires 0 <= i < |b| => b[i] as int as char)
  }

  lemma CharsAscii(s: string)
    requires forall i :: 0 <= i < |s| ==> s[i] as int < 128
    ensures Chars(Ascii(s)) == s
  {
  }

  // ---- _render_pdf, fallback ----

  const PdfHeader: string :=
    "%PDF-1.4\n1 0 obj<</Type/Catalog/Pages 2 0 R>>endobj\n" +
    "2 0 obj<</Type/Pages/Kids[3 0 R]/Count 1>>endobj\n" +
    "3 0 obj<</Type/Page/Parent 2 0 R/MediaBox[0 0 612 792]/Contents 4 0 R>>endobj\n"

  const StreamOpen: string := "4 0 obj<</Length "
  const StreamStart: string := ">>stream\n"
  const StreamEnd: string := "\nendstream\nendobj\n"

  const XrefTable: string :=
    "xref\n0 5\n0000000000 65535 f \n0000000010 00000 n \n0000000061 00000 n \n0000000115 00000 n \n" +
    "0000000192 00000 n \ntrailer<</Size 5/Root 1 0 R>>\n"

  const StartxrefLine: string := "startxref\n"

  const PdfEnd: string := "\n%%EOF"

  /** Object 4: the payload as a stream with its `/Length`. */
  function StreamObject(payload: seq<byte>): seq<byte> {
    Ascii(StreamOpen) + Ascii(NatToString(|payload|)) + Ascii(StreamStart) + payload + Ascii(StreamEnd)
  }

  /** The cross-reference table and trailer, `startxref` giving `len(header)`. */
  function Trailer(): seq<byte> {
    Ascii(XrefTable) + Ascii(StartxrefLine) + Ascii(NatToString(|PdfHeader|)) + Ascii(PdfEnd)
  }

  /** `_render_pdf(html)` when `weasyprint` cannot be imported. */
  function RenderPdf(html: string): seq<byte> {
    Ascii(PdfHeader) + StreamObject(Utf8(html)) + Trailer()
  }

  /** The end of the run of digit bytes from `i`. */
  function SkipDigitBytes(b: seq<byte>, i: nat): (k: nat)
    requires i <= |b|
    ensures i <= k <= |b| && (k < |b| ==> !IsDigitByte(b[k]))
    ensures forall j :: i <= j < k ==> IsDigitByte(b[j])
    decreases |b| - i
  {
    if i == |b| || !IsDigitByte(b[i]) then i else SkipDigitBytes(b, i + 1)
  }

  /** What a PDF reader finds in the stream object at byte `off`: the
      `/Length` number and that many bytes after `stream`. */
  function ReadStream(pdf: seq<byte>, off: nat): Option<seq<byte>> {
    ReadStreamWith(pdf, off, Ascii(StreamOpen), Ascii(StreamStart))
  }

  /** `ReadStream` for the given opening and `stream` keyword bytes. */
  function ReadStreamWith(pdf: seq<byte>, off: nat, open: seq<byte>, start: seq<byte>): Option<seq<byte>> {
    if off + |open| <= |pdf| && pdf[off..off + |open|] == open then
      var d := off + |open|;
      var e := SkipDigitBytes(pdf, d);
      if e > d && e + |start| <= |pdf| && pdf[e..e + |start|] == start then
        var n := ParseDigits(Chars(pdf[d..e]));
        if e + |start| + n <= |pdf| then Some(pdf[e + |start|..e + |start| + n]) else None
      else None
    else None
  }

  /** The start of the run of digit bytes that ends at `k`. */
  function DigitsBefore(b: seq<byte>, k: nat): (j: nat)
    requires k <= |b|
    ensures j <= k && forall i :: j <= i < k ==> IsDigitByte(b[i])
    ensures j > 0 ==> !IsDigitByte(b[j - 1])
  {
    if k == 0 || !IsDigitByte(b[k - 1]) then k else DigitsBefore(b, k - 1)
  }

  /** The number written just before the final `\n%%EOF`, as a reader
      finds the `startxref` offset. */
  function StartXref(pdf: seq<byte>): Option<nat> {
    StartXrefWith(pdf, Ascii(PdfEnd))
  }

  function StartXrefWith(pdf: seq<byte>, tail: seq<byte>): Option<nat> {
    if |pdf| >= |tail| && pdf[|pdf| - |tail|..] == tail then
      var k := |pdf| - |tail|;
      var j := DigitsBefore(pdf, k);
      if j < k then Some(ParseDigits(Chars(pdf[j..k]))) else None
    else None
  }

  predicate DigitBytes(b: seq<byte>) {
    forall i :: 0 <= i < |b| ==> IsDigitByte(b[i])
  }

  lemma AsciiDigits(s: string)
    requires AllDigits(s)
    ensures DigitBytes(Ascii(s))
  {
  }

  lemma ParseNatBytes(n: nat)
    ensures DigitBytes(Ascii(NatToString(n))) && |Ascii(NatToString(n))| > 0
    ensures ParseDigits(Chars(Ascii(NatToString(n)))) == n
  {
    var s := NatToString(n);
    AsciiDigits(s);
    CharsAscii(s);
  }

  /** A stream object read at its start gives its payload back when the
      length digits are the payload's byte count. */
  lemma StreamRead(prefix: seq<byte>, open: seq<byte>, dg: seq<byte>, start: seq<byte>,
                   payload: seq<byte>, rest: seq<byte>)
    requires DigitBytes(dg) && |dg| > 0 && |start| > 0 && !IsDigitByte(start[0])
    requires ParseDigits(Chars(dg)) == |payload|
    ensures ReadStreamWith(prefix + open + dg + start + payload + rest, |prefix|, open, start) == Some(payload)
  {
    var pdf := prefix + open + dg + start + payload + rest;
    var d := |prefix| + |open|;
    var e := d + |dg|;
    StreamLayout(prefix, open, dg, start, payload, rest);
    SkipDigitsRun(pdf, d, e);
    var digits := pdf[d..e];
    assert digits == dg;
    assert ParseDigits(Chars(digits)) == |payload|;
    ReadStreamAt(pdf, |prefix|, open, start, e, payload);
  }

  /** The reader at `off`, once the opening bytes, the digit run ending at
      `e` that spells the payload's length, and the `stream` keyword are
      in place. */
  lemma ReadStreamAt(pdf: seq<byte>, off: nat, open: seq<byte>, start: seq<byte>, e: nat, payload: seq<byte>)
    requires off + |open| < e && e + |start| + |payload| <= |pdf|
    requires pdf[off..off + |open|] == open && SkipDigitBytes(pdf, off + |open|) == e
    requires pdf[e..e + |start|] == start && ParseDigits(Chars(pdf[off + |open|..e])) == |payload|
    requires pdf[e + |start|..e + |start| + |payload|] == payload
    ensures ReadStreamWith(pdf, off, open, start) == Some(payload)
  {
  }

  /** Where each part of a stream object sits in the bytes. */
  lemma StreamLayout(prefix: seq<byte>, open: seq<byte>, dg: seq<byte>, start: seq<byte>,
                     payload: seq<byte>, rest: seq<byte>)
    requires DigitBytes(dg) && |start| > 0
    ensures var pdf := prefix + open + dg + start + payload + rest;
            var d := |prefix| + |open|;
            var e := d + |dg|;
            e + |start| + |payload| <= |pdf| &&
            pdf[|prefix|..d] == open && pdf[d..e] == dg && pdf[e..e + |start|] == start &&
            pdf[e + |start|..e + |start| + |payload|] == payload &&
            (forall j :: d <= j < e ==> IsDigitByte(pdf[j])) && pdf[e] == start[0]
  {
    var pdf := prefix + open + dg + start + payload + rest;
    var d := |prefix| + |open|;
    var e := d + |dg|;
    assert pdf[|prefix|..d] == open;
    assert pdf[d..e] == dg;
    assert pdf[e..e + |start|] == start;
    assert pdf[e + |start|..e + |start| + |payload|] == payload;
    forall j | d <= j < e
      ensures IsDigitByte(pdf[j])
    {
      assert pdf[j] == dg[j - d];
    }
  }

  /** The stream object read at its own start gives the payload back,
      its `/Length` being the payload's byte count. */
  lemma StreamRoundTrip(prefix: seq<byte>, payload: seq<byte>, suffix: seq<byte>)
    ensures ReadStream(prefix + StreamObject(payload) + suffix, |prefix|) == Some(payload)
  {
    var open := Ascii(StreamOpen);
    var dg := Ascii(NatToString(|payload|));
    var start := Ascii(StreamStart);
    ParseNatBytes(|payload|);
    StreamStartByte();
    Regroup(prefix, open, dg, start, payload, Ascii(StreamEnd), suffix);
    StreamRead(prefix, open, dg, start, payload, Ascii(StreamEnd) + suffix);
  }

  lemma Regroup4<T>(p: seq<T>, a: seq<T>, b: seq<T>, c: seq<T>, d: seq<T>)
    ensures p + (a + b + c + d) == (p + a + b) + c + d
  {
  }

  lemma StartxrefLineEnd()
    ensures |Ascii(StartxrefLine)| > 0 && Ascii(StartxrefLine)[|StartxrefLine| - 1] as int == 10
  {
  }

  lemma StreamStartByte()
    ensures |Ascii(StreamStart)| > 0 && Ascii(StreamStart)[0] as int == 62
  {
  }

  lemma Regroup<T>(p: seq<T>, a: seq<T>, b: seq<T>, c: seq<T>, d: seq<T>, e: seq<T>, f: seq<T>)
    ensures p + (a + b + c + d + e) + f == p + a + b + c + d + (e + f)
  {
  }

  lemma {:induction false} SkipDigitsRun(b: seq<byte>, i: nat, e: nat)
    requires i <= e < |b| && !IsDigitByte(b[e])
    requires forall j :: i <= j < e ==> IsDigitByte(b[j])
    ensures SkipDigitBytes(b, i) == e
    decreases e - i
  {
    if i < e {
      SkipDigitsRun(b, i + 1, e);
    }
  }

  lemma {:induction false} DigitsBeforeRun(b: seq<byte>, j: nat, k: nat)
    requires 0 < j <= k <= |b| && !IsDigitByte(b[j - 1])
    requires forall i :: j <= i < k ==> IsDigitByte(b[i])
    ensures DigitsBefore(b, k) == j
    decreases k - j
  {
    if j < k {
      DigitsBeforeRun(b, j, k - 1);
    }
  }

  /** The number before the tail is read when a non-digit precedes it. */
  lemma TailNumber(prefix: seq<byte>, dg: seq<byte>, tail: seq<byte>)
    requires DigitBytes(dg) && |dg| > 0 && |prefix| > 0 && !IsDigitByte(prefix[|prefix| - 1])
    ensures StartXrefWith(prefix + dg + tail, tail) == Some(ParseDigits(Chars(dg)))
  {
    var pdf := prefix + dg + tail;
    var k := |pdf| - |tail|;
    var j := |prefix|;
    assert pdf[k..] == tail;
    assert pdf[j..k] == dg;
    forall i | j <= i < k
      ensures IsDigitByte(pdf[i])
    {
      assert pdf[i] == dg[i - j];
    }
    assert pdf[j - 1] == prefix[|prefix| - 1];
    DigitsBeforeRun(pdf, j, k);
  }

  lemma TrailerXref(prefix: seq<byte>)
    ensures StartXref(prefix + Trailer()) == Some(|PdfHeader|)
  {
    var line := Ascii(StartxrefLine);
    var before := prefix + Ascii(XrefTable) + line;
    var dg := Ascii(NatToString(|PdfHeader|));
    ParseNatBytes(|PdfHeader|);
    StartxrefLineEnd();
    assert before[|before| - 1] == line[|line| - 1];
    Regroup4(prefix, Ascii(XrefTable), line, dg, Ascii(PdfEnd));
    TailNumber(before, dg, Ascii(PdfEnd));
  }

  /** The fallback PDF: read at `len(header)`, object 4 is a stream whose
      `/Length` is the count of the HTML's UTF-8 bytes and whose content is
      those bytes; `startxref` gives `len(header)`, the offset of that
      stream object (not of the `xref` table). */
  lemma RenderPdfLayout(html: string)
    ensures var pdf := RenderPdf(html);
      ReadStream(pdf, |PdfHeader|) == Some(Utf8(html)) &&
      StartXref(pdf) == Some(|PdfHeader|)
  {
    var h := Ascii(PdfHeader);
    var obj := StreamObject(Utf8(html));
    StreamRoundTrip(h, Utf8(html), Trailer());
    TrailerXref(h + obj);
  }

  // ---- _build_invoice_html ----

  const HtmlStart: string :=
    "\n    <html>\n      <head>\n        <meta charset=\"utf-8\" />\n        <style>\n" +
    "          body { font-family: sans-serif; font-size: 12px; }\n" +
    "          table { border-collapse: collapse; width: 100%; }\n" +
    "          th, td { border: 1px solid #ccc; padding: 6px; text-align: left; }\n" +
    "          th { background: #f5f5f5; }\n        </style>\n      </head>\n      <body>\n" +
    "        <h1>Invoice Export</h1>\n        <p>Generated at "

  const HtmlMiddle: string :=
    " UTC</p>\n        <table>\n          <thead>\n            <tr>\n" +
    "              <th>Job ID</th>\n              <th>Vendor</th>\n              <th>Amount (JPY)</th>\n" +
    "              <th>Status</th>\n              <th>Approval</th>\n              <th>Issue Date</th>\n" +
    "            </tr>\n          </thead>\n          <tbody>\n            "

  const HtmlEnd: string := "\n          </tbody>\n        </table>\n      </body>\n    </html>\n    "

  /** `datetime.utcnow().strftime("%Y-%m-%d %H:%M")`. */
  function Generated(now: DateTime): (s: string)
    requires Valid(now)
    ensures |s| == 16
  {
    Four(now.year) + "-" + Two(now.month) + "-" + Two(now.day) + " " + Two(now.hour) + ":" + Two(now.minute)
  }

  function Cell(c: string): string {
    "<td>" + c + "</td>"
  }

  function CellsHtml(cells: seq<string>): string {
    if cells == [] then "" else Cell(cells[0]) + CellsHtml(cells[1..])
  }

  function RowHtml(cells: seq<string>): string {
    "<tr>" + CellsHtml(cells) + "</tr>"
  }

  /** The `rows` string: one `<tr>` per row, in order. */
  function RowsHtml(rows: seq<seq<string>>): string {
    if rows == [] then "" else RowHtml(rows[0]) + RowsHtml(rows[1..])
  }

  /** The whole document around the rows. */
  function InvoiceHtml(rows: seq<seq<string>>, generated: string): string {
    HtmlStart + generated + HtmlMiddle + RowsHtml(rows) + HtmlEnd
  }

  predicate HasPrefix(s: string, p: string) {
    |p| <= |s| && s[..|p|] == p
  }

  /** A reader of the table: one `<td>...</td>`, the text up to the next `<`. */
  function ReadCell(s: string): (r: Option<(string, string)>)
    ensures r.Some? ==> |r.value.1| < |s|
  {
    if HasPrefix(s, "<td>") then
      var k := IndexOfChar(s, '<', 4);
      if HasPrefix(s[k..], "</td>") then Some((s[4..k], s[k + 5..])) else None
    else None
  }

  /** The cells of a row, read while one follows. */
  function ReadCells(s: string): (r: (seq<string>, string))
    ensures |r.1| <= |s|
    decreases |s|
  {
    match ReadCell(s)
    case Some((c, rest)) => var more := ReadCells(rest); ([c] + more.0, more.1)
    case None => ([], s)
  }

  function ReadRow(s: string): (r: Option<(seq<string>, string)>)
    ensures r.Some? ==> |r.value.1| < |s|
  {
    if HasPrefix(s, "<tr>") then
      var cells := ReadCells(s[4..]);
      if HasPrefix(cells.1, "</tr>") then Some((cells.0, cells.1[5..])) else None
    else None
  }

  /** The rows read back from the `rows` string. */
  function ReadRows(s: string): Option<seq<seq<string>>>
    decreases |s|
  {
    if s == [] then Some([])
    else match ReadRow(s)
      case Some((row, rest)) =>
        (match ReadRows(rest)
         case Some(rows) => Some([row] + rows)
         case None => None)
      case None => None
  }

  /** No cell text holds a `<`. */
  predicate Plain(cells: seq<string>) {
    forall i :: 0 <= i < |cells| ==> '<' !in cells[i]
  }

  lemma ReadNoCell(t: string)
    requires HasPrefix(t, "</")
    ensures ReadCell(t).None?
  {
    assert t[1] == '/';
  }

  lemma {:induction false} ReadAllCells(cells: seq<string>, t: string)
    requires Plain(cells) && HasPrefix(t, "</")
    ensures ReadCells(CellsHtml(cells) + t) == (cells, t)
  {
    if cells == [] {
      ReadNoCell(t);
      assert CellsHtml(cells) + t == t;
    } else {
      var s := CellsHtml(cells) + t;
      var rest := CellsHtml(cells[1..]) + t;
      assert s == Cell(cells[0]) + rest;
      assert '<' !in cells[0];
      ReadCellBefore(cells[0], cells[1..], t);
      assert ReadCell(s) == Some((cells[0], rest));
      PlainTail(cells);
      ReadAllCells(cells[1..], t);
      assert ReadCells(s) == ([cells[0]] + cells[1..], t);
      assert cells == [cells[0]] + cells[1..];
    }
  }

  lemma PlainTail(cells: seq<string>)
    requires Plain(cells) && cells != []
    ensures Plain(cells[1..])
  {
    forall i | 0 <= i < |cells[1..]|
      ensures '<' !in cells[1..][i]
    {
      assert cells[1..][i] == cells[i + 1];
    }
  }

  /** What follows a cell is another cell or the closing tag: a `<` and
      a `/` after `</td>`, or `<td>`. */
  lemma ReadCellBefore(c: string, more: seq<string>, t: string)
    requires '<' !in c && HasPrefix(t, "</")
    ensures ReadCell(Cell(c) + (CellsHtml(more) + t)) == Some((c, CellsHtml(more) + t))
  {
    var rest := CellsHtml(more) + t;
    var s := Cell(c) + rest;
    assert s == "<td>" + c + "</td>" + rest;
    assert s[..4] == "<td>";
    assert s[4 + |c|] == '<';
    assert forall j :: 4 <= j < 4 + |c| ==> s[j] == c[j - 4];
    IndexOfCharAt(s, '<', 4, 4 + |c|);
    assert s[4 + |c|..] == "</td>" + rest;
    assert ("</td>" + rest)[..5] == "</td>";
    assert ("</td>" + rest)[5..] == rest;
    assert s[4..4 + |c|] == c;
  }

  lemma ReadOneRow(cells: seq<string>, t: string)
    requires Plain(cells)
    ensures ReadRow(RowHtml(cells) + t) == Some((cells, t))
  {
    var s := RowHtml(cells) + t;
    var body := CellsHtml(cells) + ("</tr>" + t);
    assert s == "<tr>" + body;
    assert s[..4] == "<tr>";
    assert s[4..] == body;
    ReadAllCells(cells, "</tr>" + t);
    assert ("</tr>" + t)[..5] == "</tr>";
    assert ("</tr>" + t)[5..] == t;
  }

  /** The table reads back as the rows it was made of, when no cell holds
      a `<`: one `<tr>` per row, each with its cells in order. */
  lemma {:induction false} RowsRoundTrip(rows: seq<seq<string>>)
    requires forall i :: 0 <= i < |rows| ==> Plain(rows[i])
    ensures ReadRows(RowsHtml(rows)) == Some(rows)
  {
    if rows != [] {
      ReadOneRow(rows[0], RowsHtml(rows[1..]));
      assert RowsHtml(rows) != [] by {
        assert RowsHtml(rows)[..4] == "<tr>";
      }
      RowsRoundTrip(rows[1..]);
      assert rows == [rows[0]] + rows[1..];
    }
  }

  // ---- export_invoices ----

  /** One entry of the export payload. */
  datatype InvoiceRow = InvoiceRow(jobId: string, vendor: Value, amount: string, status: string,
                                   approval: string, issueDate: Value)

  /** The six cells of a row, in column order, as the f-string writes them. */
  function Cells(row: InvoiceRow): (c: seq<string>)
    ensures |c| == 6
  {
    [row.jobId, PyStr(row.vendor), row.amount, row.status, row.approval, PyStr(row.issueDate)]
  }

  /** `{record.job_id: record.status for record in approvals.list_all()}`:
      a later record of the same job overwrites an earlier one. */
  function ApprovalIndex(records: seq<ApprovalRecord>): map<string, string> {
    if records == [] then map[]
    else ApprovalIndex(records[..|records| - 1])[records[|records| - 1].jobId := records[|records| - 1].status]
  }

  /** The index holds exactly the jobs with a record, each with the status
      of its last record. */
  lemma {:induction false} ApprovalIndexSpec(records: seq<ApprovalRecord>, id: string)
    ensures id in ApprovalIndex(records) <==> exists k :: 0 <= k < |records| && records[k].jobId == id
    ensures id in ApprovalIndex(records) ==>
      exists k :: 0 <= k < |records| && records[k].jobId == id && ApprovalIndex(records)[id] == records[k].status &&
        forall j :: k < j < |records| ==> records[j].jobId != id
  {
    if records != [] {
      var n := |records| - 1;
      ApprovalIndexSpec(records[..n], id);
      if exists k :: 0 <= k < n && records[..n][k].jobId == id {
        var k :| 0 <= k < n && records[..n][k].jobId == id;
        assert records[k] == records[..n][k];
      }
      if exists k :: 0 <= k < |records| && records[k].jobId == id {
        var k :| 0 <= k < |records| && records[k].jobId == id;
        if k < n {
          assert records[..n][k] == records[k];
        }
      }
      if id in ApprovalIndex(records) && records[n].jobId != id {
        var k :| 0 <= k < n && records[..n][k].jobId == id && ApprovalIndex(records[..n])[id] == records[..n][k].status &&
          forall j :: k < j < n ==> records[..n][j].jobId != id;
        assert records[k] == records[..n][k];
        forall j | k < j < |records|
          ensures records[j].jobId != id
        {
          if j < n {
            assert records[..n][j] == records[j];
          }
        }
      }
    }
  }

  /** `f"{amount:,}"` for a number, `str(amount)` otherwise. */
  function AmountText(amount: Value): string {
    match amount
    case Int(i) => IntGrouped(i)
    case Float(x) => FloatGrouped(x)
    case Bool(b) => IntGrouped(if b then 1 else 0)
    case _ => PyStr(amount)
  }

  /** The payload dictionary of one job. */
  function RowOf(job: Job, index: map<string, string>): InvoiceRow {
    var entry := job.journalEntry.GetOr(map[]);
    var ocr := job.ocrFields.GetOr(map[]);
    var amount := Or(Or(Get(entry, "amount"), Get(entry, "amount_gross")), Str(""));
    var issueDate := if job.ocrFields.Some? then Get(job.ocrFields.value, "issue_date") else Null;
    InvoiceRow(job.id,
               Or(Or(Get(entry, "vendor"), Get(ocr, "vendor")), Str("不明")),
               AmountText(amount),
               job.status,
               if job.id in index then index[job.id] else job.approvalStatus,
               Or(issueDate, Str("-")))
  }

  function InvoiceRows(jobs: seq<Job>, index: map<string, string>): (rows: seq<InvoiceRow>)
    ensures |rows| == |jobs| && forall i :: 0 <= i < |jobs| ==> rows[i] == RowOf(jobs[i], index)
  {
    seq(|jobs|, i requires 0 <= i < |jobs| => RowOf(jobs[i], index))
  }

  function AllCells(rows: seq<InvoiceRow>): (c: seq<seq<string>>)
    ensures |c| == |rows| && forall i :: 0 <= i < |rows| ==> c[i] == Cells(rows[i])
  {
    seq(|rows|, i requires 0 <= i < |rows| => Cells(rows[i]))
  }

  /** A `Response`: its body bytes, media type and `Content-Disposition`. */
  datatype Response = Response(content: seq<byte>, mediaType: string, disposition: string)

  /** `export_invoices()` for the stored jobs and approval records at `now`:
      the 404 `No jobs to export` exactly when no job is stored, and
      otherwise a PDF attachment. */
  function ExportInvoicesOf(stored: seq<Job>, records: seq<ApprovalRecord>, now: DateTime): (r: Result<Response>)
    requires Valid(now)
    ensures r.Err? <==> stored == []
    ensures stored == [] ==> r == Err(HttpError(404, "No jobs to export"))
    ensures r.Ok? ==> r.value.mediaType == "application/pdf" &&
                      r.value.disposition == "attachment; filename=\"invoices.pdf\""
  {
    ListJobsSorted(stored);
    assert stored != [] ==> stored[0] in multiset(stored);
    var jobs := ListJobs(stored);
    if jobs == [] then Err(HttpError(404, "No jobs to export"))
    else
      var rows := InvoiceRows(jobs, ApprovalIndex(ListAll(records)));
      Ok(Response(InvoicePdf(rows, now), "application/pdf", "attachment; filename=\"invoices.pdf\""))
  }

  /** The rendered invoice list: the HTML table of `rows` stamped with `now`, as a PDF. */
  function InvoicePdf(rows: seq<InvoiceRow>, now: DateTime): seq<byte>
    requires Valid(now)
  {
    RenderPdf(InvoiceHtml(AllCells(rows), Generated(now)))
  }

  /** `export_invoices`, with its loop over the jobs. */
  method ExportInvoices(stored: seq<Job>, records: seq<ApprovalRecord>, now: DateTime) returns (r: Result<Response>)
    requires Valid(now)
    ensures r == ExportInvoicesOf(stored, records, now)
  {
    var jobs := ListJobs(stored);
    if jobs == [] {
      return Err(HttpError(404, "No jobs to export"));
    }
    var index := ApprovalIndex(ListAll(records));
    var payload := BuildPayload(jobs, index);
    r := Ok(Response(InvoicePdf(payload, now), "application/pdf", "attachment; filename=\"invoices.pdf\""));
  }

  /** The loop of `export_invoices` that builds the payload. */
  method BuildPayload(jobs: seq<Job>, index: map<string, string>) returns (payload: seq<InvoiceRow>)
    ensures payload == InvoiceRows(jobs, index)
  {
    payload := [];
    var i := 0;
    while i < |jobs|
      invariant 0 <= i <= |jobs|
      invariant payload == InvoiceRows(jobs, index)[..i]
    {
      payload := payload + [RowOf(jobs[i], index)];
      i := i + 1;
    }
  }

  /** One row per listed job, in list order, each the job's own row. */
  lemma InvoiceRowsInOrder(stored: seq<Job>, records: seq<ApprovalRecord>)
    ensures var jobs := ListJobs(stored);
      var rows := InvoiceRows(jobs, ApprovalIndex(ListAll(records)));
      |rows| == |stored| &&
      forall i :: 0 <= i < |rows| ==> rows[i].jobId == jobs[i].id && rows[i].status == jobs[i].status
  {
    var jobs := ListJobs(stored);
    var index := ApprovalIndex(ListAll(records));
    ListJobsSorted(stored);
    assert |jobs| == |multiset(jobs)|;
  }

  /** The vendor is the journal's, else the OCR result's, else `不明`. */
  lemma VendorFallback(job: Job, index: map<string, string>)
    ensures var v := RowOf(job, index).vendor;
      var journal := if job.journalEntry.Some? then Get(job.journalEntry.value, "vendor") else Null;
      var ocr := if job.ocrFields.Some? then Get(job.ocrFields.value, "vendor") else Null;
      (Truthy(journal) ==> v == journal) &&
      (!Truthy(journal) && Truthy(ocr) ==> v == ocr) &&
      (!Truthy(journal) && !Truthy(ocr) ==> v == Str("不明"))
  {
  }

  /** The amount is `amount`, else `amount_gross`, else empty; numbers are
      written with comma thousands separators. */
  lemma AmountFallback(job: Job, index: map<string, string>)
    ensures var a := RowOf(job, index).amount;
      var entry := job.journalEntry.GetOr(map[]);
      var first := Get(entry, "amount");
      var second := Get(entry, "amount_gross");
      (Truthy(first) && first.Int? ==> a == IntGrouped(first.i)) &&
      (Truthy(first) && first.Str? ==> a == first.s) &&
      (!Truthy(first) && Truthy(second) && second.Int? ==> a == IntGrouped(second.i)) &&
      (!Truthy(first) && Truthy(second) && second.Str? ==> a == second.s) &&
      (!Truthy(first) && !Truthy(second) ==> a == "")
  {
  }

  /** Grouping an integer puts a comma between every three digits: read
      back without the commas it is the integer's own text. */
  lemma AmountGrouped(n: nat)
    ensures RemoveChar(IntGrouped(n), ',') == NatToString(n)
  {
    GroupThousandsUngroup(NatToString(n));
  }

  /** The approval is the index's status for the job when it has one,
      else the job's own `approval_status`. */
  lemma ApprovalRule(job: Job, records: seq<ApprovalRecord>)
    ensures var index := ApprovalIndex(records);
      var a := RowOf(job, index).approval;
      ((exists k :: 0 <= k < |records| && records[k].jobId == job.id) ==> job.id in index && a == index[job.id]) &&
      ((forall k :: 0 <= k < |records| ==> records[k].jobId != job.id) ==> a == job.approvalStatus)
  {
    ApprovalIndexSpec(records, job.id);
  }

  /** A missing or empty issue date is written as `-`. */
  lemma IssueDateRule(job: Job, index: map<string, string>)
    ensures var d := RowOf(job, index).issueDate;
      (job.ocrFields.None? ==> d == Str("-")) &&
      (job.ocrFields.Some? && !Truthy(Get(job.ocrFields.value, "issue_date")) ==> d == Str("-")) &&
      (job.ocrFields.Some? && Truthy(Get(job.ocrFields.value, "issue_date")) ==> d == job.ocrFields.value["issue_date"])
  {
  }

  // ---- export_journal ----

  const JournalHeader: seq<string> :=
    ["job_id", "vendor", "debit_account", "credit_account", "amount", "tax", "recorded_at"]

  /** The row `writer.writerow` writes for one entry: the seven fields,
      the amount being `amount or amount_gross`. */
  function JournalFields(e: Dict): (fields: seq<string>)
    ensures |fields| == |JournalHeader|
  {
    [CsvText(Get(e, "job_id")), CsvText(Get(e, "vendor")), CsvText(Get(e, "debit_account")),
     CsvText(Get(e, "credit_account")), CsvText(Or(Get(e, "amount"), Get(e, "amount_gross"))),
     CsvText(Get(e, "tax")), CsvText(Get(e, "recorded_at"))]
  }

  function JournalBody(entries: seq<Dict>): string {
    if entries == [] then "" else JournalBody(entries[..|entries| - 1]) + Row(JournalFields(entries[|entries| - 1]))
  }

  /** The csv text: the header row, then one row per entry. */
  function JournalCsv(entries: seq<Dict>): string {
    Row(JournalHeader) + JournalBody(entries)
  }

  /** `export_journal()` for the journal's entries. */
  function ExportJournalOf(entries: seq<Dict>): (r: Result<Response>)
    ensures r.Err? <==> entries == []
  {
    if entries == [] then Err(HttpError(404, "No journal entries available"))
    else Ok(Response(Utf8(JournalCsv(entries)), "text/csv", "attachment; filename=\"journal.csv\""))
  }

  /** `export_journal`. */
  method ExportJournal(entries: seq<Dict>) returns (r: Result<Response>)
    ensures r == ExportJournalOf(entries)
  {
    if entries == [] {
      return Err(HttpError(404, "No journal entries available"));
    }
    var body := WriteJournalRows(entries);
    var buffer := Row(JournalHeader) + body;
    r := Ok(Response(Utf8(buffer), "text/csv", "attachment; filename=\"journal.csv\""));
  }

  /** The `writer.writerow` loop of `export_journal`. */
  method WriteJournalRows(entries: seq<Dict>) returns (body: string)
    ensures body == JournalBody(entries)
  {
    body := "";
    var i := 0;
    while i < |entries|
      invariant 0 <= i <= |entries|
      invariant body == JournalBody(entries[..i])
    {
      JournalBodyStep(entries, i);
      body := body + Row(JournalFields(entries[i]));
      i := i + 1;
    }
    assert entries[..i] == entries;
  }

  /** Appending an entry appends its row. */
  lemma JournalBodyAppend(entries: seq<Dict>, e: Dict)
    ensures JournalBody(entries + [e]) == JournalBody(entries) + Row(JournalFields(e))
  {
    assert (entries + [e])[..|entries|] == entries;
  }

  lemma JournalBodyStep(entries: seq<Dict>, i: nat)
    requires i < |entries|
    ensures JournalBody(entries[..i + 1]) == JournalBody(entries[..i]) + Row(JournalFields(entries[i]))
  {
    assert entries[..i + 1] == entries[..i] + [entries[i]];
    JournalBodyAppend(entries[..i], entries[i]);
  }

  /** The amount column is `amount` when that is truthy, else
      `amount_gross`, `None` written as an empty cell. */
  lemma JournalAmount(e: Dict)
    ensures Truthy(Get(e, "amount")) ==> JournalFields(e)[4] == PyStr(e["amount"])
    ensures !Truthy(Get(e, "amount")) && "amount_gross" in e && !e["amount_gross"].Null? ==>
      JournalFields(e)[4] == PyStr(e["amount_gross"])
    ensures !Truthy(Get(e, "amount")) && "amount_gross" !in e ==> JournalFields(e)[4] == ""
  {
  }

  /** Each row, read back field by field, gives the entry's values. */
  lemma JournalFieldsRead(e: Dict, i: nat)
    requires i < |JournalHeader|
    ensures Unescape(EscapeAll(JournalFields(e))[i]) == JournalFields(e)[i]
  {
    EscapeRoundTrip(JournalFields(e)[i]);
  }
}
