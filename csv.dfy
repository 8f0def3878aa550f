/** The part of Python's `csv.DictWriter` the exports use: the default
    dialect (`,` delimiter, `"` quote character, `QUOTE_MINIMAL`, `"\r\n"`
    line terminator). */
module Csv {
  import opened Text

  /** A field is quoted when it holds the delimiter, the quote character or
      a line-terminator character. */
  predicate NeedsQuote(s: string) {
    ',' in s || '"' in s || '\r' in s || '\n' in s
  }

  /** Every `"` written twice. */
  function DoubleQuotes(s: string): (r: string)
    ensures |r| >= |s|
  {
    if s == [] then []
    else (if s[0] == '"' then "\"\"" else [s[0]]) + DoubleQuotes(s[1..])
  }

  /** The inverse of `DoubleQuotes`, as a csv reader undoes it. */
  function UndoubleQuotes(t: string): string
    decreases |t|
  {
    if t == [] then []
    else if t[0] == '"' && |t| >= 2 && t[1] == '"' then "\"" + UndoubleQuotes(t[2..])
    else [t[0]] + UndoubleQuotes(t[1..])
  }

  lemma {:induction false} UndoubleDouble(s: string)
    ensures UndoubleQuotes(DoubleQuotes(s)) == s
  {
    if s != [] {
      var rest := DoubleQuotes(s[1..]);
      UndoubleDouble(s[1..]);
      if s[0] == '"' {
        assert DoubleQuotes(s) == "\"\"" + rest;
        assert (("\"\"" + rest)[2..]) == rest;
      } else {
        assert DoubleQuotes(s) == [s[0]] + rest;
        assert ([s[0]] + rest)[1..] == rest;
      }
      assert s == [s[0]] + s[1..];
    }
  }

  /** One field as the writer puts it on the line. */
  function Escape(s: string): (r: string)
    ensures !NeedsQuote(s) ==> r == s
    ensures NeedsQuote(s) ==> |r| >= 2 && r[0] == '"' && r[|r| - 1] == '"'
  {
    if NeedsQuote(s) then "\"" + DoubleQuotes(s) + "\"" else s
  }

  /** What a reader makes of one written field. */
  function Unescape(t: string): string {
    if |t| >= 2 && t[0] == '"' && t[|t| - 1] == '"' then UndoubleQuotes(t[1..|t| - 1]) else t
  }

  /** Reading a written field gives the field back. */
  lemma EscapeRoundTrip(s: string)
    ensures Unescape(Escape(s)) == s
  {
    if NeedsQuote(s) {
      var t := Escape(s);
      assert t[1..|t| - 1] == DoubleQuotes(s);
      UndoubleDouble(s);
    } else if |s| >= 2 {
      assert s[0] in s;
    }
  }

  /** `writer.writerow(...)`: the escaped fields joined with `,`, then `"\r\n"`. */
  function Row(fields: seq<string>): (line: string)
  {
    Join(",", EscapeAll(fields)) + "\r\n"
  }

  function EscapeAll(fields: seq<string>): (r: seq<string>)
    ensures |r| == |fields| && forall i :: 0 <= i < |fields| ==> r[i] == Escape(fields[i])
  {
    if fields == [] then [] else [Escape(fields[0])] + EscapeAll(fields[1..])
  }

  /** A row of fields that need no quoting is written as they are. */
  lemma RowPlain(fields: seq<string>)
    requires forall i :: 0 <= i < |fields| ==> !NeedsQuote(fields[i])
    ensures Row(fields) == Join(",", fields) + "\r\n"
  {
    assert EscapeAll(fields) == fields;
  }
}
