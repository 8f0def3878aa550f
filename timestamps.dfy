/** Naive UTC date-times and the three text forms the stores persist them in:
    `"%Y-%m-%dT%H:%M:%SZ"` (approvals), `"%Y-%m-%dT%H:%M:%S.%fZ"` (jobs) and
    `datetime.isoformat()` (the integration clients). */
module Timestamps {
  import opened Wrappers
  import opened Text
  import opened Numbers

  datatype DateTime = DateTime(year: int, month: int, day: int,
                               hour: int, minute: int, second: int, micro: int)

  predicate IsLeap(y: int) {
    (y % 4 == 0 && y % 100 != 0) || y % 400 == 0
  }

  function DaysInMonth(y: int, m: int): (d: int)
    requires 1 <= m <= 12
    ensures 28 <= d <= 31
  {
    if m == 2 then (if IsLeap(y) then 29 else 28)
    else if m == 4 || m == 6 || m == 9 || m == 11 then 30
    else 31
  }

  /** A `datetime` value; years are kept to four digits, the range in
      which `%Y` and `isoformat` write exactly four. */
  predicate Valid(dt: DateTime) {
    1000 <= dt.year <= 9999 && 1 <= dt.month <= 12 && 1 <= dt.day <= DaysInMonth(dt.year, dt.month) &&
    0 <= dt.hour < 24 && 0 <= dt.minute < 60 && 0 <= dt.second < 60 && 0 <= dt.micro < 1000000
  }

  /** The fields as a tuple, compared lexicographically: chronological order. */
  predicate Before(a: DateTime, b: DateTime) {
    a.year < b.year || (a.year == b.year &&
    (a.month < b.month || (a.month == b.month &&
    (a.day < b.day || (a.day == b.day &&
    (a.hour < b.hour || (a.hour == b.hour &&
    (a.minute < b.minute || (a.minute == b.minute &&
    (a.second < b.second || (a.second == b.second && a.micro < b.micro)))))))))))
  }

  /** `a <= b` on datetimes. */
  predicate AtMost(a: DateTime, b: DateTime) {
    a == b || Before(a, b)
  }

  lemma AtMostTotal(a: DateTime, b: DateTime)
    ensures AtMost(a, b) || AtMost(b, a)
  {
  }

  lemma AtMostTrans(a: DateTime, b: DateTime, c: DateTime)
    requires AtMost(a, b) && AtMost(b, c)
    ensures AtMost(a, c)
  {
  }

  /** The same instant with the sub-second part dropped. */
  function Truncated(dt: DateTime): DateTime {
    dt.(micro := 0)
  }

  /** The following calendar day at the same time of day; `OverflowError`
      past the year 9999, as `datetime` raises. */
  function NextDay(dt: DateTime): (r: Result<DateTime>)
    requires Valid(dt)
    ensures r.Ok? ==> Valid(r.value) && Before(dt, r.value)
    ensures r.Ok? ==> r.value.hour == dt.hour && r.value.minute == dt.minute &&
                      r.value.second == dt.second && r.value.micro == dt.micro
    ensures r.Err? <==> dt.year == 9999 && dt.month == 12 && dt.day == 31
  {
    if dt.day < DaysInMonth(dt.year, dt.month) then Ok(dt.(day := dt.day + 1))
    else if dt.month < 12 then Ok(dt.(month := dt.month + 1, day := 1))
    else if dt.year < 9999 then Ok(dt.(year := dt.year + 1, month := 1, day := 1))
    else Err(OverflowError("date value out of range"))
  }

  /** `dt + timedelta(hours=h)` for `0 <= h < 24`. */
  function AddHours(dt: DateTime, h: nat): (r: Result<DateTime>)
    requires Valid(dt) && h < 24
    ensures r.Ok? ==> Valid(r.value) && (h > 0 ==> Before(dt, r.value))
    ensures r.Ok? ==> r.value.minute == dt.minute && r.value.second == dt.second &&
                      r.value.micro == dt.micro && r.value.hour == (dt.hour + h) % 24
  {
    if dt.hour + h < 24 then Ok(dt.(hour := dt.hour + h))
    else
      match NextDay(dt)
      case Ok(next) => Ok(next.(hour := dt.hour + h - 24))
      case Err(e) => Err(e)
  }

  // ---- text forms ----

  function Two(n: int): (s: string)
    requires 0 <= n < 100
    ensures |s| == 2 && AllDigits(s) && ParseDigits(s) == n
  {
    Pow10Values();
    Digits(n, 2)
  }

  function Four(n: int): (s: string)
    requires 0 <= n < 10000
    ensures |s| == 4 && AllDigits(s) && ParseDigits(s) == n
  {
    Pow10Values();
    Digits(n, 4)
  }

  function Six(n: int): (s: string)
    requires 0 <= n < 1000000
    ensures |s| == 6 && AllDigits(s) && ParseDigits(s) == n
  {
    Pow10Values();
    Digits(n, 6)
  }

  /** `"%Y-%m-%d"` followed by `"T%H:%M:%S"`. */
  function DateTimeText(dt: DateTime): (s: string)
    requires Valid(dt)
    ensures |s| == 19
  {
    Four(dt.year) + "-" + Two(dt.month) + "-" + Two(dt.day) + "T" +
    Two(dt.hour) + ":" + Two(dt.minute) + ":" + Two(dt.second)
  }

  /** `dt.strftime("%Y-%m-%dT%H:%M:%SZ")`. */
  function FormatSecondsZ(dt: DateTime): (s: string)
    requires Valid(dt)
    ensures |s| == 20
  {
    DateTimeText(dt) + "Z"
  }

  /** `dt.strftime("%Y-%m-%dT%H:%M:%S.%fZ")`. */
  function FormatMicrosZ(dt: DateTime): (s: string)
    requires Valid(dt)
    ensures |s| == 27
  {
    DateTimeText(dt) + "." + Six(dt.micro) + "Z"
  }

  /** `dt.isoformat()`: the microseconds are written only when non-zero. */
  function IsoFormat(dt: DateTime): (s: string)
    requires Valid(dt)
    ensures |s| == (if dt.micro == 0 then 19 else 26)
  {
    DateTimeText(dt) + (if dt.micro == 0 then "" else "." + Six(dt.micro))
  }

  /** A fixed-width digit field at `s[i..i+n]`. */
  function Field(s: string, i: nat, n: nat): Option<nat>
  {
    if i + n <= |s| && AllDigits(s[i..i + n]) then Some(ParseDigits(s[i..i + n])) else None
  }

  /** Reads `YYYY-MM-DDTHH:MM:SS` from the first 19 characters. */
  function ReadDateTime(s: string, micro: int): (r: Option<DateTime>)
    ensures r.Some? ==> Valid(r.value) && r.value.micro == micro
  {
    if |s| < 19 || s[4] != '-' || s[7] != '-' || s[10] != 'T' || s[13] != ':' || s[16] != ':' then None
    else
      var y := Field(s, 0, 4);
      var mo := Field(s, 5, 2);
      var d := Field(s, 8, 2);
      var h := Field(s, 11, 2);
      var mi := Field(s, 14, 2);
      var se := Field(s, 17, 2);
      if y.None? || mo.None? || d.None? || h.None? || mi.None? || se.None? then None
      else
        var dt := DateTime(y.value, mo.value, d.value, h.value, mi.value, se.value, micro);
        if Valid(dt) then Some(dt) else None
  }

  /** `datetime.strptime(s, "%Y-%m-%dT%H:%M:%SZ")` on fixed-width text;
      `None` stands for the `ValueError`. */
  function ParseSecondsZ(s: string): (r: Option<DateTime>)
    ensures r.Some? ==> Valid(r.value) && r.value.micro == 0
  {
    if |s| == 20 && s[19] == 'Z' then ReadDateTime(s, 0) else None
  }

  /** `datetime.strptime(s, "%Y-%m-%dT%H:%M:%S.%fZ")` on fixed-width text. */
  function ParseMicrosZ(s: string): (r: Option<DateTime>)
    ensures r.Some? ==> Valid(r.value)
  {
    if |s| == 27 && s[19] == '.' && s[26] == 'Z' then
      match Field(s, 20, 6)
      case Some(f) => ReadDateTime(s, f)
      case None => None
    else None
  }

  /** `datetime.fromisoformat(s)` for the forms `isoformat()` writes. */
  function FromIsoFormat(s: string): (r: Option<DateTime>)
    ensures r.Some? ==> Valid(r.value)
  {
    if |s| == 19 then ReadDateTime(s, 0)
    else if |s| == 26 && s[19] == '.' then
      match Field(s, 20, 6)
      case Some(f) => ReadDateTime(s, f)
      case None => None
    else None
  }

  // ---- round trips ----

  /** The written date-time fields read back as the same fields. */
  lemma ReadDateTimeText(dt: DateTime, tail: string, micro: int)
    requires Valid(dt) && 0 <= micro < 1000000
    ensures ReadDateTime(DateTimeText(dt) + tail, micro) == Some(dt.(micro := micro))
  {
    var s := DateTimeText(dt) + tail;
    assert s[0..4] == Four(dt.year);
    assert s[5..7] == Two(dt.month);
    assert s[8..10] == Two(dt.day);
    assert s[11..13] == Two(dt.hour);
    assert s[14..16] == Two(dt.minute);
    assert s[17..19] == Two(dt.second);
  }

  /** Writing with the approvals format and reading back keeps every field
      but the microseconds, which that format does not carry. */
  lemma SecondsZRoundTrip(dt: DateTime)
    requires Valid(dt)
    ensures ParseSecondsZ(FormatSecondsZ(dt)) == Some(Truncated(dt))
  {
    ReadDateTimeText(dt, "Z", 0);
  }

  /** The jobs format keeps the whole value. */
  lemma MicrosZRoundTrip(dt: DateTime)
    requires Valid(dt)
    ensures ParseMicrosZ(FormatMicrosZ(dt)) == Some(dt)
  {
    var s := FormatMicrosZ(dt);
    var tail := "." + Six(dt.micro) + "Z";
    assert s == DateTimeText(dt) + tail;
    assert s[20..26] == Six(dt.micro);
    ReadDateTimeText(dt, tail, dt.micro);
  }

  /** `fromisoformat(isoformat(dt)) == dt`. */
  lemma IsoFormatRoundTrip(dt: DateTime)
    requires Valid(dt)
    ensures FromIsoFormat(IsoFormat(dt)) == Some(dt)
  {
    var s := IsoFormat(dt);
    if dt.micro == 0 {
      assert s == DateTimeText(dt) + "";
      ReadDateTimeText(dt, "", 0);
    } else {
      var tail := "." + Six(dt.micro);
      assert s == DateTimeText(dt) + tail;
      assert s[20..26] == Six(dt.micro);
      ReadDateTimeText(dt, tail, dt.micro);
    }
  }
}
