/** The dashboard summary of the journal (services/accounting/main.py,
    `compute_summary`): the total spend, totals per category, per debit
    account and per month, the category ratios, the five largest accounts
    and the approval rate. */
module Summary {
  import opened Wrappers
  import opened Numbers
  import opened Text
  import opened Values
  import opened Timestamps
  import opened Sorting
  import opened Buckets
  import opened Approvals
  import Config
  import Accounting

  /** The category of an entry without one. */
  const Unknown := "不明"

  // ---- one journal entry ----

  /** What the loop reads from one entry. */
  datatype Row = Row(amount: real, category: Value, account: Value, month: string)

  /** `strftime("%Y-%m")`. */
  function MonthText(dt: DateTime): (s: string)
    requires Valid(dt)
    ensures |s| == 7 && s[4] == '-'
  {
    Four(dt.year) + "-" + Two(dt.month)
  }

  /** `datetime.fromisoformat(stamp.replace("Z", "")).strftime("%Y-%m")`:
      a stamp that is not text has no `replace`, and text that is not an
      ISO date-time is the `ValueError` of `fromisoformat`. */
  function MonthOf(stamp: Value): (r: Result<string>)
    ensures r.Ok? <==> stamp.Str? && FromIsoFormat(RemoveChar(stamp.s, 'Z')).Some?
    ensures r.Ok? ==> r.value == MonthText(FromIsoFormat(RemoveChar(stamp.s, 'Z')).value)
  {
    if !stamp.Str? then Err(AttributeError("object has no attribute 'replace'"))
    else
      var text := RemoveChar(stamp.s, 'Z');
      match FromIsoFormat(text)
      case None => Err(ValueError("Invalid isoformat string: '" + text + "'"))
      case Some(dt) => Ok(MonthText(dt))
  }

  /** A dictionary key: lists and dictionaries are unhashable. */
  function Key(v: Value): (r: Result<Value>)
    ensures r.Ok? <==> !v.List? && !v.Obj?
    ensures r.Ok? ==> r.value == v
  {
    if v.List? then Err(TypeError("unhashable type: 'list'"))
    else if v.Obj? then Err(TypeError("unhashable type: 'dict'"))
    else Ok(v)
  }

  /** `entry.get("amount") or entry.get("amount_gross") or 0.0`. */
  function AmountField(e: Dict): Value {
    Or(Get(e, "amount"), Or(Get(e, "amount_gross"), Float(0.0)))
  }

  /** `entry.get("category") or "不明"`. */
  function CategoryField(e: Dict): Value {
    Or(Get(e, "category"), Str(Unknown))
  }

  /** `entry.get("debit_account") or entry.get("account") or "雑費"`. */
  function AccountField(e: Dict): Value {
    Or(Get(e, "debit_account"), Or(Get(e, "account"), Str(Accounting.MiscExpenses)))
  }

  /** `entry.get("recorded_at", "")`. */
  function StampField(e: Dict): Value {
    GetOr(e, "recorded_at", Str(""))
  }

  /** The row from the four steps, failing at the first that fails. */
  function MakeRow(amount: Result<real>, category: Result<Value>, account: Result<Value>, month: Result<string>): (r: Result<Row>)
    ensures r.Ok? <==> amount.Ok? && category.Ok? && account.Ok? && month.Ok?
    ensures r.Ok? ==> r.value == Row(amount.value, category.value, account.value, month.value)
  {
    var a :- amount;
    var c :- category;
    var acc :- account;
    var m :- month;
    Ok(Row(a, c, acc, m))
  }

  /** The body of the loop for one entry, up to the first exception. */
  function RowOf(e: Dict): Result<Row> {
    MakeRow(ToFloat(AmountField(e)), Key(CategoryField(e)), Key(AccountField(e)), MonthOf(StampField(e)))
  }

  /** The fields of a row: the amount is `float()` of the first truthy of
      `amount`, `amount_gross` or zero; the category falls back on the
      unknown category; the account on the account and then on the
      miscellaneous-expenses account; the month is that of the stamp. A
      row fails exactly when one of these steps does. */
  lemma RowOfFields(e: Dict)
    ensures RowOf(e).Ok? <==>
            ToFloat(AmountField(e)).Ok? && Key(CategoryField(e)).Ok? && Key(AccountField(e)).Ok? && MonthOf(StampField(e)).Ok?
    ensures RowOf(e).Ok? ==>
            var row := RowOf(e).value;
            ToFloat(AmountField(e)) == Ok(row.amount) &&
            row.category == CategoryField(e) && row.account == AccountField(e) &&
            MonthOf(StampField(e)) == Ok(row.month)
    ensures Truthy(Get(e, "category")) ==> CategoryField(e) == Get(e, "category")
    ensures !Truthy(Get(e, "category")) ==> CategoryField(e) == Str(Unknown)
    ensures Truthy(Get(e, "amount")) ==> AmountField(e) == Get(e, "amount")
  {
  }

  /** An entry without `recorded_at` always fails: when nothing before
      fails, the month parse of the empty default does. */
  lemma RowWithoutStamp(e: Dict)
    requires "recorded_at" !in e
    ensures RowOf(e).Err?
  {
    assert StampField(e) == Str("");
    assert FromIsoFormat(RemoveChar("", 'Z')).None?;
  }

  /** A stamp written by the posting step reads back as its own month. */
  lemma MonthOfRecordedAt(dt: DateTime)
    requires Valid(dt)
    ensures MonthOf(Str(FormatSecondsZ(dt))) == Ok(MonthText(dt))
  {
    var t := DateTimeText(dt);
    NoLetterZ(dt);
    RemoveCharAppend(t, "Z", 'Z');
    assert RemoveChar(FormatSecondsZ(dt), 'Z') == t;
    ReadDateTimeText(dt, "", 0);
    assert t + "" == t;
  }

  lemma NoLetterZ(dt: DateTime)
    requires Valid(dt)
    ensures 'Z' !in DateTimeText(dt)
  {
    var y := Four(dt.year);
    var mo := Two(dt.month);
    var d := Two(dt.day);
    var h := Two(dt.hour);
    var mi := Two(dt.minute);
    var se := Two(dt.second);
    assert 'Z' !in y && 'Z' !in mo && 'Z' !in d && 'Z' !in h && 'Z' !in mi && 'Z' !in se;
  }

  /** The results in order, failing at the first that fails. */
  function Collect(rs: seq<Result<Row>>): (r: Result<seq<Row>>)
    ensures r.Ok? ==> |r.value| == |rs|
  {
    if rs == [] then Ok([])
    else
      var init :- Collect(rs[..|rs| - 1]);
      var row :- rs[|rs| - 1];
      Ok(init + [row])
  }

  function RowResults(es: seq<Dict>): (rs: seq<Result<Row>>)
    ensures |rs| == |es| && forall i :: 0 <= i < |es| ==> rs[i] == RowOf(es[i])
  {
    MapSeq(es, RowOf)
  }

  /** The rows of all entries, failing at the first entry that fails. */
  function RowsOf(es: seq<Dict>): (r: Result<seq<Row>>)
    ensures r.Ok? ==> |r.value| == |es|
  {
    Collect(RowResults(es))
  }

  /** The collection succeeds exactly when every result does, one row per result. */
  lemma {:induction false} CollectOk(rs: seq<Result<Row>>)
    ensures Collect(rs).Ok? <==> forall i :: 0 <= i < |rs| ==> rs[i].Ok?
    ensures Collect(rs).Ok? ==> forall i :: 0 <= i < |rs| ==> Collect(rs).value[i] == rs[i].value
    decreases |rs|
  {
    if rs != [] {
      var init := rs[..|rs| - 1];
      CollectOk(init);
      assert forall i :: 0 <= i < |init| ==> init[i] == rs[i];
    }
  }

  /** The error is that of the first result that fails. */
  lemma {:induction false} CollectFirstError(rs: seq<Result<Row>>, i: nat)
    requires i < |rs| && rs[i].Err?
    requires forall k :: 0 <= k < i ==> rs[k].Ok?
    ensures Collect(rs) == Err(rs[i].error)
    decreases |rs|
  {
    var init := rs[..|rs| - 1];
    if i < |rs| - 1 {
      assert forall k :: 0 <= k <= i ==> init[k] == rs[k];
      CollectFirstError(init, i);
    } else {
      CollectOk(init);
      assert forall k :: 0 <= k < |init| ==> init[k] == rs[k];
    }
  }

  /** When a prefix collects, each of its results is a row. */
  lemma CollectPrefixOk(rs: seq<Result<Row>>, i: nat)
    requires i <= |rs| && Collect(rs[..i]).Ok?
    ensures forall k :: 0 <= k < i ==> rs[k].Ok?
  {
    var init := rs[..i];
    CollectOk(init);
    assert forall k :: 0 <= k < i ==> init[k] == rs[k];
  }

  /** The rows succeed exactly when every entry does, one row per entry. */
  lemma RowsOfOk(es: seq<Dict>)
    ensures RowsOf(es).Ok? <==> forall i :: 0 <= i < |es| ==> RowOf(es[i]).Ok?
    ensures RowsOf(es).Ok? ==> forall i :: 0 <= i < |es| ==> RowsOf(es).value[i] == RowOf(es[i]).value
  {
    CollectOk(RowResults(es));
  }

  /** The error is that of the first entry that fails. */
  lemma RowsOfFirstError(es: seq<Dict>, i: nat)
    requires i < |es| && RowOf(es[i]).Err?
    requires forall k :: 0 <= k < i ==> RowOf(es[k]).Ok?
    ensures RowsOf(es) == Err(RowOf(es[i]).error)
  {
    CollectFirstError(RowResults(es), i);
  }

  /** One more entry: the rows so far and its row. */
  lemma RowsOfAppend(es: seq<Dict>, i: nat, rows: seq<Row>)
    requires i < |es| && RowsOf(es[..i]) == Ok(rows) && RowOf(es[i]).Ok?
    ensures RowsOf(es[..i + 1]) == Ok(rows + [RowOf(es[i]).value])
  {
    var rs := RowResults(es[..i + 1]);
    assert rs[..i] == RowResults(es[..i]);
  }

  // ---- the totals ----

  function CategoryPairs(rows: seq<Row>): (p: Bucket<Value>)
    ensures |p| == |rows|
  {
    seq(|rows|, i requires 0 <= i < |rows| => (rows[i].category, rows[i].amount))
  }

  function AccountPairs(rows: seq<Row>): (p: Bucket<Value>)
    ensures |p| == |rows|
  {
    seq(|rows|, i requires 0 <= i < |rows| => (rows[i].account, rows[i].amount))
  }

  function MonthPairs(rows: seq<Row>): (p: Bucket<string>)
    ensures |p| == |rows|
  {
    seq(|rows|, i requires 0 <= i < |rows| => (rows[i].month, rows[i].amount))
  }

  /** The state after the loop: the running total and the three
      dictionaries. */
  datatype Totals = Totals(total: real, categories: Bucket<Value>, accounts: Bucket<Value>, months: Bucket<string>)

  function TotalsOf(rows: seq<Row>): Totals {
    Totals(Sum(CategoryPairs(rows)), Grouped(CategoryPairs(rows)), Grouped(AccountPairs(rows)), Grouped(MonthPairs(rows)))
  }

  /** Each dictionary files every entry's amount once: its totals add up
      to the total spend, each key appears once, the keys are exactly the
      entries' categories (accounts, months), and each key's total is the
      sum of the amounts of the entries filed under it. */
  lemma TotalsPartition(rows: seq<Row>)
    ensures var t := TotalsOf(rows);
            Sum(t.categories) == t.total && Sum(t.accounts) == t.total && Sum(t.months) == t.total &&
            Distinct(Keys(t.categories)) && Distinct(Keys(t.accounts)) && Distinct(Keys(t.months))
  {
    var c := CategoryPairs(rows);
    GroupedSum(c);
    GroupedSum(AccountPairs(rows));
    GroupedSum(MonthPairs(rows));
    SameSums(rows);
    GroupedKeys(c);
    GroupedKeys(AccountPairs(rows));
    GroupedKeys(MonthPairs(rows));
  }

  lemma {:induction false} SameSums(rows: seq<Row>)
    ensures Sum(AccountPairs(rows)) == Sum(CategoryPairs(rows))
    ensures Sum(MonthPairs(rows)) == Sum(CategoryPairs(rows))
  {
    if rows != [] {
      SameSums(rows[1..]);
      assert CategoryPairs(rows)[1..] == CategoryPairs(rows[1..]);
      assert AccountPairs(rows)[1..] == AccountPairs(rows[1..]);
      assert MonthPairs(rows)[1..] == MonthPairs(rows[1..]);
    }
  }

  /** A category is in the breakdown exactly when some entry has it, with
      the sum of those entries' amounts. */
  lemma CategoryTotals(rows: seq<Row>, k: Value)
    ensures k in Keys(TotalsOf(rows).categories) <==> exists i :: 0 <= i < |rows| && rows[i].category == k
    ensures Lookup(TotalsOf(rows).categories, k) == Lookup(CategoryPairs(rows), k)
  {
    var c := CategoryPairs(rows);
    GroupedKeys(c);
    GroupedLookup(c, k);
    if exists i :: 0 <= i < |rows| && rows[i].category == k {
      var i :| 0 <= i < |rows| && rows[i].category == k;
      assert Keys(c)[i] == k;
    }
  }

  lemma AccountTotals(rows: seq<Row>, k: Value)
    ensures k in Keys(TotalsOf(rows).accounts) <==> exists i :: 0 <= i < |rows| && rows[i].account == k
    ensures Lookup(TotalsOf(rows).accounts, k) == Lookup(AccountPairs(rows), k)
  {
    var c := AccountPairs(rows);
    GroupedKeys(c);
    GroupedLookup(c, k);
    if exists i :: 0 <= i < |rows| && rows[i].account == k {
      var i :| 0 <= i < |rows| && rows[i].account == k;
      assert Keys(c)[i] == k;
    }
  }

  lemma MonthTotals(rows: seq<Row>, m: string)
    ensures m in Keys(TotalsOf(rows).months) <==> exists i :: 0 <= i < |rows| && rows[i].month == m
    ensures Lookup(TotalsOf(rows).months, m) == Lookup(MonthPairs(rows), m)
  {
    var c := MonthPairs(rows);
    GroupedKeys(c);
    GroupedLookup(c, m);
    if exists i :: 0 <= i < |rows| && rows[i].month == m {
      var i :| 0 <= i < |rows| && rows[i].month == m;
      assert Keys(c)[i] == m;
    }
  }

  /** One step of the loop: the total and each dictionary take the row. */
  function Step(t: Totals, row: Row): Totals {
    Totals(t.total + row.amount, Add(t.categories, row.category, row.amount), Add(t.accounts, row.account, row.amount),
           Add(t.months, row.month, row.amount))
  }

  lemma StepTotals(rows: seq<Row>, row: Row)
    ensures TotalsOf(rows + [row]) == Step(TotalsOf(rows), row)
  {
    var r := rows + [row];
    assert CategoryPairs(r) == CategoryPairs(rows) + [(row.category, row.amount)];
    assert AccountPairs(r) == AccountPairs(rows) + [(row.account, row.amount)];
    assert MonthPairs(r) == MonthPairs(rows) + [(row.month, row.amount)];
    GroupedAppend(CategoryPairs(rows), (row.category, row.amount));
    GroupedAppend(AccountPairs(rows), (row.account, row.amount));
    GroupedAppend(MonthPairs(rows), (row.month, row.amount));
    SumAppend(CategoryPairs(rows), (row.category, row.amount));
  }

  // ---- the report ----

  /** `key=lambda item: item[1], reverse=True`. */
  predicate LargerFirst<K>(a: (K, real), b: (K, real)) {
    a.1 >= b.1
  }

  /** `sorted(items())` on distinct month keys. */
  predicate EarlierMonth(a: (string, real), b: (string, real)) {
    StrLe(a.0, b.0)
  }

  lemma LargerFirstOrder<K(!new)>()
    ensures TotalPreorder(LargerFirst<K>)
  {
  }

  lemma EarlierMonthOrder()
    ensures TotalPreorder(EarlierMonth)
  {
    forall a: (string, real), b: (string, real)
      ensures EarlierMonth(a, b) || EarlierMonth(b, a)
    {
      StrLeTotal(a.0, b.0);
    }
    forall a: (string, real), b: (string, real), c: (string, real) | EarlierMonth(a, b) && EarlierMonth(b, c)
      ensures EarlierMonth(a, c)
    {
      StrLeTrans(a.0, b.0, c.0);
    }
  }

  function Ranking<K>(b: Bucket<K>): Bucket<K> {
    Sort(b, LargerFirst<K>)
  }

  function Rounded<K>(b: Bucket<K>, d: nat): (r: Bucket<K>)
    ensures |r| == |b| && forall i :: 0 <= i < |b| ==> r[i] == (b[i].0, RoundHalfEven(b[i].1, d))
  {
    seq(|b|, i requires 0 <= i < |b| => (b[i].0, RoundHalfEven(b[i].1, d)))
  }

  /** `round(value / total, 4) if total else 0.0`. */
  function Ratios(b: Bucket<Value>, total: real): (r: Bucket<Value>)
    ensures |r| == |b|
  {
    seq(|b|, i requires 0 <= i < |b| => (b[i].0, if total != 0.0 then RoundHalfEven(b[i].1 / total, 4) else 0.0))
  }

  /** `[:5]`. */
  function Top<K>(b: Bucket<K>): (r: Bucket<K>)
    ensures |r| == if |b| <= 5 then |b| else 5
  {
    if |b| <= 5 then b else b[..5]
  }

  /** The returned dictionary. */
  datatype Report = Report(month: string, totalSpend: real, journalCount: nat, breakdown: Bucket<Value>,
                           categoryRatios: Bucket<Value>, approvalRate: real, monthlyTotals: Bucket<string>,
                           topAccounts: Bucket<Value>)

  /** The report of an empty journal. */
  function EmptyReport(currentMonth: string): Report {
    Report(currentMonth, 0.0, 0, [], [], 0.0, [], [])
  }

  function ReportOf(month: string, t: Totals, count: nat, rate: real): Report {
    var ranked := Ranking(t.categories);
    Report(month, RoundHalfEven(t.total, 2), count, Rounded(ranked, 2), Ratios(ranked, t.total), rate,
           Rounded(Sort(t.months, EarlierMonth), 2), Rounded(Top(Ranking(t.accounts)), 2))
  }

  /** The month of the report: `entries[0]["recorded_at"]`, a `KeyError`
      when missing, then its month. */
  function FirstMonth(first: Dict): (r: Result<string>)
    ensures "recorded_at" !in first ==> r == Err(KeyError("recorded_at"))
    ensures "recorded_at" in first ==> r == MonthOf(first["recorded_at"])
  {
    var stamp :- Item(first, "recorded_at");
    MonthOf(stamp)
  }

  /** The report of a non-empty journal, from the month and the rows. */
  function Summarize(month: Result<string>, rows: Result<seq<Row>>, count: nat, rate: real): (r: Result<Report>)
    ensures r.Ok? <==> month.Ok? && rows.Ok?
    ensures r.Err? ==> r.error == if month.Err? then month.error else rows.error
  {
    var m :- month;
    var rs :- rows;
    Ok(ReportOf(m, TotalsOf(rs), count, rate))
  }

  /** `compute_summary()` on the journal `entries`, the approval records
      and the month of the clock (used only for an empty journal). */
  function SummaryOf(entries: seq<Dict>, approvals: seq<ApprovalRecord>, currentMonth: string): Result<Report> {
    if entries == [] then Ok(EmptyReport(currentMonth))
    else Summarize(FirstMonth(entries[0]), RowsOf(entries), |entries|, ApprovalRate(approvals))
  }

  // ---- the approval rate ----

  function ApprovedCount(records: seq<ApprovalRecord>): (n: nat)
    ensures n <= |records|
  {
    if records == [] then 0 else (if records[0].status == "approved" then 1 else 0) + ApprovedCount(records[1..])
  }

  /** `n / m` for a count out of a positive total. */
  function Share(n: nat, m: nat): (q: real)
    requires m > 0
    ensures n <= m ==> 0.0 <= q <= 1.0
    ensures n == m ==> q == 1.0
    ensures n == 0 ==> q == 0.0
  {
    n as real / m as real
  }

  /** The share of approved records, to four decimals; zero without records. */
  function ApprovalRate(approvals: seq<ApprovalRecord>): real {
    if approvals == [] then 0.0
    else RoundHalfEven(Share(ApprovedCount(approvals), |approvals|), 4)
  }

  /** The rate is a share: between 0 and 1, 1 when every record is
      approved and 0 when none is. */
  lemma ApprovalRateBounds(approvals: seq<ApprovalRecord>)
    ensures 0.0 <= ApprovalRate(approvals) <= 1.0
    ensures approvals != [] && ApprovedCount(approvals) == |approvals| ==> ApprovalRate(approvals) == 1.0
    ensures ApprovedCount(approvals) == 0 ==> ApprovalRate(approvals) == 0.0
  {
    if approvals != [] {
      var q := Share(ApprovedCount(approvals), |approvals|);
      UnitRound(q, 4);
    }
  }

  lemma RoundZero(d: nat)
    ensures RoundHalfEven(0.0, d) == 0.0
  {
    WholeOnGrid(0, d);
    RoundHalfEvenExact(0.0, d);
  }

  lemma RoundOne(d: nat)
    ensures RoundHalfEven(1.0, d) == 1.0
  {
    WholeOnGrid(1, d);
    RoundHalfEvenExact(1.0, d);
  }

  /** Rounding a share keeps it a share, and keeps 0 and 1. */
  lemma UnitRound(q: real, d: nat)
    requires 0.0 <= q <= 1.0
    ensures 0.0 <= RoundHalfEven(q, d) <= 1.0
    ensures q == 0.0 ==> RoundHalfEven(q, d) == 0.0
    ensures q == 1.0 ==> RoundHalfEven(q, d) == 1.0
  {
    RoundZero(d);
    RoundOne(d);
    RoundHalfEvenMonotone(0.0, q, d);
    RoundHalfEvenMonotone(q, 1.0, d);
  }

  /** The approval list as written: `Settings` has no `approvals_path`, so
      the lookup raises `AttributeError` inside the `try`, the handler
      replaces the store with an empty list, and the stored records are
      never read. */
  function ApprovalsAsWritten(settings: Config.Settings, stored: seq<ApprovalRecord>): seq<ApprovalRecord> {
    []
  }

  function ApprovalRateAsWritten(settings: Config.Settings, stored: seq<ApprovalRecord>): real {
    ApprovalRate(ApprovalsAsWritten(settings, stored))
  }

  /** One approved record: the code as written reports a rate of 0, the
      intended rate is 1. */
  lemma ApprovalRateAsWrittenIgnoresStore(settings: Config.Settings, at: DateTime)
    ensures var stored := [ApprovalRecord("job-1", "approved", at, [])];
            ApprovalRateAsWritten(settings, stored) == 0.0 && ApprovalRate(stored) == 1.0
  {
    var stored := [ApprovalRecord("job-1", "approved", at, [])];
    assert ApprovedCount(stored) == 1;
    ApprovalRateBounds(stored);
  }

  // ---- what the report promises ----

  /** An empty journal gives the zero report for the current month. */
  lemma SummaryEmpty(approvals: seq<ApprovalRecord>, currentMonth: string)
    ensures SummaryOf([], approvals, currentMonth) == Ok(EmptyReport(currentMonth))
    ensures EmptyReport(currentMonth).totalSpend == 0.0 && EmptyReport(currentMonth).journalCount == 0
  {
  }

  /** The summary fails when the first entry has no `recorded_at` (the
      `KeyError`), and otherwise exactly when its month or some entry fails. */
  lemma SummaryFailures(entries: seq<Dict>, approvals: seq<ApprovalRecord>, currentMonth: string)
    requires entries != []
    ensures "recorded_at" !in entries[0] ==> SummaryOf(entries, approvals, currentMonth) == Err(KeyError("recorded_at"))
    ensures "recorded_at" in entries[0] ==>
              (SummaryOf(entries, approvals, currentMonth).Ok? <==>
               MonthOf(entries[0]["recorded_at"]).Ok? && forall i :: 0 <= i < |entries| ==> RowOf(entries[i]).Ok?)
  {
    RowsOfOk(entries);
  }

  /** The headline numbers: the number of entries, the rounded total of
      their amounts, the approval rate, and the month of the first entry. */
  lemma SummaryHeadline(entries: seq<Dict>, approvals: seq<ApprovalRecord>, currentMonth: string)
    requires SummaryOf(entries, approvals, currentMonth).Ok? && entries != []
    ensures RowsOf(entries).Ok? && FirstMonth(entries[0]).Ok?
    ensures var r := SummaryOf(entries, approvals, currentMonth).value;
            r.journalCount == |entries| && r.totalSpend == RoundHalfEven(Sum(CategoryPairs(RowsOf(entries).value)), 2) &&
            r.approvalRate == ApprovalRate(approvals) && r.month == FirstMonth(entries[0]).value
  {
    var rows := RowsOf(entries).value;
    var t := TotalsOf(rows);
    assert SummaryOf(entries, approvals, currentMonth).value == ReportOf(FirstMonth(entries[0]).value, t, |entries|, ApprovalRate(approvals));
  }

  /** The breakdown: one item per category, largest first, each with its
      rounded total; the ratios follow the breakdown's order. */
  lemma BreakdownRanked(t: Totals, month: string, count: nat, rate: real)
    requires Distinct(Keys(t.categories))
    ensures var b := ReportOf(month, t, count, rate).breakdown;
            Distinct(Keys(b)) &&
            (forall k :: k in Keys(b) <==> k in Keys(t.categories)) &&
            (forall i :: 0 <= i < |b| ==> b[i].1 == RoundHalfEven(Lookup(t.categories, b[i].0), 2)) &&
            (forall i, j :: 0 <= i <= j < |b| ==> b[i].1 >= b[j].1) &&
            Keys(ReportOf(month, t, count, rate).categoryRatios) == Keys(b)
  {
    var ranked := Ranking(t.categories);
    SortKeys(t.categories, LargerFirst<Value>);
    LargerFirstOrder<Value>();
    SortSorted(t.categories, LargerFirst<Value>);
    var b := Rounded(ranked, 2);
    assert Keys(b) == Keys(ranked);
    forall i | 0 <= i < |b|
      ensures b[i].1 == RoundHalfEven(Lookup(t.categories, b[i].0), 2)
    {
      SortedEntry(t.categories, LargerFirst<Value>, i);
    }
    forall i, j | 0 <= i <= j < |b|
      ensures b[i].1 >= b[j].1
    {
      SortedPairwise(ranked, LargerFirst<Value>, i, j);
      RoundHalfEvenMonotone(ranked[j].1, ranked[i].1, 2);
    }
  }

  /** With no negative amount and a positive total, each ratio is a share
      between 0 and 1; with a zero total every ratio is 0. */
  lemma RatiosShares(t: Totals, month: string, count: nat, rate: real)
    requires Distinct(Keys(t.categories)) && Sum(t.categories) == t.total
    requires forall i :: 0 <= i < |t.categories| ==> t.categories[i].1 >= 0.0
    ensures var q := ReportOf(month, t, count, rate).categoryRatios;
            forall i :: 0 <= i < |q| ==> 0.0 <= q[i].1 <= 1.0 && (t.total == 0.0 ==> q[i].1 == 0.0)
  {
    var ranked := Ranking(t.categories);
    var q := Ratios(ranked, t.total);
    forall i | 0 <= i < |q|
      ensures 0.0 <= q[i].1 <= 1.0 && (t.total == 0.0 ==> q[i].1 == 0.0)
    {
      if t.total != 0.0 {
        SortedEntry(t.categories, LargerFirst<Value>, i);
        LookupBounds(t.categories, ranked[i].0);
        RatioShare(ranked[i].1, t.total);
      }
    }
  }

  lemma RatioShare(v: real, total: real)
    requires 0.0 <= v <= total && total != 0.0
    ensures 0.0 <= RoundHalfEven(v / total, 4) <= 1.0
  {
    assert 0.0 <= v / total <= 1.0;
    UnitRound(v / total, 4);
  }

  /** The monthly totals: one item per month, in ascending month order. */
  lemma MonthlyAscending(t: Totals, month: string, count: nat, rate: real)
    requires Distinct(Keys(t.months))
    ensures var m := ReportOf(month, t, count, rate).monthlyTotals;
            (forall k :: k in Keys(m) <==> k in Keys(t.months)) &&
            (forall i, j :: 0 <= i < j < |m| ==> StrLe(m[i].0, m[j].0) && m[i].0 != m[j].0) &&
            (forall i :: 0 <= i < |m| ==> m[i].1 == RoundHalfEven(Lookup(t.months, m[i].0), 2))
  {
    var sorted := Sort(t.months, EarlierMonth);
    SortKeys(t.months, EarlierMonth);
    EarlierMonthOrder();
    SortSorted(t.months, EarlierMonth);
    var m := Rounded(sorted, 2);
    assert Keys(m) == Keys(sorted);
    forall i, j | 0 <= i < j < |m|
      ensures StrLe(m[i].0, m[j].0) && m[i].0 != m[j].0
    {
      SortedPairwise(sorted, EarlierMonth, i, j);
      assert Keys(sorted)[i] != Keys(sorted)[j];
    }
    forall i | 0 <= i < |m|
      ensures m[i].1 == RoundHalfEven(Lookup(t.months, m[i].0), 2)
    {
      SortedEntry(t.months, EarlierMonth, i);
    }
  }

  /** The top accounts: at most five, each once, largest first, and no
      account left out spent more than one listed. */
  lemma TopAccountsLargest(t: Totals, month: string, count: nat, rate: real)
    requires Distinct(Keys(t.accounts))
    ensures var top := ReportOf(month, t, count, rate).topAccounts;
            |top| == (if |t.accounts| <= 5 then |t.accounts| else 5) &&
            Distinct(Keys(top)) &&
            (forall k :: k in Keys(top) ==> k in Keys(t.accounts)) &&
            (forall i, j :: 0 <= i <= j < |top| ==> top[i].1 >= top[j].1) &&
            (forall i, k :: 0 <= i < |t.accounts| && t.accounts[i].0 !in Keys(top) && 0 <= k < |top| ==>
               RoundHalfEven(t.accounts[i].1, 2) <= top[k].1)
  {
    var ranked := Ranking(t.accounts);
    SortKeys(t.accounts, LargerFirst<Value>);
    LargerFirstOrder<Value>();
    SortSorted(t.accounts, LargerFirst<Value>);
    TopOfRanking(ranked);
    var top := Rounded(Top(ranked), 2);
    assert ReportOf(month, t, count, rate).topAccounts == top;
    forall i, k | 0 <= i < |t.accounts| && t.accounts[i].0 !in Keys(top) && 0 <= k < |top|
      ensures RoundHalfEven(t.accounts[i].1, 2) <= top[k].1
    {
      var j := RankOf(t.accounts, i);
      assert ranked[j] == t.accounts[i];
      assert Keys(ranked)[j] !in Keys(top);
    }
  }

  /** The first five of a ranking, rounded: each key once, largest first,
      and no later item rounds above a listed one. */
  lemma TopOfRanking(ranked: Bucket<Value>)
    requires Sorted(ranked, LargerFirst<Value>) && Distinct(Keys(ranked))
    ensures var top := Rounded(Top(ranked), 2);
            Distinct(Keys(top)) &&
            (forall i :: 0 <= i < |top| ==> Keys(top)[i] == Keys(ranked)[i]) &&
            (forall i, j :: 0 <= i <= j < |top| ==> top[i].1 >= top[j].1) &&
            (forall j, k :: 0 <= k < |top| && 0 <= j < |ranked| && Keys(ranked)[j] !in Keys(top) ==>
               RoundHalfEven(ranked[j].1, 2) <= top[k].1)
  {
    LargerFirstOrder<Value>();
    var n := if |ranked| <= 5 then |ranked| else 5;
    var top := Rounded(Top(ranked), 2);
    assert Top(ranked) == ranked[..n];
    assert forall i :: 0 <= i < n ==> Keys(top)[i] == Keys(ranked)[i];
    forall i, j | 0 <= i <= j < |top|
      ensures top[i].1 >= top[j].1
    {
      SortedPairwise(ranked, LargerFirst<Value>, i, j);
      RoundHalfEvenMonotone(ranked[j].1, ranked[i].1, 2);
    }
    forall j, k | 0 <= k < |top| && 0 <= j < |ranked| && Keys(ranked)[j] !in Keys(top)
      ensures RoundHalfEven(ranked[j].1, 2) <= top[k].1
    {
      assert j >= n;
      SortedPairwise(ranked, LargerFirst<Value>, k, j);
      RoundHalfEvenMonotone(ranked[j].1, ranked[k].1, 2);
    }
  }

  /** Where an account's item sits in the ranking. */
  lemma RankOf(b: Bucket<Value>, i: nat) returns (j: nat)
    requires Distinct(Keys(b)) && i < |b|
    ensures j < |Ranking(b)| && Ranking(b)[j] == b[i]
  {
    assert b[i] in multiset(b);
    assert b[i] in multiset(Ranking(b));
    j :| 0 <= j < |Ranking(b)| && Ranking(b)[j] == b[i];
  }

  // ---- the loop ----

  /** The loop of `compute_summary()`: the entries in order, each added to
      the total and to its category, account and month; an entry that
      fails stops the loop with its error. */
  method Accumulate(entries: seq<Dict>) returns (r: Result<Totals>)
    ensures RowsOf(entries).Ok? ==> r == Ok(TotalsOf(RowsOf(entries).value))
    ensures RowsOf(entries).Err? ==> r == Err(RowsOf(entries).error)
  {
    var acc := Totals(0.0, [], [], []);
    ghost var rows: seq<Row> := [];
    assert TotalsOf([]) == acc;
    var i := 0;
    while i < |entries|
      invariant 0 <= i <= |entries|
      invariant RowsOf(entries[..i]) == Ok(rows)
      invariant acc == TotalsOf(rows)
    {
      var row := RowOf(entries[i]);
      if row.Err? {
        FirstFailure(entries, i, rows);
        return Err(row.error);
      }
      RowsOfAppend(entries, i, rows);
      StepTotals(rows, row.value);
      acc := Step(acc, row.value);
      rows := rows + [row.value];
      i := i + 1;
    }
    assert entries[..i] == entries;
    r := Ok(acc);
  }

  /** An entry failing after a run of good ones is the error of all. */
  lemma FirstFailure(es: seq<Dict>, i: nat, rows: seq<Row>)
    requires i < |es| && RowsOf(es[..i]) == Ok(rows) && RowOf(es[i]).Err?
    ensures RowsOf(es) == Err(RowOf(es[i]).error)
  {
    var rs := RowResults(es);
    MapSeqPrefix(es, RowOf, i);
    CollectPrefixOk(rs, i);
    CollectFirstError(rs, i);
  }

  /** `compute_summary()` with the journal, the approval records and the
      clock given: the month of the first entry, the loop, and the report
      built from the totals. */
  method ComputeSummary(entries: seq<Dict>, approvals: seq<ApprovalRecord>, now: DateTime) returns (r: Result<Report>)
    requires Valid(now)
    ensures r == SummaryOf(entries, approvals, MonthText(now))
  {
    if entries == [] {
      return Ok(EmptyReport(MonthText(now)));
    }
    var month := FirstMonth(entries[0]);
    if month.Err? {
      return Err(month.error);
    }
    var totals := Accumulate(entries);
    if totals.Err? {
      return Err(totals.error);
    }
    r := Ok(ReportOf(month.value, totals.value, |entries|, ApprovalRate(approvals)));
  }
}
