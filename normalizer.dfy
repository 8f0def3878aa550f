/** Ledger-row normalisation (src/extractor/normalizer.py): canonical keys,
    trimmed text, a float amount, and de-duplication by account in which the
    last record wins but the first position is kept. */
module Normalizer {
  import opened Wrappers
  import opened Text
  import opened Values

  datatype NormalizedRow = NormalizedRow(account: string, amount: real, currency: string)

  /** `str(record.get("currency", "USD")).strip().upper() or "USD"`. */
  function Currency(record: Dict): (c: string)
    ensures c != []
  {
    var t := Upper(Strip(PyStr(GetOr(record, "currency", Str("USD")))));
    if t == [] then "USD" else t
  }

  /** `float(raw_amount)`, any failure reported as `ValueError`. */
  function Amount(raw: Value): (r: Result<real>)
    ensures r.Ok? <==> ToFloat(raw).Ok?
    ensures r.Err? ==> r.error == ValueError("amount is not numeric")
  {
    match ToFloat(raw)
    case Ok(x) => Ok(x)
    case Err(_) => Err(ValueError("amount is not numeric"))
  }

  /** `normalize_record` exactly as written: the account is
      `str(record.get("account") or record.get("acct")).strip()`, and the
      amount is `record.get("amount") or record.get("amt")`. */
  function NormalizeRecordAsWritten(record: Dict): (r: Result<NormalizedRow>)
    ensures "account" !in record && "acct" !in record ==> r == Err(KeyError("record missing account/acct field"))
  {
    if "account" !in record && "acct" !in record then Err(KeyError("record missing account/acct field"))
    else
      var account := Strip(PyStr(Or(Get(record, "account"), Get(record, "acct"))));
      if account == [] then Err(ValueError("account identifier is empty"))
      else
        var raw := Or(Get(record, "amount"), Get(record, "amt"));
        if raw.Null? then Err(KeyError("record missing amount/amt field"))
        else
          match Amount(raw)
          case Err(e) => Err(e)
          case Ok(x) => Ok(NormalizedRow(account, x, Currency(record)))
  }

  /** A falsy `account` (an empty string, say) with no `acct` becomes the
      account text `"None"`: `str(None)` slips past the emptiness check. */
  lemma EmptyAccountBecomesNone(record: Dict)
    requires "account" in record && !Truthy(record["account"]) && "acct" !in record
    requires "amount" in record && IsNumber(record["amount"]) && Truthy(record["amount"])
    ensures NormalizeRecordAsWritten(record) == Ok(NormalizedRow("None", NumberValue(record["amount"]), Currency(record)))
    ensures Batch([record], NormalizeRecordAsWritten) == Ok([NormalizedRow("None", NumberValue(record["amount"]), Currency(record))])
  {
    assert PyStr(Null) == "None";
    StripNoop("None");
    BatchOfOne(record, NormalizeRecordAsWritten);
  }

  /** Without a `currency` key the currency is `"USD"`. */
  lemma CurrencyDefault(record: Dict)
    requires "currency" !in record
    ensures Currency(record) == "USD"
  {
    assert GetOr(record, "currency", Str("USD")) == Str("USD");
    assert PyStr(Str("USD")) == "USD";
    StripNoop("USD");
    UpperUsd();
  }

  lemma UpperUsd()
    ensures Upper("USD") == "USD"
  {
    var u := Upper("USD");
    assert u[0] == 'U' && u[1] == 'S' && u[2] == 'D';
  }

  /** A zero amount with no `amt` is reported as a missing amount. */
  lemma ZeroAmountIsMissing(record: Dict)
    requires "account" in record && record["account"].Str? && Strip(record["account"].s) != []
    requires "amount" in record && record["amount"] == Int(0) && "amt" !in record
    ensures NormalizeRecordAsWritten(record) == Err(KeyError("record missing amount/amt field"))
    ensures Batch([record], NormalizeRecordAsWritten) == Err(KeyError("record missing amount/amt field"))
  {
    var v := record["account"];
    assert Truthy(v);
    assert Or(Get(record, "account"), Get(record, "acct")) == v;
    assert PyStr(v) == v.s;
    assert Or(Get(record, "amount"), Get(record, "amt")) == Null;
    BatchOfOne(record, NormalizeRecordAsWritten);
  }

  /** The account value the record supplies: `account` when truthy, else `acct`. */
  function AccountValue(record: Dict): Value {
    Or(Get(record, "account"), Get(record, "acct"))
  }

  /** The amount value the record supplies: `amount` unless absent or `None`, else `amt`. */
  function AmountValue(record: Dict): Value {
    if Get(record, "amount").Null? then Get(record, "amt") else Get(record, "amount")
  }

  /** `normalize_record` as its checks intend: a missing or empty account is
      a `ValueError` (never the text `"None"`), and only a missing amount
      (absent or `None`) is a `KeyError`, so a zero amount is kept. */
  function NormalizeRecord(record: Dict): (r: Result<NormalizedRow>)
    ensures "account" !in record && "acct" !in record ==> r == Err(KeyError("record missing account/acct field"))
    ensures r.Ok? ==> r.value.account != [] && !AccountValue(record).Null? && !AmountValue(record).Null?
  {
    if "account" !in record && "acct" !in record then Err(KeyError("record missing account/acct field"))
    else
      var value := AccountValue(record);
      var account := if value.Null? then "" else Strip(PyStr(value));
      if account == [] then Err(ValueError("account identifier is empty"))
      else
        var raw := AmountValue(record);
        if raw.Null? then Err(KeyError("record missing amount/amt field"))
        else
          match Amount(raw)
          case Err(e) => Err(e)
          case Ok(x) => Ok(NormalizedRow(account, x, Currency(record)))
  }

  /** What a successful normalisation holds: the stripped account text,
      the `float()` of the amount, and the currency. */
  lemma NormalizeRecordFields(record: Dict)
    requires NormalizeRecord(record).Ok?
    ensures var row := NormalizeRecord(record).value;
            row.account == Strip(PyStr(AccountValue(record))) &&
            ToFloat(AmountValue(record)) == Ok(row.amount) &&
            row.currency == Currency(record)
  {
  }

  /** An account that strips to nothing (or is missing in both keys) is a `ValueError`. */
  lemma NormalizeRecordEmptyAccount(record: Dict)
    requires "account" in record || "acct" in record
    requires AccountValue(record).Null? || Strip(PyStr(AccountValue(record))) == []
    ensures NormalizeRecord(record) == Err(ValueError("account identifier is empty"))
    ensures Batch([record], NormalizeRecord) == Err(ValueError("account identifier is empty"))
  {
    BatchOfOne(record, NormalizeRecord);
  }

  /** With a usable account, a missing amount (absent or `None` under both
      keys) is a `KeyError`, and an unparsable one a `ValueError`. */
  lemma NormalizeRecordAmountErrors(record: Dict)
    requires !AccountValue(record).Null? && Strip(PyStr(AccountValue(record))) != []
    ensures AmountValue(record).Null? ==> NormalizeRecord(record) == Err(KeyError("record missing amount/amt field"))
    ensures !AmountValue(record).Null? && ToFloat(AmountValue(record)).Err? ==>
            NormalizeRecord(record) == Err(ValueError("amount is not numeric"))
  {
    assert "account" in record || "acct" in record;
    var raw := AmountValue(record);
    if !raw.Null? && ToFloat(raw).Err? {
      assert Amount(raw) == Err(ValueError("amount is not numeric"));
    }
  }

  /** A zero amount is a row with amount `0.0`, not a missing amount. */
  lemma ZeroAmountKept(record: Dict)
    requires "account" in record && record["account"].Str? && Strip(record["account"].s) != []
    requires "amount" in record && record["amount"] == Int(0)
    ensures NormalizeRecord(record) == Ok(NormalizedRow(Strip(record["account"].s), 0.0, Currency(record)))
    ensures Batch([record], NormalizeRecord) == Ok([NormalizedRow(Strip(record["account"].s), 0.0, Currency(record))])
  {
    var v := record["account"];
    assert |Strip(v.s)| <= |v.s|;
    assert AccountValue(record) == v;
    assert AmountValue(record) == Int(0);
    assert Amount(Int(0)) == Ok(0.0);
    BatchOfOne(record, NormalizeRecord);
  }

  /** `normalize_record({"account": "ZZZ"})` raises `KeyError`. */
  lemma MissingAmountExample()
    ensures NormalizeRecord(map["account" := Str("ZZZ")]) == Err(KeyError("record missing amount/amt field"))
  {
    var record := map["account" := Str("ZZZ")];
    assert "amount" !in record && "amt" !in record;
    assert Get(record, "amount") == Null && Get(record, "amt") == Null;
    assert AccountValue(record) == Str("ZZZ");
    StripNoop("ZZZ");
    assert AmountValue(record) == Null;
    NormalizeRecordAmountErrors(record);
  }

  // ---- batch_normalize ----

  function Accounts(rows: seq<NormalizedRow>): (r: seq<string>)
    ensures |r| == |rows| && forall i :: 0 <= i < |rows| ==> r[i] == rows[i].account
  {
    if rows == [] then [] else [rows[0].account] + Accounts(rows[1..])
  }

  /** Index of the row with account `a`, if any. */
  function Find(rows: seq<NormalizedRow>, a: string): (r: Option<nat>)
    ensures r.Some? ==> r.value < |rows| && rows[r.value].account == a
    ensures r.None? ==> a !in Accounts(rows)
  {
    if rows == [] then None
    else if rows[0].account == a then Some(0)
    else match Find(rows[1..], a)
      case Some(i) => Some(i + 1)
      case None => None
  }

  /** `seen[row.account] = row` on an insertion-ordered dict. */
  function Put(rows: seq<NormalizedRow>, row: NormalizedRow): (r: seq<NormalizedRow>)
  {
    match Find(rows, row.account)
    case Some(i) => rows[i := row]
    case None => rows + [row]
  }

  /** The accounts in order of first appearance. */
  function FirstSeen(s: seq<string>): seq<string>
  {
    if s == [] then []
    else
      var d := FirstSeen(s[..|s| - 1]);
      if s[|s| - 1] in d then d else d + [s[|s| - 1]]
  }

  /** Each record's normalisation by `normalize`, in input order. The
      batch is stated for any record normaliser, so that it can be taken
      both with `normalize_record` as written and with the corrected one. */
  function NormalizeAll(records: seq<Dict>, normalize: Dict -> Result<NormalizedRow>): (rs: seq<Result<NormalizedRow>>)
    ensures |rs| == |records| && forall j :: 0 <= j < |records| ==> rs[j] == normalize(records[j])
  {
    seq(|records|, j requires 0 <= j < |records| => normalize(records[j]))
  }

  /** Folding the per-record results as `batch_normalize` does: the first
      error ends the batch, and each row overwrites `seen[row.account]`. */
  function Collect(rs: seq<Result<NormalizedRow>>): Result<seq<NormalizedRow>>
  {
    if rs == [] then Ok([])
    else
      match Collect(rs[..|rs| - 1])
      case Err(e) => Err(e)
      case Ok(rows) =>
        match rs[|rs| - 1]
        case Err(e) => Err(e)
        case Ok(row) => Ok(Put(rows, row))
  }

  /** The result of `batch_normalize(records)` with `normalize` as its
      record normaliser: `Batch(records, NormalizeRecordAsWritten)` is the
      code as written, `Batch(records, NormalizeRecord)` the corrected one. */
  function Batch(records: seq<Dict>, normalize: Dict -> Result<NormalizedRow>): Result<seq<NormalizedRow>>
  {
    Collect(NormalizeAll(records, normalize))
  }

  /** `batch_normalize`: the loop over the records that overwrites `seen`. */
  method BatchNormalize(records: seq<Dict>, normalize: Dict -> Result<NormalizedRow>) returns (r: Result<seq<NormalizedRow>>)
    ensures r == Batch(records, normalize)
  {
    ghost var rs := NormalizeAll(records, normalize);
    var seen: seq<NormalizedRow> := [];
    var i := 0;
    while i < |records|
      invariant 0 <= i <= |records|
      invariant Collect(rs[..i]) == Ok(seen)
    {
      assert rs[..i + 1][..i] == rs[..i];
      var normalized := normalize(records[i]);
      if normalized.Err? {
        assert Collect(rs[..i + 1]).Err?;
        CollectErrPrefix(rs, i + 1);
        return Err(normalized.error);
      }
      seen := Put(seen, normalized.value);
      i := i + 1;
    }
    assert rs[..i] == rs;
    return Ok(seen);
  }

  /** Once a prefix fails, the whole fold fails with the same error. */
  lemma {:induction false} CollectErrPrefix(rs: seq<Result<NormalizedRow>>, n: nat)
    requires n <= |rs| && Collect(rs[..n]).Err?
    ensures Collect(rs) == Collect(rs[..n])
    decreases |rs| - n
  {
    if n < |rs| {
      assert rs[..n + 1][..n] == rs[..n];
      CollectErrPrefix(rs, n + 1);
    } else {
      assert rs[..n] == rs;
    }
  }

  /** The fold fails exactly when some result is an error. */
  lemma {:induction false} CollectFails(rs: seq<Result<NormalizedRow>>)
    ensures Collect(rs).Err? <==> exists j :: 0 <= j < |rs| && rs[j].Err?
  {
    if rs != [] {
      var init := rs[..|rs| - 1];
      CollectFails(init);
      if Collect(init).Err? {
        var j :| 0 <= j < |init| && init[j].Err?;
        assert rs[j] == init[j];
      } else {
        assert forall j :: 0 <= j < |init| ==> rs[j] == init[j];
      }
    }
  }

  /** `batch_normalize` fails exactly when some record fails to normalise,
      for the code as written and for the corrected normaliser alike. */
  lemma BatchFails(records: seq<Dict>, normalize: Dict -> Result<NormalizedRow>)
    ensures Batch(records, normalize).Err? <==> exists j :: 0 <= j < |records| && normalize(records[j]).Err?
  {
    var rs := NormalizeAll(records, normalize);
    CollectFails(rs);
    if Batch(records, normalize).Err? {
      var j :| 0 <= j < |rs| && rs[j].Err?;
      assert normalize(records[j]).Err?;
    }
  }

  /** A batch of one record is that record's row, or its error. */
  lemma BatchOfOne(record: Dict, normalize: Dict -> Result<NormalizedRow>)
    ensures Batch([record], normalize) == match normalize(record) case Ok(row) => Ok([row]) case Err(e) => Err(e)
  {
    var rs := NormalizeAll([record], normalize);
    assert rs[..|rs| - 1] == [];
    assert Collect(rs[..|rs| - 1]) == Ok([]);
    assert rs[|rs| - 1] == normalize(record);
    match normalize(record)
    case Ok(row) =>
      assert Put([], row) == [row];
    case Err(_) =>
  }

  lemma PutAccounts(rows: seq<NormalizedRow>, row: NormalizedRow)
    ensures Accounts(Put(rows, row)) ==
            if row.account in Accounts(rows) then Accounts(rows) else Accounts(rows) + [row.account]
  {
    match Find(rows, row.account)
    case Some(i) =>
      assert Accounts(rows[i := row]) == Accounts(rows);
    case None =>
      assert Accounts(rows + [row]) == Accounts(rows) + [row.account];
  }

  /** The accounts of results that are all rows. */
  function RowAccounts(rs: seq<Result<NormalizedRow>>): (r: seq<string>)
    requires forall j :: 0 <= j < |rs| ==> rs[j].Ok?
    ensures |r| == |rs|
    ensures forall j :: 0 <= j < |rs| ==> r[j] == rs[j].value.account
  {
    if rs == [] then []
    else RowAccounts(rs[..|rs| - 1]) + [rs[|rs| - 1].value.account]
  }

  /** The rows come in order of each account's first appearance. */
  lemma {:induction false} CollectOrder(rs: seq<Result<NormalizedRow>>)
    requires Collect(rs).Ok?
    ensures forall j :: 0 <= j < |rs| ==> rs[j].Ok?
    ensures Accounts(Collect(rs).value) == FirstSeen(RowAccounts(rs))
  {
    CollectFails(rs);
    if rs != [] {
      var init := rs[..|rs| - 1];
      assert Collect(init).Ok?;
      CollectOrder(init);
      PutAccounts(Collect(init).value, rs[|rs| - 1].value);
      var s := RowAccounts(rs);
      assert s[..|s| - 1] == RowAccounts(init);
    }
  }

  lemma {:induction false} FirstSeenDistinct(s: seq<string>)
    ensures forall i, j :: 0 <= i < j < |FirstSeen(s)| ==> FirstSeen(s)[i] != FirstSeen(s)[j]
    ensures forall a :: a in FirstSeen(s) <==> a in s
  {
    if s != [] {
      var init := s[..|s| - 1];
      FirstSeenDistinct(init);
      assert s == init + [s[|s| - 1]];
    }
  }

  /** At most one row per account, and exactly the accounts of the input. */
  lemma CollectAccounts(rs: seq<Result<NormalizedRow>>)
    requires Collect(rs).Ok?
    ensures var rows := Collect(rs).value;
            (forall i, j :: 0 <= i < j < |rows| ==> rows[i].account != rows[j].account) &&
            (forall a :: a in Accounts(rows) <==> exists j :: 0 <= j < |rs| && rs[j].Ok? && rs[j].value.account == a)
  {
    CollectOrder(rs);
    var s := RowAccounts(rs);
    FirstSeenDistinct(s);
    var rows := Collect(rs).value;
    forall a
      ensures a in Accounts(rows) <==> exists j :: 0 <= j < |rs| && rs[j].Ok? && rs[j].value.account == a
    {
      if a in s {
        var j :| 0 <= j < |s| && s[j] == a;
        assert rs[j].Ok? && rs[j].value.account == a;
      }
    }
  }

  lemma PutContains(rows: seq<NormalizedRow>, row: NormalizedRow, a: string)
    ensures row in Put(rows, row)
    ensures a != row.account ==> forall x :: x in rows && x.account == a ==> x in Put(rows, row)
  {
    match Find(rows, row.account)
    case Some(i) =>
      assert Put(rows, row)[i] == row;
      forall x | x in rows && x.account == a && a != row.account
        ensures x in Put(rows, row)
      {
        var k :| 0 <= k < |rows| && rows[k] == x;
        assert Put(rows, row)[k] == x;
      }
    case None =>
  }

  /** A row whose account no later record repeats is in the result:
      for each account the last record wins. */
  lemma {:induction false} CollectLastWins(rs: seq<Result<NormalizedRow>>, j: nat)
    requires Collect(rs).Ok? && j < |rs|
    requires forall k :: j < k < |rs| ==> rs[k].Ok? && rs[j].Ok? && rs[k].value.account != rs[j].value.account
    ensures rs[j].Ok? && rs[j].value in Collect(rs).value
  {
    CollectFails(rs);
    var init := rs[..|rs| - 1];
    assert Collect(init).Ok?;
    var row := rs[|rs| - 1].value;
    if j == |rs| - 1 {
      PutContains(Collect(init).value, row, row.account);
    } else {
      assert forall k :: j <= k < |init| ==> init[k] == rs[k];
      CollectLastWins(init, j);
      PutContains(Collect(init).value, row, rs[j].value.account);
    }
  }
}
