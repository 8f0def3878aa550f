/** Posting to the journal (services/accounting/main.py,
    `post_journal_entry`): a classification either brings its own journal
    lines or gets up to three generated ones (net debit, tax debit, gross
    credit), and the entry is appended to the journal. */
module Accounting {
  import opened Wrappers
  import opened Numbers
  import opened Values
  import opened Timestamps

  /** The debit account of last resort. */
  const MiscExpenses := "雑費"
  /** The default credit account (accounts payable). */
  const AccountsPayable := "未払金"
  /** The default tax account (provisional consumption tax paid). */
  const ProvisionalTax := "仮払消費税等"
  /** The description of the tax line. */
  const ConsumptionTax := "消費税"

  datatype JournalLine = JournalLine(account: Value, debit: real, credit: real, description: Value)

  /** A journal line as the entry stores it. */
  function LineValue(l: JournalLine): Value {
    Obj(map["account" := l.account, "debit" := Float(l.debit), "credit" := Float(l.credit),
            "description" := l.description])
  }

  /** What the generated lines are made of, read from the classification. */
  datatype Posting = Posting(amount: real, net: real, tax: real, debitAccount: Value, creditAccount: Value,
                             taxAccount: Value, description: Value)

  /** The amounts by `float()` of the first truthy candidate, and the
      accounts by the first truthy candidate, each with its fallback. */
  function PostingOf(c: Dict): (r: Result<Posting>)
    ensures r.Ok? ==> r.value.debitAccount == Or(Get(c, "debit_account"), Or(Get(c, "account"), Str(MiscExpenses)))
    ensures r.Ok? ==> r.value.creditAccount == Or(Get(c, "credit_account"), Str(AccountsPayable))
    ensures r.Ok? ==> r.value.taxAccount == Or(Get(c, "tax_account"), Str(ProvisionalTax))
    ensures r.Ok? ==> ToFloat(Or(Get(c, "amount"), Or(Get(c, "amount_gross"), Float(0.0)))) == Ok(r.value.amount)
    ensures r.Ok? && !Truthy(Get(c, "net_amount")) && !Truthy(Get(c, "amount_net")) ==> r.value.net == r.value.amount
  {
    var amount :- ToFloat(Or(Get(c, "amount"), Or(Get(c, "amount_gross"), Float(0.0))));
    var net :- ToFloat(Or(Get(c, "net_amount"), Or(Get(c, "amount_net"), Float(amount))));
    var tax :- ToFloat(Or(Get(c, "tax"), Float(0.0)));
    Ok(Posting(amount, net, tax,
               Or(Get(c, "debit_account"), Or(Get(c, "account"), Str(MiscExpenses))),
               Or(Get(c, "credit_account"), Str(AccountsPayable)),
               Or(Get(c, "tax_account"), Str(ProvisionalTax)),
               Get(c, "description")))
  }

  function DebitLine(p: Posting): JournalLine {
    JournalLine(p.debitAccount, RoundHalfEven(p.net, 2), 0.0, p.description)
  }

  function TaxLine(p: Posting): JournalLine {
    JournalLine(p.taxAccount, RoundHalfEven(p.tax, 2), 0.0, Str(ConsumptionTax))
  }

  function CreditLine(p: Posting): JournalLine {
    JournalLine(p.creditAccount, 0.0, RoundHalfEven(p.amount, 2), p.description)
  }

  /** The generated lines: each of the three only for a nonzero amount. */
  function GeneratedLines(p: Posting): seq<JournalLine> {
    (if p.net != 0.0 then [DebitLine(p)] else []) +
    (if p.tax != 0.0 then [TaxLine(p)] else []) +
    (if p.amount != 0.0 then [CreditLine(p)] else [])
  }

  function Debits(lines: seq<JournalLine>): real {
    if lines == [] then 0.0 else Debits(lines[..|lines| - 1]) + lines[|lines| - 1].debit
  }

  function Credits(lines: seq<JournalLine>): real {
    if lines == [] then 0.0 else Credits(lines[..|lines| - 1]) + lines[|lines| - 1].credit
  }

  lemma {:induction false} TotalsAppend(a: seq<JournalLine>, b: seq<JournalLine>)
    ensures Debits(a + b) == Debits(a) + Debits(b) && Credits(a + b) == Credits(a) + Credits(b)
    decreases |b|
  {
    if b == [] {
      assert a + b == a;
    } else {
      assert (a + b)[..|a + b| - 1] == a + b[..|b| - 1];
      TotalsAppend(a, b[..|b| - 1]);
    }
  }

  lemma OneLine(l: JournalLine)
    ensures Debits([l]) == l.debit && Credits([l]) == l.credit
  {
    assert [l][..0] == [];
  }

  /** The generated debits are the rounded net plus the rounded tax, and
      the generated credit is the rounded gross amount. */
  lemma GeneratedTotals(p: Posting)
    ensures Debits(GeneratedLines(p)) == RoundHalfEven(p.net, 2) + RoundHalfEven(p.tax, 2)
    ensures Credits(GeneratedLines(p)) == RoundHalfEven(p.amount, 2)
  {
    var a := if p.net != 0.0 then [DebitLine(p)] else [];
    var b := if p.tax != 0.0 then [TaxLine(p)] else [];
    var c := if p.amount != 0.0 then [CreditLine(p)] else [];
    TotalsAppend(a + b, c);
    TotalsAppend(a, b);
    OneLine(DebitLine(p));
    OneLine(TaxLine(p));
    OneLine(CreditLine(p));
    RoundZero();
  }

  lemma RoundZero()
    ensures RoundHalfEven(0.0, 2) == 0.0
  {
    assert HasDigits(0.0, 2);
    RoundHalfEvenExact(0.0, 2);
  }

  /** Amounts in whole cents whose net and tax add up to the gross
      amount give a balanced entry: debits equal credits. */
  lemma GeneratedBalanced(p: Posting)
    requires HasDigits(p.net, 2) && HasDigits(p.tax, 2) && HasDigits(p.amount, 2)
    requires p.net + p.tax == p.amount
    ensures Debits(GeneratedLines(p)) == Credits(GeneratedLines(p))
  {
    GeneratedTotals(p);
    RoundHalfEvenExact(p.net, 2);
    RoundHalfEvenExact(p.tax, 2);
    RoundHalfEvenExact(p.amount, 2);
  }

  /** The shape of the generated lines: the net debit on the debit
      account, the tax debit on the tax account, the credit on the credit
      account, in that order, one for each nonzero amount. */
  lemma GeneratedShape(p: Posting)
    ensures var lines := GeneratedLines(p);
            |lines| == (if p.net != 0.0 then 1 else 0) + (if p.tax != 0.0 then 1 else 0) + (if p.amount != 0.0 then 1 else 0) &&
            (p.net != 0.0 ==> lines[0] == DebitLine(p)) &&
            (p.amount != 0.0 ==> lines[|lines| - 1] == CreditLine(p)) &&
            (p.tax != 0.0 ==> TaxLine(p) in lines) &&
            forall i :: 0 <= i < |lines| ==> lines[i].debit == 0.0 || lines[i].credit == 0.0
  {
  }

  /** The lines stored with the entry: the classification's own when it
      has a truthy `journal_lines`, otherwise the generated ones. */
  function JournalLinesOf(c: Dict): (r: Result<Value>)
    ensures Truthy(Get(c, "journal_lines")) ==> r == Ok(Get(c, "journal_lines"))
  {
    var given := Get(c, "journal_lines");
    if Truthy(given) then Ok(given)
    else
      var p :- PostingOf(c);
      Ok(List(LineValues(GeneratedLines(p))))
  }

  function LineValues(lines: seq<JournalLine>): (r: seq<Value>)
    ensures |r| == |lines| && forall i :: 0 <= i < |lines| ==> r[i] == LineValue(lines[i])
  {
    seq(|lines|, i requires 0 <= i < |lines| => LineValue(lines[i]))
  }

  /** The entry dictionary; indexing a missing required key of the
      classification raises `KeyError`, in the order the keys are written.
      Building the entry fails exactly when one of the seven required keys
      is missing, and then with a `KeyError` for a missing key. */
  function EntryFor(ocrFields: Dict, c: Dict, documentType: string, jobId: string, recordedAt: string,
                    lines: Value): (r: Result<Dict>)
    ensures r.Ok? <==> Complete(c)
    ensures r.Err? ==> r.error.KeyError? && r.error.key !in c
  {
    var vendor :- Item(c, "vendor");
    var account :- Item(c, "account");
    var category :- Item(c, "category");
    var memo :- Item(c, "memo");
    var gross :- Item(c, "amount_gross");
    var net :- Item(c, "amount_net");
    var tax :- Item(c, "tax");
    Ok(map[
      "job_id" := Str(jobId),
      "vendor" := vendor,
      "account" := account,
      "category" := category,
      "description" := Or(Get(c, "description"), Get(c, "memo")),
      "memo" := memo,
      "amount" := Or(Get(c, "amount"), Get(c, "amount_gross")),
      "amount_gross" := gross,
      "amount_net" := net,
      "tax" := tax,
      "debit_account" := Get(c, "debit_account"),
      "credit_account" := Get(c, "credit_account"),
      "tax_account" := Get(c, "tax_account"),
      "journal_lines" := lines,
      "currency" := Str("JPY"),
      "document_type" := Str(documentType),
      "ocr_fields" := Obj(ocrFields),
      "recorded_at" := Str(recordedAt)])
  }

  /** The required keys of a classification. */
  predicate Complete(c: Dict) {
    "vendor" in c && "account" in c && "category" in c && "memo" in c &&
    "amount_gross" in c && "amount_net" in c && "tax" in c
  }

  /** The stored entry: in JPY, with the given lines, stamp and job. */
  lemma EntryForFields(ocrFields: Dict, c: Dict, documentType: string, jobId: string, recordedAt: string, lines: Value)
    requires Complete(c)
    ensures var e := EntryFor(ocrFields, c, documentType, jobId, recordedAt, lines).value;
            e["currency"] == Str("JPY") && e["journal_lines"] == lines && e["recorded_at"] == Str(recordedAt) &&
            e["job_id"] == Str(jobId)
  {
  }

  /** The stored entry carries the classification's amounts over. */
  lemma EntryForAmounts(ocrFields: Dict, c: Dict, documentType: string, jobId: string, recordedAt: string, lines: Value)
    requires Complete(c)
    ensures var e := EntryFor(ocrFields, c, documentType, jobId, recordedAt, lines).value;
            e["amount_gross"] == c["amount_gross"] && e["amount"] == Or(Get(c, "amount"), c["amount_gross"])
  {
  }

  /** The stored entry carries the classification's category and debit
      account over. */
  lemma EntryForLabels(ocrFields: Dict, c: Dict, documentType: string, jobId: string, recordedAt: string, lines: Value)
    requires Complete(c)
    ensures var e := EntryFor(ocrFields, c, documentType, jobId, recordedAt, lines).value;
            e["category"] == c["category"] && e["debit_account"] == Get(c, "debit_account")
  {
  }

  /** `post_journal_entry(...)` as a value: the lines, then the entry,
      stamped with `recordedAt`. */
  function PostedEntry(ocrFields: Dict, c: Dict, documentType: string, jobId: string, recordedAt: string): Result<Dict> {
    var lines :- JournalLinesOf(c);
    EntryFor(ocrFields, c, documentType, jobId, recordedAt, lines)
  }

  /** The lines `post_journal_entry` generates when none are given, appended
      one by one: debit, tax, credit, each only when its amount is not zero. */
  method BuildLines(p: Posting) returns (built: seq<JournalLine>)
    ensures built == GeneratedLines(p)
  {
    built := [];
    if p.net != 0.0 {
      built := built + [DebitLine(p)];
    }
    ghost var debit := built;
    if p.tax != 0.0 {
      built := built + [TaxLine(p)];
    }
    assert built == debit + (if p.tax != 0.0 then [TaxLine(p)] else []);
    ghost var taxed := built;
    if p.amount != 0.0 {
      built := built + [CreditLine(p)];
    }
    assert built == taxed + (if p.amount != 0.0 then [CreditLine(p)] else []);
  }

  /** The journal file: the entries in the order they were posted. */
  class Journal {
    var entries: seq<Dict>

    constructor(entries: seq<Dict>)
      ensures this.entries == entries
    {
      this.entries := entries;
    }

    /** `post_journal_entry` at `now`: builds the lines, appends the entry
        after the existing ones and returns it; an error leaves the journal
        as it was. */
    method PostJournalEntry(ocrFields: Dict, classification: Dict, documentType: string, jobId: string,
                            now: DateTime) returns (r: Result<Dict>)
      requires Valid(now)
      modifies this
      ensures r == PostedEntry(ocrFields, classification, documentType, jobId, FormatSecondsZ(now))
      ensures r.Ok? ==> entries == old(entries) + [r.value]
      ensures r.Err? ==> entries == old(entries)
    {
      var recordedAt := DateTimeText(now) + "Z";
      var lines := Get(classification, "journal_lines");
      if !Truthy(lines) {
        var p :- PostingOf(classification);
        var built := BuildLines(p);
        lines := List(LineValues(built));
      }
      var entry :- EntryFor(ocrFields, classification, documentType, jobId, recordedAt, lines);
      entries := entries + [entry];
      r := Ok(entry);
    }
  }
}
