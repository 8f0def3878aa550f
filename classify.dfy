/** The accounting classifier (services/accounting/classify.py): an ordered
    keyword table picks the category of a document, a second table its
    account, and the gross, tax and net amounts come from the OCR fields or,
    failing those, from the `amount ...` phrase of the text. */
module Classify {
  import opened Wrappers
  import opened Text
  import opened Numbers
  import opened Values
  import opened Scan

  /** The category and account of last resort. */
  const Other := "その他経費"

  /** The vendor shown when none is known. */
  const UnknownVendor := "不明"

  /** `CATEGORY_KEYWORDS`, in its insertion order: the order in which the
      keywords are tried. */
  const CategoryKeywords: seq<(string, string)> := [
    ("交通", "交通費"),
    ("train", "交通費"),
    ("transport", "交通費"),
    ("traffic", "交通費"),
    ("taxi", "交通費"),
    ("travel", "旅費交通費"),
    ("hotel", "旅費交通費"),
    ("通信", "通信費"),
    ("network", "通信費"),
    ("phone", "通信費"),
    ("internet", "通信費"),
    ("software", "ソフトウェア"),
    ("subscription", "ソフトウェア"),
    ("office", "事務用品費"),
    ("stationery", "事務用品費"),
    ("consulting", "外注費")
  ]

  /** `ACCOUNT_BY_CATEGORY`. */
  const AccountByCategory: map<string, string> := map[
    "交通費" := "旅費交通費",
    "旅費交通費" := "旅費交通費",
    "通信費" := "通信費",
    "ソフトウェア" := "ソフトウェア使用料",
    "事務用品費" := "消耗品費",
    "外注費" := "外注費"
  ]

  /** The index of the first entry of `table`, from `k` on, whose keyword
      occurs in `text`. */
  function FirstKeyword(table: seq<(string, string)>, text: string, k: nat): (r: Option<nat>)
    decreases |table| - k
    ensures r.Some? ==> k <= r.value < |table| && Contains(text, table[r.value].0)
    ensures r.Some? ==> forall j :: k <= j < r.value ==> !Contains(text, table[j].0)
    ensures r.None? ==> forall j :: k <= j < |table| ==> !Contains(text, table[j].0)
  {
    if k >= |table| then None
    else if Contains(text, table[k].0) then Some(k)
    else FirstKeyword(table, text, k + 1)
  }

  /** `infer_category(text, explicit)`: a truthy explicit category is
      returned as it is, whatever its type. */
  function InferCategory(text: string, explicit: Value): (r: Value)
    ensures Truthy(explicit) ==> r == explicit
    ensures !Truthy(explicit) ==> r.Str?
  {
    if Truthy(explicit) then explicit
    else
      match FirstKeyword(CategoryKeywords, Lower(text), 0)
      case Some(k) => Str(CategoryKeywords[k].1)
      case None => Str(Other)
  }

  /** Without an explicit category, the first keyword in table order that
      occurs in the lower-cased text decides, and no keyword at all gives
      the category of last resort. */
  lemma InferCategoryByKeyword(text: string, explicit: Value, k: nat)
    requires !Truthy(explicit)
    ensures k < |CategoryKeywords| && Contains(Lower(text), CategoryKeywords[k].0) &&
            (forall j :: 0 <= j < k ==> !Contains(Lower(text), CategoryKeywords[j].0)) ==>
            InferCategory(text, explicit) == Str(CategoryKeywords[k].1)
    ensures (forall j :: 0 <= j < |CategoryKeywords| ==> !Contains(Lower(text), CategoryKeywords[j].0)) ==>
            InferCategory(text, explicit) == Str(Other)
  {
    if k < |CategoryKeywords| && Contains(Lower(text), CategoryKeywords[k].0) &&
       (forall j :: 0 <= j < k ==> !Contains(Lower(text), CategoryKeywords[j].0)) {
      FirstKeywordAt(CategoryKeywords, Lower(text), k);
    }
  }

  /** The first match is the one with no match before it. */
  lemma FirstKeywordAt(table: seq<(string, string)>, text: string, k: nat)
    requires k < |table| && Contains(text, table[k].0)
    requires forall j :: 0 <= j < k ==> !Contains(text, table[j].0)
    ensures FirstKeyword(table, text, 0) == Some(k)
  {
    var f := FirstKeyword(table, text, 0);
    assert f.Some?;
    if f.value < k {
    }
  }

  /** `ACCOUNT_BY_CATEGORY.get(category, "その他経費")`: a list or dict is
      not hashable, any other key missing from the table falls back. */
  function AccountFor(category: Value): (r: Result<string>)
    ensures r.Err? <==> category.List? || category.Obj?
  {
    match category
    case List(_) => Err(TypeError("unhashable type: 'list'"))
    case Obj(_) => Err(TypeError("unhashable type: 'dict'"))
    case Str(s) => Ok(if s in AccountByCategory then AccountByCategory[s] else Other)
    case _ => Ok(Other)
  }

  /** Every category the keyword table can produce has an account of its
      own; any other text category gets the account of last resort. */
  lemma AccountsCoverKeywords(category: string)
    ensures (exists k :: 0 <= k < |CategoryKeywords| && CategoryKeywords[k].1 == category) ==>
            AccountFor(Str(category)).Ok? && AccountFor(Str(category)).value != Other
    ensures category !in AccountByCategory ==> AccountFor(Str(category)) == Ok(Other)
  {
    if k :| 0 <= k < |CategoryKeywords| && CategoryKeywords[k].1 == category {
      assert category in AccountByCategory.Keys;
    }
  }

  /** The group captured by `AMOUNT_REGEX.search(text)`, the pattern
      `amount[^\d]*(\d[\d,]*\.?\d*)` without regard to case.  The leftmost
      `amount` is the only candidate: when no digit follows it, none follows
      a later one either.  The gap `[^\d]*` ends at the first digit, and
      the greedy runs never need to give characters back. */
  function AmountMatch(text: string): (m: Option<string>)
    ensures m.Some? ==> exists i :: OccursAt(Lower(text), "amount", i)
  {
    match FindFrom(Lower(text), "amount", 0)
    case None => None
    case Some(i) => NumberFrom(text, i + 6)
  }

  /** An `amount` phrase with a digit anywhere after it always matches. */
  lemma AmountMatchFound(text: string, i: nat, d: nat)
    requires OccursAt(Lower(text), "amount", i) && i + 6 <= d < |text| && IsDigit(text[d])
    ensures AmountMatch(text).Some?
  {
    var first := FindFrom(Lower(text), "amount", 0).value;
    NumberFromFound(text, first + 6, d);
  }

  lemma AmountMatchShape(text: string) returns (a: string, b: string)
    requires AmountMatch(text).Some?
    ensures AmountShape(a, b) && AmountMatch(text).value == a + b
  {
    var i := FindFrom(Lower(text), "amount", 0).value;
    a, b := NumberFromShape(text, i + 6);
  }

  /** The captured group, with its commas removed, is always a
      non-negative number `float()` accepts: the regular-expression branch
      never raises. */
  lemma AmountMatchParses(text: string)
    requires AmountMatch(text).Some?
    ensures ParseFloat(RemoveChar(AmountMatch(text).value, ',')).Some?
    ensures ParseFloat(RemoveChar(AmountMatch(text).value, ',')).value >= 0.0
  {
    var a, b := AmountMatchShape(text);
    ShapeParses(a, b);
  }

  /** `str(raw)` as `classify_document` reads it: the field value, or the
      captured group when the field is missing or `None`. */
  function RawAmount(fields: Dict, text: string): (raw: Value)
    ensures !Get(fields, "amount").Null? ==> raw == Get(fields, "amount")
  {
    var raw := Get(fields, "amount");
    if !raw.Null? then raw
    else
      match AmountMatch(text)
      case Some(m) => Str(m)
      case None => Null
  }

  /** `float(str(raw).replace(",", "")) if raw else 0.0`. */
  function AmountOf(raw: Value): (r: Result<real>)
    ensures !Truthy(raw) ==> r == Ok(0.0)
    ensures Truthy(raw) ==> (r.Ok? <==> ParseFloat(RemoveChar(PyStr(raw), ',')).Some?)
  {
    if !Truthy(raw) then Ok(0.0) else FloatOfText(RemoveChar(PyStr(raw), ','))
  }

  /** An `int` amount is taken at its value. */
  lemma AmountOfInt(i: int)
    ensures AmountOf(Int(i)) == Ok(i as real)
  {
    if i != 0 {
      IntHasNoComma(i);
      ParseFloatOfInt(i);
    }
  }

  lemma IntHasNoComma(i: int)
    ensures RemoveChar(IntToString(i), ',') == IntToString(i)
  {
    var t := IntToString(i);
    assert forall j :: 0 <= j < |t| ==> t[j] != ',';
  }

  /** `float(str(i))` is `i`. */
  lemma ParseFloatOfInt(i: int)
    ensures ParseFloat(IntToString(i)) == Some(i as real)
  {
    var t := IntToString(i);
    if i < 0 {
      var n: nat := -i;
      assert t == "-" + NatToString(n);
      ParseFloatNegative(n);
    } else {
      assert t == NatToString(i);
      ParseFloatOfNat(i);
    }
  }

  lemma ParseFloatOfNat(n: nat)
    ensures ParseFloat(NatToString(n)) == Some(n as real)
  {
    var u := NatToString(n);
    assert IsDigit(u[0]) && IsDigit(u[|u| - 1]);
    StripNoop(u);
    assert SplitSign(u) == (false, u);
    ParseUnsignedOfNat(n);
  }

  lemma ParseFloatNegative(n: nat)
    ensures ParseFloat("-" + NatToString(n)) == Some(-(n as real))
  {
    var u := NatToString(n);
    var t := "-" + u;
    assert IsDigit(u[|u| - 1]) && t[|t| - 1] == u[|u| - 1];
    StripNoop(t);
    assert t[1..] == u;
    assert SplitSign(t) == (true, u);
    ParseUnsignedOfNat(n);
  }

  lemma ParseUnsignedOfNat(n: nat)
    ensures ParseUnsigned(NatToString(n)) == Some(n as real)
  {
    var u := NatToString(n);
    assert IndexOfChar(u, '.', 0) == |u|;
    assert u[..|u|] == u;
  }

  /** `True` is truthy, and `float("True")` raises: a boolean amount of
      `True` fails, where `False` counts as no amount. */
  lemma AmountOfBool()
    ensures AmountOf(Bool(true)).Err? && AmountOf(Bool(false)) == Ok(0.0)
  {
    assert PyStr(Bool(true)) == "True";
    assert RemoveChar("True", ',') == "True";
    ParseFloatWord("True");
  }

  /** Text that starts with a letter is not a number. */
  lemma ParseFloatWord(s: string)
    requires s != [] && ('A' <= s[0] <= 'Z' || 'a' <= s[0] <= 'z') && !IsSpace(s[|s| - 1])
    ensures ParseFloat(s).None?
  {
    StripNoop(s);
    assert SplitSign(s) == (false, s);
    var k := IndexOfChar(s, '.', 0);
    assert k >= 1 && s[..k][0] == s[0];
  }

  /** `round(amount * 0.1, 2)`: the ten per cent tax charged on an amount. */
  function TaxDue(amount: real): real {
    RoundHalfEven(amount * 0.1, 2)
  }

  /** The tax: an explicit `tax` field converted by `float()`; when it is
      missing, ten per cent of a nonzero amount rounded to two places. */
  function TaxOf(taxValue: Value, amount: real): (r: Result<real>)
    ensures IsNumber(taxValue) ==> r == Ok(NumberValue(taxValue))
    ensures taxValue.Null? && amount != 0.0 ==> r == Ok(TaxDue(amount))
    ensures taxValue.Null? && amount == 0.0 ==> r == Ok(0.0)
  {
    var t := if taxValue.Null? && amount != 0.0 then Float(TaxDue(amount)) else taxValue;
    if Truthy(t) then ToFloat(t) else Ok(0.0)
  }

  datatype Classification = Classification(
    vendor: Value,
    category: Value,
    account: string,
    memo: string,
    amountGross: real,
    amountNet: real,
    tax: real)

  /** The result dictionary `classify_document` returns. */
  function ToDict(c: Classification): (d: Dict)
    ensures d.Keys == {"vendor", "category", "account", "memo", "amount_gross", "amount_net", "tax"}
  {
    map["vendor" := c.vendor, "category" := c.category, "account" := Str(c.account), "memo" := Str(c.memo),
        "amount_gross" := Float(c.amountGross), "amount_net" := Float(c.amountNet), "tax" := Float(c.tax)]
  }

  /** The net amount: `round(amount - tax, 2)` when there is an amount,
      falling back on the gross amount when that is negative. */
  function NetOf(amount: real, tax: real): real {
    var net := if amount != 0.0 then RoundHalfEven(amount - tax, 2) else 0.0;
    if net >= 0.0 then net else amount
  }

  /** `f"{document_type.capitalize()} - {vendor}".strip(" -")`. */
  function Memo(documentType: string, vendor: Value): string {
    StripSet(Capitalize(documentType) + " - " + PyStr(vendor), {' ', '-'})
  }

  /** `classify_document(text=text, fields=fields, document_type=documentType)`;
      the errors are those the conversions raise, in the order they run.
      A classification always names a vendor, and its net amount is never
      negative unless it is the gross amount itself. */
  function ClassifyDocument(text: string, fields: Dict, documentType: string): (r: Result<Classification>)
    ensures r.Ok? ==> Truthy(r.value.vendor)
    ensures r.Ok? ==> r.value.amountNet >= 0.0 || r.value.amountNet == r.value.amountGross
  {
    var vendor := Or(Get(fields, "vendor"), Str(""));
    var category := InferCategory(text, Get(fields, "category"));
    Assemble(documentType, vendor, category, AccountFor(category), AmountOf(RawAmount(fields, text)), Get(fields, "tax"))
  }

  /** The rest of `classify_document` once the vendor, the category, the
      account lookup and the gross amount conversion are known. */
  function Assemble(documentType: string, vendor: Value, category: Value, account: Result<string>,
                    amount: Result<real>, taxField: Value): (r: Result<Classification>)
    ensures r.Ok? ==> Truthy(r.value.vendor)
    ensures r.Ok? ==> r.value.amountNet >= 0.0 || r.value.amountNet == r.value.amountGross
  {
    var acc :- account;
    var gross :- amount;
    var tax :- TaxOf(taxField, gross);
    Ok(Classification(Or(vendor, Str(UnknownVendor)), category, acc, Memo(documentType, vendor),
                      gross, NetOf(gross, tax), tax))
  }

  /** A successful classification is made of successful conversions. */
  lemma AssembleOk(documentType: string, vendor: Value, category: Value, account: Result<string>,
                   amount: Result<real>, taxField: Value)
    requires Assemble(documentType, vendor, category, account, amount, taxField).Ok?
    ensures account.Ok? && amount.Ok? && TaxOf(taxField, amount.value).Ok?
    ensures var tax := TaxOf(taxField, amount.value).value;
            Assemble(documentType, vendor, category, account, amount, taxField).value ==
            Classification(Or(vendor, Str(UnknownVendor)), category, account.value, Memo(documentType, vendor),
                           amount.value, NetOf(amount.value, tax), tax)
  {
  }

  /** The amounts of a successful classification: the converted gross
      amount, the tax derived from it and the net amount of the two. */
  lemma ClassifyMoney(text: string, fields: Dict, documentType: string)
    requires ClassifyDocument(text, fields, documentType).Ok?
    ensures var amount := AmountOf(RawAmount(fields, text));
            var c := ClassifyDocument(text, fields, documentType).value;
            amount.Ok? && TaxOf(Get(fields, "tax"), amount.value).Ok? &&
            c.amountGross == amount.value && c.tax == TaxOf(Get(fields, "tax"), amount.value).value &&
            c.amountNet == NetOf(c.amountGross, c.tax)
  {
    var vendor := Or(Get(fields, "vendor"), Str(""));
    var category := InferCategory(text, Get(fields, "category"));
    AssembleOk(documentType, vendor, category, AccountFor(category), AmountOf(RawAmount(fields, text)), Get(fields, "tax"));
  }

  /** The labels of a successful classification: vendor, category,
      account and memo. */
  lemma ClassifyText(text: string, fields: Dict, documentType: string)
    requires ClassifyDocument(text, fields, documentType).Ok?
    ensures var vendor := Or(Get(fields, "vendor"), Str(""));
            var category := InferCategory(text, Get(fields, "category"));
            var c := ClassifyDocument(text, fields, documentType).value;
            AccountFor(category).Ok? && c.category == category && c.account == AccountFor(category).value &&
            c.vendor == Or(vendor, Str(UnknownVendor)) && c.memo == Memo(documentType, vendor)
  {
    var vendor := Or(Get(fields, "vendor"), Str(""));
    var category := InferCategory(text, Get(fields, "category"));
    AssembleOk(documentType, vendor, category, AccountFor(category), AmountOf(RawAmount(fields, text)), Get(fields, "tax"));
  }

  /** The usual inputs never fail: a text (or missing) category, an `int`
      (or missing) amount and a numeric (or missing) tax. */
  lemma ClassifyTotal(text: string, fields: Dict, documentType: string)
    requires var c := Get(fields, "category"); !c.List? && !c.Obj?
    requires var a := Get(fields, "amount"); a.Null? || a.Int?
    requires var t := Get(fields, "tax"); t.Null? || IsNumber(t)
    ensures ClassifyDocument(text, fields, documentType).Ok?
  {
    AmountNeverFails(text, fields);
    var vendor := Or(Get(fields, "vendor"), Str(""));
    var category := InferCategory(text, Get(fields, "category"));
    var amount := AmountOf(RawAmount(fields, text));
    assert AccountFor(category).Ok?;
    assert TaxOf(Get(fields, "tax"), amount.value).Ok?;
    AssembleDefined(documentType, vendor, category, AccountFor(category), amount, Get(fields, "tax"));
  }

  lemma AssembleDefined(documentType: string, vendor: Value, category: Value, account: Result<string>,
                        amount: Result<real>, taxField: Value)
    requires account.Ok? && amount.Ok? && TaxOf(taxField, amount.value).Ok?
    ensures Assemble(documentType, vendor, category, account, amount, taxField).Ok?
  {
  }

  /** An `int` amount field, or none at all, always converts. */
  lemma AmountNeverFails(text: string, fields: Dict)
    requires var a := Get(fields, "amount"); a.Null? || a.Int?
    ensures AmountOf(RawAmount(fields, text)).Ok?
  {
    var a := Get(fields, "amount");
    if a.Int? {
      AmountOfInt(a.i);
    } else if AmountMatch(text).Some? {
      AmountOfMatch(text);
    }
  }

  /** The captured group converts to the number it spells. */
  lemma AmountOfMatch(text: string)
    requires AmountMatch(text).Some?
    ensures var m := AmountMatch(text).value;
            AmountOf(Str(m)).Ok? && Some(AmountOf(Str(m)).value) == ParseFloat(RemoveChar(m, ','))
  {
    var a, b := AmountMatchShape(text);
    ShapeParses(a, b);
    assert Truthy(Str(a + b));
  }

  /** An `int` amount field is the gross amount. */
  lemma ClassifyAmountField(text: string, fields: Dict, documentType: string)
    requires ClassifyDocument(text, fields, documentType).Ok?
    requires Get(fields, "amount").Int?
    ensures ClassifyDocument(text, fields, documentType).value.amountGross == Get(fields, "amount").i as real
  {
    ClassifyMoney(text, fields, documentType);
    AmountOfInt(Get(fields, "amount").i);
  }

  /** Without an amount field, the gross amount is the captured group with
      its commas removed, or zero when the text has none. */
  lemma ClassifyAmountText(text: string, fields: Dict, documentType: string)
    requires ClassifyDocument(text, fields, documentType).Ok?
    requires Get(fields, "amount").Null?
    ensures var c := ClassifyDocument(text, fields, documentType).value;
            (AmountMatch(text).Some? ==>
               Some(c.amountGross) == ParseFloat(RemoveChar(AmountMatch(text).value, ','))) &&
            (AmountMatch(text).None? ==> c.amountGross == 0.0)
  {
    ClassifyMoney(text, fields, documentType);
    if AmountMatch(text).Some? {
      AmountOfMatch(text);
    }
  }

  /** An explicit numeric tax is kept as it is; a missing one is ten per
      cent of a nonzero gross amount, rounded to two places. */
  lemma ClassifyTax(text: string, fields: Dict, documentType: string)
    requires ClassifyDocument(text, fields, documentType).Ok?
    ensures var c := ClassifyDocument(text, fields, documentType).value;
            var t := Get(fields, "tax");
            (IsNumber(t) ==> c.tax == NumberValue(t)) &&
            (t.Null? ==> c.tax == if c.amountGross == 0.0 then 0.0 else TaxDue(c.amountGross))
  {
    ClassifyMoney(text, fields, documentType);
  }

  /** The net amount follows the gross amount and the tax. */
  lemma ClassifyNet(text: string, fields: Dict, documentType: string)
    requires ClassifyDocument(text, fields, documentType).Ok?
    ensures var c := ClassifyDocument(text, fields, documentType).value;
            c.amountNet == NetOf(c.amountGross, c.tax)
  {
    ClassifyMoney(text, fields, documentType);
  }

  /** The category is the inferred one and the account follows it through
      the account table. */
  lemma ClassifyCategory(text: string, fields: Dict, documentType: string)
    requires ClassifyDocument(text, fields, documentType).Ok?
    ensures var c := ClassifyDocument(text, fields, documentType).value;
            c.category == InferCategory(text, Get(fields, "category")) &&
            Ok(c.account) == AccountFor(c.category)
  {
    ClassifyText(text, fields, documentType);
  }

  /** A truthy vendor field is kept, and an empty one shows as unknown;
      the memo names the vendor field, or nothing. */
  lemma ClassifyVendor(text: string, fields: Dict, documentType: string)
    requires ClassifyDocument(text, fields, documentType).Ok?
    ensures var c := ClassifyDocument(text, fields, documentType).value;
            var v := Get(fields, "vendor");
            (Truthy(v) ==> c.vendor == v && c.memo == Memo(documentType, v)) &&
            (!Truthy(v) ==> c.vendor == Str(UnknownVendor) && c.memo == Memo(documentType, Str("")))
  {
    ClassifyText(text, fields, documentType);
  }

  /** The memo of a vendor and a document type that neither start nor end
      with a space or a dash is exactly `"<Doctype> - <vendor>"`. */
  lemma MemoPlain(documentType: string, vendor: string)
    requires documentType != [] && UpperChar(documentType[0]) !in {' ', '-'}
    requires vendor != [] && vendor[|vendor| - 1] !in {' ', '-'}
    ensures Memo(documentType, Str(vendor)) == Capitalize(documentType) + " - " + vendor
  {
    var s := Capitalize(documentType) + " - " + vendor;
    assert s[0] == UpperChar(documentType[0]);
    assert s[|s| - 1] == vendor[|vendor| - 1];
    StripSetNoop(s, {' ', '-'});
  }

  /** The net amount is never negative for a non-negative gross amount. */
  lemma NetNonNegative(amount: real, tax: real)
    requires amount >= 0.0
    ensures NetOf(amount, tax) >= 0.0
  {
  }

  /** Amounts in whole cents: the net amount is exactly gross minus tax
      whenever that is not negative. */
  lemma NetExact(amount: real, tax: real)
    requires amount != 0.0 && HasDigits(amount, 2) && HasDigits(tax, 2) && amount - tax >= 0.0
    ensures NetOf(amount, tax) == amount - tax
  {
    DifferenceOnGrid(amount, tax, 2);
    RoundHalfEvenExact(amount - tax, 2);
  }
}
