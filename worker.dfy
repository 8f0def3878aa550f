/** The pipeline task `process_document` (services/ocr/worker.py): OCR, then
    the reconciliation of the amounts read from the text with the
    classification, the journal entry, and the job's status and approval
    bookkeeping.  What `perform_ocr` (modelled in `OcrText`),
    `extract_amounts_from_text` and `build_journal_lines` produce is given to
    the worker, the clock is `now`,
    and the three stores are the objects the worker updates. */
module Worker {
  import opened Wrappers
  import opened Values
  import opened Timestamps
  import opened Jobs
  import Approvals
  import opened RoutesApprovals
  import opened Classify
  import opened Accounting
  import OcrText

  /** What `perform_ocr` returns (`OcrText.PerformOcr`): the recognised
      text and its field dictionary. */
  type OcrResult = OcrText.OcrResult

  /** `type(v).__name__`. */
  function TypeName(v: Value): string {
    match v
    case Null => "NoneType"
    case Bool(_) => "bool"
    case Int(_) => "int"
    case Float(_) => "float"
    case Str(_) => "str"
    case List(_) => "list"
    case Obj(_) => "dict"
  }

  /** The integer of an `int` (a `bool` counts as 0 or 1). */
  function IntOf(v: Value): int
    requires v.Bool? || v.Int?
  {
    if v.Bool? then (if v.b then 1 else 0) else v.i
  }

  /** Python's `a + b` on the values a hint can hold. */
  function Plus(a: Value, b: Value): (r: Result<Value>)
    ensures IsNumber(a) && IsNumber(b) ==>
              r.Ok? && IsNumber(r.value) && NumberValue(r.value) == NumberValue(a) + NumberValue(b)
  {
    if IsNumber(a) && IsNumber(b) then
      if a.Float? || b.Float? then Ok(Float(NumberValue(a) + NumberValue(b))) else Ok(Int(IntOf(a) + IntOf(b)))
    else if a.Str? && b.Str? then Ok(Str(a.s + b.s))
    else if a.List? && b.List? then Ok(List(a.items + b.items))
    else if a.Str? then Err(TypeError("can only concatenate str (not \"" + TypeName(b) + "\") to str"))
    else if a.List? then Err(TypeError("can only concatenate list (not \"" + TypeName(b) + "\") to list"))
    else Err(TypeError("unsupported operand type(s) for +: '" + TypeName(a) + "' and '" + TypeName(b) + "'"))
  }

  // ---- before classification ----

  /** The structured-field metadata: the `structured` field and its
      `line_items` (empty when absent) when the field is truthy; a truthy
      value that is not a dict has no `.get`. */
  function StructuredUpdates(fields: Dict): (r: Result<Dict>)
    ensures !Truthy(Get(fields, "structured")) ==> r == Ok(map[])
    ensures Truthy(Get(fields, "structured")) ==> (r.Ok? <==> Get(fields, "structured").Obj?)
    ensures r.Ok? ==> "amounts" !in r.value
  {
    var s := Get(fields, "structured");
    if !Truthy(s) then Ok(map[])
    else if s.Obj? then Ok(map["structured_fields" := s, "line_items" := GetOr(s.fields, "line_items", List([]))])
    else Err(AttributeError("'" + TypeName(s) + "' object has no attribute 'get'"))
  }

  /** The OCR fields with the hint's total as `amount` and its tax as `tax`,
      each converted with `float()`. */
  function HintedFields(fields: Dict, hint: Dict): Result<Dict> {
    var total := Get(hint, "total");
    var tax := Get(hint, "tax");
    var withTotal :- Converted(fields, "amount", total);
    Converted(withTotal, "tax", tax)
  }

  /** `d[key] = float(v)` unless `v` is `None`. */
  function Converted(d: Dict, key: string, v: Value): (r: Result<Dict>)
    ensures v.Null? ==> r == Ok(d)
    ensures !v.Null? ==> (r.Ok? <==> ToFloat(v).Ok?)
    ensures !v.Null? && r.Ok? ==> r.value == d[key := Float(ToFloat(v).value)]
    ensures !v.Null? && r.Err? ==> r.error == ToFloat(v).error
  {
    if v.Null? then Ok(d)
    else
      var x :- ToFloat(v);
      Ok(d[key := Float(x)])
  }

  /** Some amount of the hint is not `None`. */
  predicate SomeAmount(hint: Dict) {
    !Get(hint, "total").Null? || !Get(hint, "subtotal").Null? || !Get(hint, "tax").Null?
  }

  /** The metadata written before classification: the structured fields,
      and the whole hint under `amounts` when it holds some amount. */
  function MetadataUpdates(structured: Dict, hint: Dict): Dict {
    if SomeAmount(hint) then structured["amounts" := Obj(hint)] else structured
  }

  /** The state of the worker once the metadata is known: the text, the
      fields as amended by the hint, and the metadata to write. */
  datatype Prepared = Prepared(text: string, fields: Dict, metadata: Dict)

  /** Lines 33-56, before the first write: the OCR result, the structured
      metadata and the hinted fields, failing in that order. */
  function Prepare(ocr: Result<OcrResult>, hint: Dict): Result<Prepared> {
    var o :- ocr;
    var structured :- StructuredUpdates(o.fields);
    var fields :- HintedFields(o.fields, hint);
    Ok(Prepared(o.text, fields, MetadataUpdates(structured, hint)))
  }

  // ---- the classification, reconciled with the hint ----

  /** Lines 67-76: a total replaces `amount` and `amount_gross`; with a tax
      as well, the tax is set and both net keys become total minus tax. */
  function TotalApplied(c: Dict, hint: Dict): Result<Dict> {
    var total := Get(hint, "total");
    var tax := Get(hint, "tax");
    if total.Null? then Ok(c)
    else
      var a :- ToFloat(total);
      var gross := c["amount" := Float(a)]["amount_gross" := Float(a)];
      if tax.Null? then Ok(gross)
      else
        var t :- ToFloat(tax);
        Ok(gross["tax" := Float(t)]["amount_net" := Float(a - t)]["net_amount" := Float(a - t)])
  }

  /** Lines 77-80: a subtotal becomes both net keys when `amount_net` is
      missing or `None`. */
  function NetFilled(c: Dict, hint: Dict): Result<Dict> {
    var subtotal := Get(hint, "subtotal");
    if subtotal.Null? || !Get(c, "amount_net").Null? then Ok(c)
    else
      var n :- ToFloat(subtotal);
      Ok(c["amount_net" := Float(n)]["net_amount" := Float(n)])
  }

  /** Lines 81-88: subtotal plus tax becomes `amount_gross` and `amount`
      when `amount_gross` is missing or `None` and there is a tax. */
  function GrossFilled(c: Dict, hint: Dict): Result<Dict> {
    var subtotal := Get(hint, "subtotal");
    var tax := Get(hint, "tax");
    if subtotal.Null? || !Get(c, "amount_gross").Null? || tax.Null? then Ok(c)
    else
      var sum :- Plus(subtotal, tax);
      var g :- ToFloat(sum);
      Ok(c["amount_gross" := Float(g)]["amount" := Float(g)])
  }

  /** The classification after the three reconciliation steps. */
  function Reconciled(c: Dict, hint: Dict): Result<Dict> {
    var c1 :- TotalApplied(c, hint);
    var c2 :- NetFilled(c1, hint);
    GrossFilled(c2, hint)
  }

  /** Lines 61-90: classify, reconcile, record the document type and then
      the journal lines built from the classification so far. */
  function Classified(text: string, fields: Dict, hint: Dict, buildLines: Dict -> Value,
                      documentType: string): Result<Dict> {
    var c :- ClassifyDocument(text, fields, documentType);
    var reconciled :- Reconciled(Classify.ToDict(c), hint);
    var typed := reconciled["document_type" := Str(documentType)];
    Ok(typed["journal_lines" := buildLines(typed)])
  }

  /** What the worker classifies and posts once prepared, failing at the
      first step that raises. */
  datatype Posted = Posted(classification: Dict, entry: Dict)

  function Post(p: Prepared, hint: Dict, buildLines: Dict -> Value, documentType: string, jobId: string,
                recordedAt: string): Result<Posted> {
    var c :- Classified(p.text, p.fields, hint, buildLines, documentType);
    PostOf(p, c, documentType, jobId, recordedAt)
  }

  /** Lines 92-97: the journal entry of a classification. */
  function PostOf(p: Prepared, c: Dict, documentType: string, jobId: string, recordedAt: string): Result<Posted> {
    var entry :- PostedEntry(p.fields, c, documentType, jobId, recordedAt);
    Ok(Posted(c, entry))
  }

  // ---- what the reconciliation promises ----

  /** The hinted fields exist exactly when every non-`None` amount converts. */
  lemma HintedFieldsDefined(fields: Dict, hint: Dict)
    ensures HintedFields(fields, hint).Ok? <==>
              (Get(hint, "total").Null? || ToFloat(Get(hint, "total")).Ok?) &&
              (Get(hint, "tax").Null? || ToFloat(Get(hint, "tax")).Ok?)
  {
  }

  /** A hinted total becomes the field `amount` and a hinted tax the field
      `tax`; every other field, and a field without a hint, is kept. */
  lemma HintedFieldsValues(fields: Dict, hint: Dict, k: string)
    requires HintedFields(fields, hint).Ok?
    ensures var f := HintedFields(fields, hint).value;
            var total := Get(hint, "total");
            var tax := Get(hint, "tax");
            (!total.Null? ==> ToFloat(total).Ok? && f["amount"] == Float(ToFloat(total).value)) &&
            (!tax.Null? ==> ToFloat(tax).Ok? && f["tax"] == Float(ToFloat(tax).value)) &&
            ((k != "amount" || total.Null?) && (k != "tax" || tax.Null?) ==> Get(f, k) == Get(fields, k))
  {
  }

  /** `amounts` is written exactly when the hint holds some amount, and
      `set_metadata` is called (the updates are non-empty) exactly when the
      structured fields are truthy or the hint holds some amount. */
  lemma PreparedMetadata(ocr: Result<OcrResult>, hint: Dict)
    requires Prepare(ocr, hint).Ok?
    ensures var m := Prepare(ocr, hint).value.metadata;
            ("amounts" in m <==> SomeAmount(hint)) &&
            ("amounts" in m ==> m["amounts"] == Obj(hint)) &&
            (m != map[] <==> Truthy(Get(ocr.value.fields, "structured")) || SomeAmount(hint))
  {
    var m := Prepare(ocr, hint).value.metadata;
    if Truthy(Get(ocr.value.fields, "structured")) {
      assert "structured_fields" in m;
    }
    if SomeAmount(hint) {
      assert "amounts" in m;
    }
  }

  /** The classification keys the reconciliation writes are distinct. */
  lemma KeysDistinct()
    ensures "amount" != "amount_gross" && "amount" != "tax" && "amount" != "amount_net" && "amount" != "net_amount"
    ensures "amount_gross" != "tax" && "amount_gross" != "amount_net" && "amount_gross" != "net_amount"
    ensures "tax" != "amount_net" && "tax" != "net_amount" && "amount_net" != "net_amount"
  {
    assert "amount_net"[0] != "net_amount"[0];
    assert "amount_gross"[7] != "amount_net"[7];
  }

  /** The total step writes the hinted total to `amount` and `amount_gross` ... */
  lemma TotalAppliedAmount(c: Dict, hint: Dict)
    requires TotalApplied(c, hint).Ok? && !Get(hint, "total").Null?
    ensures var r := TotalApplied(c, hint).value;
            var a := ToFloat(Get(hint, "total"));
            a.Ok? && Get(r, "amount") == Float(a.value) && Get(r, "amount_gross") == Float(a.value)
  {
    KeysDistinct();
    var a := ToFloat(Get(hint, "total")).value;
    var g := c["amount" := Float(a)]["amount_gross" := Float(a)];
    StoreKeeps(c["amount" := Float(a)], "amount_gross", Float(a), "amount");
    var tax := Get(hint, "tax");
    if !tax.Null? {
      var t := ToFloat(tax).value;
      var d := a - t;
      var g1 := g["tax" := Float(t)];
      var g2 := g1["amount_net" := Float(d)];
      StoreKeeps(g, "tax", Float(t), "amount");
      StoreKeeps(g, "tax", Float(t), "amount_gross");
      StoreKeeps(g1, "amount_net", Float(d), "amount");
      StoreKeeps(g1, "amount_net", Float(d), "amount_gross");
      StoreKeeps(g2, "net_amount", Float(d), "amount");
      StoreKeeps(g2, "net_amount", Float(d), "amount_gross");
    }
  }

  /** ... and with a hinted tax, the tax and both net keys. */
  lemma TotalAppliedTax(c: Dict, hint: Dict, a: real, t: real)
    requires ToFloat(Get(hint, "total")) == Ok(a) && ToFloat(Get(hint, "tax")) == Ok(t)
    ensures TotalApplied(c, hint).Ok?
    ensures var r := TotalApplied(c, hint).value;
            Get(r, "tax") == Float(t) && Get(r, "amount_net") == Float(a - t) && Get(r, "net_amount") == Float(a - t)
  {
    TotalAppliedBoth(c, hint, a, t);
    KeysDistinct();
    ThreeStores(c["amount" := Float(a)]["amount_gross" := Float(a)],
                "tax", Float(t), "amount_net", Float(a - t), "net_amount", Float(a - t));
  }

  /** The total step succeeds only when the hinted amounts convert. */
  lemma TotalAppliedConverts(c: Dict, hint: Dict)
    requires TotalApplied(c, hint).Ok? && !Get(hint, "total").Null?
    ensures ToFloat(Get(hint, "total")).Ok?
    ensures !Get(hint, "tax").Null? ==> ToFloat(Get(hint, "tax")).Ok?
  {
  }

  lemma TotalAppliedBoth(c: Dict, hint: Dict, a: real, t: real)
    requires ToFloat(Get(hint, "total")) == Ok(a) && ToFloat(Get(hint, "tax")) == Ok(t)
    ensures TotalApplied(c, hint) ==
            Ok(c["amount" := Float(a)]["amount_gross" := Float(a)]["tax" := Float(t)]
                ["amount_net" := Float(a - t)]["net_amount" := Float(a - t)])
  {
    assert !Get(hint, "total").Null? && !Get(hint, "tax").Null?;
    var gross := c["amount" := Float(a)]["amount_gross" := Float(a)];
    assert TotalApplied(c, hint) ==
           Ok(gross["tax" := Float(t)]["amount_net" := Float(a - t)]["net_amount" := Float(a - t)]);
  }

  /** The subtotal step writes only the two net keys. */
  lemma NetFilledKeeps(c: Dict, hint: Dict, k: string)
    requires NetFilled(c, hint).Ok? && k != "amount_net" && k != "net_amount"
    ensures Get(NetFilled(c, hint).value, k) == Get(c, k)
  {
  }

  /** A present `amount_net` stops the subtotal step. */
  lemma NetFilledNoop(c: Dict, hint: Dict)
    requires !Get(c, "amount_net").Null?
    ensures NetFilled(c, hint) == Ok(c)
  {
  }

  /** A present `amount_gross` stops the gross step. */
  lemma GrossFilledNoop(c: Dict, hint: Dict)
    requires !Get(c, "amount_gross").Null?
    ensures GrossFilled(c, hint) == Ok(c)
  {
  }

  /** The gross step writes only `amount_gross` and `amount`. */
  lemma GrossFilledKeeps(c: Dict, hint: Dict, k: string)
    requires GrossFilled(c, hint).Ok? && k != "amount_gross" && k != "amount"
    ensures Get(GrossFilled(c, hint).value, k) == Get(c, k)
  {
  }

  /** A hinted total is the classification's `amount` and `amount_gross`. */
  lemma TotalOverrides(c: Dict, hint: Dict)
    requires Reconciled(c, hint).Ok? && !Get(hint, "total").Null?
    ensures var r := Reconciled(c, hint).value;
            var a := ToFloat(Get(hint, "total"));
            a.Ok? && Get(r, "amount") == Float(a.value) && Get(r, "amount_gross") == Float(a.value)
  {
    var c1 := TotalApplied(c, hint).value;
    TotalAppliedAmount(c, hint);
    KeysDistinct();
    NetFilledKeeps(c1, hint, "amount");
    NetFilledKeeps(c1, hint, "amount_gross");
    var c2 := NetFilled(c1, hint).value;
    GrossFilledNoop(c2, hint);
  }

  /** With a hinted total `a` and tax `t`, the reconciliation succeeds, the
      tax is the classification's `tax` and both net keys are `a - t`. */
  lemma TotalAndTaxNet(c: Dict, hint: Dict, a: real, t: real)
    requires ToFloat(Get(hint, "total")) == Ok(a) && ToFloat(Get(hint, "tax")) == Ok(t)
    ensures Reconciled(c, hint).Ok?
    ensures var r := Reconciled(c, hint).value;
            Get(r, "tax") == Float(t) && Get(r, "amount_net") == Float(a - t) && Get(r, "net_amount") == Float(a - t)
  {
    TotalAppliedTax(c, hint, a, t);
    var c1 := TotalApplied(c, hint).value;
    NetFilledNoop(c1, hint);
    TotalAppliedAmount(c, hint);
    GrossFilledNoop(c1, hint);
  }

  /** Without a hinted total-and-tax pair, a hinted subtotal fills both net
      keys when `amount_net` is missing or `None`, and a present
      `amount_net` is kept. */
  lemma SubtotalFillsNet(c: Dict, hint: Dict)
    requires Reconciled(c, hint).Ok? && !Get(hint, "subtotal").Null?
    requires Get(hint, "total").Null? || Get(hint, "tax").Null?
    ensures var r := Reconciled(c, hint).value;
            var n := ToFloat(Get(hint, "subtotal"));
            (Get(c, "amount_net").Null? ==>
               n.Ok? && Get(r, "amount_net") == Float(n.value) && Get(r, "net_amount") == Float(n.value)) &&
            (!Get(c, "amount_net").Null? ==> Get(r, "amount_net") == Get(c, "amount_net"))
  {
    KeysDistinct();
    var c1 := TotalApplied(c, hint).value;
    assert Get(c1, "amount_net") == Get(c, "amount_net");
    var c2 := NetFilled(c1, hint).value;
    GrossFilledKeeps(c2, hint, "amount_net");
    GrossFilledKeeps(c2, hint, "net_amount");
  }

  /** Without a hinted total, a hinted subtotal and tax fill `amount_gross`
      and `amount` with their sum when `amount_gross` is missing or `None`,
      and a present `amount_gross` is kept. */
  lemma SubtotalAndTaxFillGross(c: Dict, hint: Dict)
    requires Reconciled(c, hint).Ok? && Get(hint, "total").Null?
    requires IsNumber(Get(hint, "subtotal")) && IsNumber(Get(hint, "tax"))
    ensures var r := Reconciled(c, hint).value;
            var sum := NumberValue(Get(hint, "subtotal")) + NumberValue(Get(hint, "tax"));
            (Get(c, "amount_gross").Null? ==> r["amount_gross"] == Float(sum) && r["amount"] == Float(sum)) &&
            (!Get(c, "amount_gross").Null? ==> Get(r, "amount_gross") == Get(c, "amount_gross"))
  {
    var c2 := NetFilled(c, hint).value;
    assert Get(c2, "amount_gross") == Get(c, "amount_gross");
    var s := Plus(Get(hint, "subtotal"), Get(hint, "tax"));
    assert ToFloat(s.value) == Ok(NumberValue(Get(hint, "subtotal")) + NumberValue(Get(hint, "tax"))) by {
      assert IsNumber(s.value);
    }
  }

  /** After `classify_document` both `amount_net` and `amount_gross` hold a
      number, so the subtotal steps never fire: only the total and the tax
      of the hint reach the classification. */
  lemma SubtotalIgnoredAfterClassify(cls: Classification, hint: Dict)
    ensures Reconciled(Classify.ToDict(cls), hint) == TotalApplied(Classify.ToDict(cls), hint)
  {
    var c := Classify.ToDict(cls);
    match TotalApplied(c, hint)
    case Err(_) =>
    case Ok(c1) =>
      assert c1["amount_net"].Float? && c1["amount_gross"].Float?;
  }

  /** Once the fields took the hint, the reconciliation cannot fail: its
      conversions are the ones that already succeeded. */
  lemma ReconcileSucceeds(fields: Dict, hint: Dict, cls: Classification)
    requires HintedFields(fields, hint).Ok?
    ensures Reconciled(Classify.ToDict(cls), hint).Ok?
  {
    SubtotalIgnoredAfterClassify(cls, hint);
  }

  // ---- the approval ----

  /** The event `record(job_id, actor="system", action="pending")` appends. */
  function PendingEvent(now: DateTime): Approvals.ApprovalEvent {
    Approvals.ApprovalEvent("pending", "system", Truncated(now), None)
  }

  /** The approval the worker reports: the job's existing record, or the new
      pending one. */
  function ApprovalFor(records: seq<Approvals.ApprovalRecord>, jobId: string, now: DateTime): Approvals.ApprovalRecord {
    match Approvals.FindRecord(records, jobId)
    case Some(k) => records[k]
    case None => Approvals.Append(Approvals.NewRecord(jobId, Truncated(now)), PendingEvent(now))
  }

  /** The approval store afterwards: unchanged when the job had a record. */
  function ApprovalsAfter(records: seq<Approvals.ApprovalRecord>, jobId: string, now: DateTime): seq<Approvals.ApprovalRecord> {
    if Approvals.FindRecord(records, jobId).Some? then records else Approvals.Upserted(records, jobId, PendingEvent(now))
  }

  /** A job with an approval record keeps it and the store is unchanged;
      a job without one gets a new record, alone at the end of the store,
      whose only event is a "pending" by "system" at the current time. */
  lemma ApprovalReused(records: seq<Approvals.ApprovalRecord>, jobId: string, now: DateTime)
    ensures var rec := ApprovalFor(records, jobId, now);
            var after := ApprovalsAfter(records, jobId, now);
            rec.jobId == jobId && Approvals.FindRecord(after, jobId).Some? &&
            after[Approvals.FindRecord(after, jobId).value] == rec &&
            (Approvals.FindRecord(records, jobId).Some? ==> after == records) &&
            (Approvals.FindRecord(records, jobId).None? ==>
               after == records + [rec] && rec.status == "pending" &&
               rec.history == [Approvals.ApprovalEvent("pending", "system", Truncated(now), None)])
  {
    match Approvals.FindRecord(records, jobId)
    case Some(k) =>
    case None =>
      AppendedFound(records, ApprovalFor(records, jobId, now));
  }

  /** `{"status": ..., "history": [...]}` of a record. */
  function ApprovalValue(rec: Approvals.ApprovalRecord): Value
    requires Approvals.Writable(rec)
  {
    Obj(map["status" := Str(rec.status), "history" := List(Approvals.EventsToDicts(rec.history))])
  }

  /** `classification.get("category")` as the job's text field; a category
      that is not text is kept as its `str()`. */
  function CategoryText(v: Value): Option<string> {
    match v
    case Null => None
    case Str(s) => Some(s)
    case _ => Some(PyStr(v))
  }

  /** The job once the result and the approval are stored, from the job
      as it was before `store_result`. */
  function Completed(job: Job, p: Prepared, posted: Posted, rec: Approvals.ApprovalRecord, now: DateTime): Job
    requires Approvals.Writable(rec)
  {
    job.(status := "pending_approval", error := None, updatedAt := now,
         classification := CategoryText(Get(posted.classification, "category")), ocrText := Some(p.text),
         ocrFields := Some(p.fields), journalEntry := Some(posted.entry),
         metadata := Merge(job.metadata, map["approval" := ApprovalValue(rec)]),
         approvalStatus := rec.status, approvalHistory := Approvals.EventsToDicts(rec.history))
  }

  /** The job when the worker succeeds: the early metadata merged, then the
      result and the approval stored. */
  function Finished(job: Job, p: Prepared, posted: Posted, rec: Approvals.ApprovalRecord, now: DateTime): Job
    requires Approvals.Writable(rec)
  {
    Completed(job.(metadata := Merge(job.metadata, p.metadata)), p, posted, rec, now)
  }

  /** The job when the worker fails with `e` after writing `metadata`. */
  function Failed(job: Job, metadata: Dict, e: Error, now: DateTime): Job {
    job.(status := "failed", error := Some(e.Text()), updatedAt := now, metadata := Merge(job.metadata, metadata))
  }

  /** A finished job awaits approval with no error and holds the entry and
      the approval's status. */
  lemma FinishedJob(job: Job, p: Prepared, posted: Posted, rec: Approvals.ApprovalRecord, now: DateTime)
    requires Approvals.Writable(rec)
    ensures var j := Finished(job, p, posted, rec, now);
            j.id == job.id && j.status == "pending_approval" && j.error == None && j.updatedAt == now &&
            j.journalEntry == Some(posted.entry) && j.approvalStatus == rec.status
  {
  }

  /** A finished job's metadata has the approval over the early metadata
      over what the job had. */
  lemma FinishedMetadata(job: Job, p: Prepared, posted: Posted, rec: Approvals.ApprovalRecord, now: DateTime, k: string)
    requires Approvals.Writable(rec)
    ensures var m := Finished(job, p, posted, rec, now).metadata;
            m["approval"] == ApprovalValue(rec) &&
            (k in p.metadata && k != "approval" ==> m[k] == p.metadata[k]) &&
            (k in job.metadata && k !in p.metadata && k != "approval" ==> m[k] == job.metadata[k])
  {
    MergedTwice(job.metadata, p.metadata, "approval", ApprovalValue(rec), k);
  }

  lemma MergedTwice(a: Dict, b: Dict, key: string, v: Value, k: string)
    ensures var m := Merge(Merge(a, b), map[key := v]);
            m[key] == v && (k in b && k != key ==> m[k] == b[k]) &&
            (k in a && k !in b && k != key ==> m[k] == a[k])
  {
  }

  /** A failed job carries the error's text and keeps its result fields. */
  lemma FailedJob(job: Job, metadata: Dict, e: Error, now: DateTime)
    ensures var j := Failed(job, metadata, e, now);
            j.id == job.id && j.status == "failed" && j.error == Some(e.Text()) &&
            j.journalEntry == job.journalEntry && j.approvalStatus == job.approvalStatus &&
            j.metadata.Keys == job.metadata.Keys + metadata.Keys
  {
  }

  /** The dictionary the worker returns. */
  function Response(jobId: string, p: Prepared, posted: Posted, rec: Approvals.ApprovalRecord): Dict
    requires Approvals.Writable(rec)
  {
    map["job_id" := Str(jobId), "ocr" := Obj(p.fields), "classification" := Obj(posted.classification),
        "journal_entry" := Obj(posted.entry), "approval" := ApprovalValue(rec)]
  }

  // ---- the job store, slot by slot ----

  /** The first job with an id is found again after that slot is rewritten
      with the same id. */
  lemma FoundAgain(jobs: seq<Job>, jobId: string, job: Job)
    requires FindJob(jobs, jobId).Some? && job.id == jobId
    ensures var i := FindJob(jobs, jobId).value;
            FindJob(jobs[i := job], jobId) == Some(i)
  {
    var i := FindJob(jobs, jobId).value;
    var after := jobs[i := job];
    assert after[i].id == jobId;
    forall k | 0 <= k < i
      ensures after[k].id != jobId
    {
      assert after[k] == jobs[k];
    }
  }

  /** One `_update` of slot `i`, holding `before`, with a mutation that
      keeps the id: `after` is the mutated, stamped job. */
  lemma Rewritten(start: seq<Job>, i: nat, before: Job, jobId: string, mutate: Job -> Job, now: DateTime)
    returns (after: Job)
    requires i < |start| && FindJob(start[i := before], jobId) == Some(i) && mutate(before).id == jobId
    ensures after == mutate(before).(updatedAt := now)
    ensures Updated(start[i := before], jobId, mutate, now) == Some(start[i := after])
    ensures FindJob(start[i := after], jobId) == Some(i)
  {
    after := mutate(before).(updatedAt := now);
    var jobs := start[i := before];
    assert jobs[i := after] == start[i := after];
    FoundAgain(jobs, jobId, after);
  }

  /** The record `record` creates for a job without one is found at the end. */
  lemma AppendedFound(records: seq<Approvals.ApprovalRecord>, rec: Approvals.ApprovalRecord)
    requires Approvals.FindRecord(records, rec.jobId).None?
    ensures Approvals.FindRecord(records + [rec], rec.jobId) == Some(|records|)
  {
    var after := records + [rec];
    assert after[|records|].jobId == rec.jobId;
    forall k | 0 <= k < |records|
      ensures after[k].jobId != rec.jobId
    {
      assert after[k] == records[k];
    }
  }

  /** The reported approval can be written when the store's can. */
  lemma ApprovalWritable(records: seq<Approvals.ApprovalRecord>, jobId: string, now: DateTime)
    requires StoreWritable(records) && Valid(now)
    ensures Approvals.Writable(ApprovalFor(records, jobId, now))
  {
  }

  // ---- the worker ----

  /** The stores and the result once the metadata is written, when
      classifying and posting gives `outcome`: a failure marks the job
      "failed" with the error's text and leaves the other stores alone;
      success appends the entry to the journal, takes or creates the
      approval record, and finishes the job. */
  predicate Concluded(outcome: Result<Posted>, p: Prepared, job: Job, now: DateTime, jobId: string,
                      jobsBefore: seq<Job>, i: nat, jobsAfter: seq<Job>,
                      recordsBefore: seq<Approvals.ApprovalRecord>, recordsAfter: seq<Approvals.ApprovalRecord>,
                      entriesBefore: seq<Dict>, entriesAfter: seq<Dict>, r: Result<Dict>) {
    i < |jobsBefore| &&
    match outcome
    case Err(e) =>
      r == Err(e) && jobsAfter == jobsBefore[i := Failed(job, p.metadata, e, now)] &&
      recordsAfter == recordsBefore && entriesAfter == entriesBefore
    case Ok(posted) =>
      var rec := ApprovalFor(recordsBefore, jobId, now);
      Approvals.Writable(rec) && r == Ok(Response(jobId, p, posted, rec)) &&
      jobsAfter == jobsBefore[i := Finished(job, p, posted, rec, now)] &&
      recordsAfter == ApprovalsAfter(recordsBefore, jobId, now) && entriesAfter == entriesBefore + [posted.entry]
  }

  /** The stores and the result after the worker, from slot `i` holding
      `job` before it ran: a failure in the OCR or the conversions marks
      the job "failed" before any other write; otherwise the metadata is
      written and the worker concludes as `Concluded` says. */
  predicate Ran(ocr: Result<OcrResult>, hint: Dict, buildLines: Dict -> Value, documentType: string, jobId: string,
                now: DateTime, jobsBefore: seq<Job>, i: nat, jobsAfter: seq<Job>,
                recordsBefore: seq<Approvals.ApprovalRecord>, recordsAfter: seq<Approvals.ApprovalRecord>,
                entriesBefore: seq<Dict>, entriesAfter: seq<Dict>, r: Result<Dict>)
    requires Valid(now)
  {
    i < |jobsBefore| &&
    match Prepare(ocr, hint)
    case Err(e) =>
      r == Err(e) && jobsAfter == jobsBefore[i := Failed(jobsBefore[i], map[], e, now)] &&
      recordsAfter == recordsBefore && entriesAfter == entriesBefore
    case Ok(p) =>
      Concluded(Post(p, hint, buildLines, documentType, jobId, FormatSecondsZ(now)), p, jobsBefore[i], now, jobId,
                jobsBefore, i, jobsAfter, recordsBefore, recordsAfter, entriesBefore, entriesAfter, r)
  }

  /** `process_document(job_id, file_path, document_type)` at time `now`.
      An unknown job fails before anything is written.  Otherwise the job
      goes to "running" and the worker runs as `Ran` says; a failure is
      recorded on the job and raised again.  `statuses` lists the statuses
      the job is given, in order. */
  method ProcessDocument(jobs: JobStore, approvals: Approvals.ApprovalStore, journal: Journal, jobId: string,
                         documentType: string, ocr: Result<OcrResult>, hint: Dict, buildLines: Dict -> Value,
                         now: DateTime)
    returns (r: Result<Dict>, ghost statuses: seq<string>)
    requires Valid(now) && StoreWritable(approvals.records)
    modifies jobs, approvals, journal
    ensures FindJob(old(jobs.jobs), jobId).None? ==>
              r == Err(KeyError(jobId)) && statuses == [] && jobs.jobs == old(jobs.jobs) &&
              approvals.records == old(approvals.records) && journal.entries == old(journal.entries)
    ensures FindJob(old(jobs.jobs), jobId).Some? ==>
              statuses == ["running", if r.Ok? then "pending_approval" else "failed"] &&
              Ran(ocr, hint, buildLines, documentType, jobId, now, old(jobs.jobs), FindJob(old(jobs.jobs), jobId).value,
                  jobs.jobs, old(approvals.records), approvals.records, old(journal.entries), journal.entries, r)
  {
    ghost var start := jobs.jobs;
    ghost var records := approvals.records;
    ghost var entries := journal.entries;
    var running := jobs.UpdateStatus(jobId, "running", None, now);
    if running.Err? {
      return Err(running.error), [];
    }
    ghost var i := FindJob(start, jobId).value;
    assert start[i := start[i]] == start;
    ghost var job := Rewritten(start, i, start[i], jobId, WithStatus("running", None), now);
    r := Run(jobs, approvals, journal, jobId, documentType, ocr, hint, buildLines, now, start, i, records, entries);
    statuses := ["running", if r.Ok? then "pending_approval" else "failed"];
  }

  /** The `try` block of `process_document`, and its `except` branches,
      once the job is "running". */
  method Run(jobs: JobStore, approvals: Approvals.ApprovalStore, journal: Journal, jobId: string,
             documentType: string, ocr: Result<OcrResult>, hint: Dict, buildLines: Dict -> Value, now: DateTime,
             ghost start: seq<Job>, ghost i: nat,
             ghost records: seq<Approvals.ApprovalRecord>, ghost entries: seq<Dict>)
    returns (r: Result<Dict>)
    requires Valid(now) && StoreWritable(approvals.records)
    requires i < |start| && start[i].id == jobId
    requires jobs.jobs == start[i := start[i].(status := "running", error := None, updatedAt := now)]
    requires FindJob(jobs.jobs, jobId) == Some(i)
    requires approvals.records == records && journal.entries == entries
    modifies jobs, approvals, journal
    ensures Ran(ocr, hint, buildLines, documentType, jobId, now, start, i, jobs.jobs, records, approvals.records,
                entries, journal.entries, r)
  {
    ghost var job := start[i].(status := "running", error := None, updatedAt := now);
    var prepared := Prepare(ocr, hint);
    if prepared.Err? {
      assert Merge(start[i].metadata, map[]) == start[i].metadata;
      r := MarkFailed(jobs, jobId, prepared.error, now, start, i, job);
      assert jobs.jobs == start[i := Failed(start[i], map[], prepared.error, now)];
      return;
    }
    var p := prepared.value;
    if p.metadata != map[] {
      job := Rewritten(start, i, job, jobId, WithMetadata(p.metadata), now);
      var _ := jobs.SetMetadata(jobId, p.metadata, now);
    } else {
      assert Merge(job.metadata, p.metadata) == job.metadata;
    }
    r := ClassifyAndPost(jobs, approvals, journal, jobId, documentType, p, hint, buildLines, now, start, i, start[i], job,
                         records, entries);
  }

  /** From `classify_document` on, once the metadata is written, with the job in slot `i`
      as `job` was at the start with the status "running" and the metadata
      merged. */
  method ClassifyAndPost(jobs: JobStore, approvals: Approvals.ApprovalStore, journal: Journal, jobId: string,
                         documentType: string, p: Prepared, hint: Dict, buildLines: Dict -> Value, now: DateTime,
                         ghost start: seq<Job>, ghost i: nat, ghost job: Job, ghost before: Job,
                         ghost records: seq<Approvals.ApprovalRecord>, ghost entries: seq<Dict>)
    returns (r: Result<Dict>)
    requires Valid(now) && StoreWritable(approvals.records)
    requires approvals.records == records && journal.entries == entries
    requires i < |start| && jobs.jobs == start[i := before] && FindJob(jobs.jobs, jobId) == Some(i)
    requires before == job.(status := "running", error := None, updatedAt := now,
                            metadata := Merge(job.metadata, p.metadata))
    requires job.id == jobId
    modifies jobs, approvals, journal
    ensures Concluded(Post(p, hint, buildLines, documentType, jobId, FormatSecondsZ(now)), p, job, now, jobId,
                      start, i, jobs.jobs, records, approvals.records, entries, journal.entries, r)
  {
    var classified := Classified(p.text, p.fields, hint, buildLines, documentType);
    if classified.Err? {
      assert Post(p, hint, buildLines, documentType, jobId, FormatSecondsZ(now)) == Err(classified.error);
      r := MarkFailed(jobs, jobId, classified.error, now, start, i, before);
      assert before.(status := "failed", error := Some(classified.error.Text()), updatedAt := now) ==
             Failed(job, p.metadata, classified.error, now);
      return;
    }
    assert Post(p, hint, buildLines, documentType, jobId, FormatSecondsZ(now)) ==
           PostOf(p, classified.value, documentType, jobId, FormatSecondsZ(now));
    r := PostAndStore(jobs, approvals, journal, jobId, documentType, p, classified.value, now, start, i, job, before,
                      records, entries);
  }

  /** From `post_journal_entry` on, with the classification `c`: a failure to post marks the
      job "failed"; otherwise the results are stored. */
  method PostAndStore(jobs: JobStore, approvals: Approvals.ApprovalStore, journal: Journal, jobId: string,
                      documentType: string, p: Prepared, c: Dict, now: DateTime,
                      ghost start: seq<Job>, ghost i: nat, ghost job: Job, ghost before: Job,
                      ghost records: seq<Approvals.ApprovalRecord>, ghost entries: seq<Dict>)
    returns (r: Result<Dict>)
    requires Valid(now) && StoreWritable(approvals.records)
    requires approvals.records == records && journal.entries == entries
    requires i < |start| && jobs.jobs == start[i := before] && FindJob(jobs.jobs, jobId) == Some(i)
    requires before == job.(status := "running", error := None, updatedAt := now,
                            metadata := Merge(job.metadata, p.metadata))
    requires job.id == jobId
    modifies jobs, approvals, journal
    ensures Concluded(PostOf(p, c, documentType, jobId, FormatSecondsZ(now)), p, job, now, jobId,
                      start, i, jobs.jobs, records, approvals.records, entries, journal.entries, r)
  {
    var posted := journal.PostJournalEntry(p.fields, c, documentType, jobId, now);
    if posted.Err? {
      r := MarkFailed(jobs, jobId, posted.error, now, start, i, before);
      assert before.(status := "failed", error := Some(posted.error.Text()), updatedAt := now) ==
             Failed(job, p.metadata, posted.error, now);
      return;
    }
    ghost var rec;
    var result := Posted(c, posted.value);
    r, rec := Succeed(jobs, approvals, jobId, p, result, now, start, i, before);
    assert Completed(before, p, result, rec, now) == Finished(job, p, result, rec, now);
  }

  /** From `store_result` on: the result, the approval, the final status and the
      approval metadata are stored, and the response is built. */
  method Succeed(jobs: JobStore, approvals: Approvals.ApprovalStore, jobId: string, p: Prepared, posted: Posted,
                 now: DateTime, ghost start: seq<Job>, ghost i: nat, ghost before: Job)
    returns (r: Result<Dict>, ghost rec: Approvals.ApprovalRecord)
    requires Valid(now) && StoreWritable(approvals.records)
    requires i < |start| && jobs.jobs == start[i := before] && FindJob(jobs.jobs, jobId) == Some(i)
    requires before.id == jobId
    modifies jobs, approvals
    ensures rec == ApprovalFor(old(approvals.records), jobId, now) && Approvals.Writable(rec)
    ensures approvals.records == ApprovalsAfter(old(approvals.records), jobId, now)
    ensures r == Ok(Response(jobId, p, posted, rec))
    ensures jobs.jobs == start[i := Completed(before, p, posted, rec, now)]
  {
    ghost var job := before;
    var category := CategoryText(Get(posted.classification, "category"));
    job := Rewritten(start, i, job, jobId, WithResult(category, Some(p.text), Some(p.fields), Some(posted.entry)), now);
    var _ := jobs.StoreResult(jobId, category, Some(p.text), Some(p.fields), Some(posted.entry), now);

    var record := ReuseOrRecord(approvals, jobId, now);
    rec := record;
    var history := Approvals.EventsToDicts(record.history);
    job := Rewritten(start, i, job, jobId, WithApproval(record.status, history), now);
    var _ := jobs.SetApproval(jobId, record.status, history, now);

    job := Rewritten(start, i, job, jobId, WithStatus("pending_approval", None), now);
    var _ := jobs.UpdateStatus(jobId, "pending_approval", None, now);

    var approval := ApprovalValue(record);
    job := Rewritten(start, i, job, jobId, WithMetadata(map["approval" := approval]), now);
    var _ := jobs.SetMetadata(jobId, map["approval" := approval], now);
    assert job == Completed(before, p, posted, rec, now);
    r := Ok(map["job_id" := Str(jobId), "ocr" := Obj(p.fields), "classification" := Obj(posted.classification),
                "journal_entry" := Obj(posted.entry), "approval" := approval]);
  }

  /** What `job_store.set_approval` raises: `JobStore` defines no such method. */
  const NoSetApproval := AttributeError("'JobStore' object has no attribute 'set_approval'")

  /** The job as the code is written: the result is stored, then the
      missing `set_approval` fails the job with the error's text. */
  function StoredThenFailed(job: Job, p: Prepared, posted: Posted, now: DateTime): Job {
    job.(status := "failed", error := Some(NoSetApproval.Text()), updatedAt := now,
         classification := CategoryText(Get(posted.classification, "category")), ocrText := Some(p.text),
         ocrFields := Some(p.fields), journalEntry := Some(posted.entry))
  }

  /** As written, a job whose classification and posting succeed ends
      "failed" with the entry stored but no approval written, where the
      intended job awaits approval. */
  lemma StoredThenFailedDiffers(job: Job, p: Prepared, posted: Posted, rec: Approvals.ApprovalRecord, now: DateTime)
    requires Approvals.Writable(rec)
    ensures var j := StoredThenFailed(job, p, posted, now);
            j.status == "failed" && j.error == Some("'JobStore' object has no attribute 'set_approval'") &&
            j.journalEntry == Some(posted.entry) &&
            j.approvalStatus == job.approvalStatus && j.metadata == job.metadata &&
            j != Completed(job, p, posted, rec, now)
  {
    assert Completed(job, p, posted, rec, now).status == "pending_approval";
  }

  /** `Succeed` as the code is written: after `store_result` and the
      approval lookup, `job_store.set_approval` raises; the `except`
      branch marks the job "failed" with that error and raises it again.
      The approval record created for a job without one stays written. */
  method SucceedAsWritten(jobs: JobStore, approvals: Approvals.ApprovalStore, jobId: string, p: Prepared,
                          posted: Posted, now: DateTime, ghost start: seq<Job>, ghost i: nat, ghost before: Job)
    returns (r: Result<Dict>)
    requires Valid(now) && StoreWritable(approvals.records)
    requires i < |start| && jobs.jobs == start[i := before] && FindJob(jobs.jobs, jobId) == Some(i)
    requires before.id == jobId
    modifies jobs, approvals
    ensures approvals.records == ApprovalsAfter(old(approvals.records), jobId, now)
    ensures r == Err(NoSetApproval)
    ensures jobs.jobs == start[i := StoredThenFailed(before, p, posted, now)]
  {
    ghost var job := before;
    var category := CategoryText(Get(posted.classification, "category"));
    job := Rewritten(start, i, job, jobId, WithResult(category, Some(p.text), Some(p.fields), Some(posted.entry)), now);
    var _ := jobs.StoreResult(jobId, category, Some(p.text), Some(p.fields), Some(posted.entry), now);
    var _ := ReuseOrRecord(approvals, jobId, now);
    r := MarkFailed(jobs, jobId, NoSetApproval, now, start, i, job);
  }

  /** The `except` branch: the job is marked "failed" with the error's text. */
  method MarkFailed(jobs: JobStore, jobId: string, e: Error, now: DateTime,
                    ghost start: seq<Job>, ghost i: nat, ghost before: Job) returns (r: Result<Dict>)
    requires i < |start| && jobs.jobs == start[i := before] && FindJob(jobs.jobs, jobId) == Some(i)
    requires before.id == jobId
    modifies jobs
    ensures r == Err(e)
    ensures jobs.jobs == start[i := before.(status := "failed", error := Some(e.Text()), updatedAt := now)]
  {
    ghost var after := Rewritten(start, i, before, jobId, WithStatus("failed", Some(e.Text())), now);
    var _ := jobs.UpdateStatus(jobId, "failed", Some(e.Text()), now);
    r := Err(e);
  }

  /** `approval_store.get`, falling back on `record`: the job's approval record, or a new "pending" one by
      "system" when there is none. */
  method ReuseOrRecord(approvals: Approvals.ApprovalStore, jobId: string, now: DateTime)
    returns (record: Approvals.ApprovalRecord)
    requires Valid(now) && StoreWritable(approvals.records)
    modifies approvals
    ensures record == ApprovalFor(old(approvals.records), jobId, now) && Approvals.Writable(record)
    ensures approvals.records == ApprovalsAfter(old(approvals.records), jobId, now)
  {
    ApprovalWritable(approvals.records, jobId, now);
    var got := approvals.Get(jobId);
    if got.Ok? {
      record := got.value;
    } else {
      ghost var before := approvals.records;
      assert Approvals.ValidAction("pending");
      var made := approvals.Record(jobId, "system", "pending", None, now);
      AppendedFound(before, Approvals.Append(Approvals.NewRecord(jobId, Truncated(now)), PendingEvent(now)));
      record := made.value;
    }
  }
}
