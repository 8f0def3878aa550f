/** The API's job records and their file-backed store
    (services/api/jobs.py).  The JSON file the store reloads and rewrites on
    every call is the `jobs` sequence; the clock and the random id are
    parameters. */
module Jobs {
  import opened Wrappers
  import opened Text
  import opened Values
  import opened Timestamps
  import opened Sorting
  import opened Csv

  datatype Job = Job(
    id: string,
    fileName: string,
    documentType: string,
    status: string,
    submittedAt: DateTime,
    updatedAt: DateTime,
    classification: Option<string>,
    ocrText: Option<string>,
    ocrFields: Option<Dict>,
    error: Option<string>,
    journalEntry: Option<Dict>,
    metadata: Dict,
    approvalStatus: string,
    approvalHistory: seq<Value>)

  /** Both times can be written. */
  predicate Writable(job: Job) {
    Valid(job.submittedAt) && Valid(job.updatedAt)
  }

  /** `Job.to_dict()`: the dataclass fields, times in
      `"%Y-%m-%dT%H:%M:%S.%fZ"`. */
  function ToDict(job: Job): (d: Value)
    requires Writable(job)
    ensures d.Obj?
  {
    Obj(map[
      "id" := Str(job.id),
      "file_name" := Str(job.fileName),
      "document_type" := Str(job.documentType),
      "status" := Str(job.status),
      "submitted_at" := Str(FormatMicrosZ(job.submittedAt)),
      "updated_at" := Str(FormatMicrosZ(job.updatedAt)),
      "classification" := OptionalText(job.classification),
      "ocr_text" := OptionalText(job.ocrText),
      "ocr_fields" := OptionalObject(job.ocrFields),
      "error" := OptionalText(job.error),
      "journal_entry" := OptionalObject(job.journalEntry),
      "metadata" := Obj(job.metadata)])
  }

  /** `_parse_datetime(data[key])`. */
  function TimeField(d: Dict, key: string): (r: Result<DateTime>)
    ensures r.Ok? ==> Valid(r.value)
  {
    var t :- TextField(d, key);
    match ParseMicrosZ(t)
    case Some(dt) => Ok(dt)
    case None => Err(ValueError("time data '" + t + "' does not match format '%Y-%m-%dT%H:%M:%S.%fZ'"))
  }

  /** `data.get("metadata") or {}`. */
  function MetadataField(d: Dict): Result<Dict> {
    var v := Get(d, "metadata");
    if !Truthy(v) then Ok(map[])
    else if v.Obj? then Ok(v.fields)
    else Err(TypeError("expected an object under 'metadata'"))
  }

  /** `Job.from_dict(data)`.  The approval fields are not among the
      dataclass's fields, so a loaded job starts with them empty. */
  function FromDict(v: Value): (r: Result<Job>)
    ensures r.Ok? ==> Writable(r.value)
  {
    if !v.Obj? then Err(TypeError("expected an object"))
    else
      var d := v.fields;
      var id :- TextField(d, "id");
      var fileName :- TextField(d, "file_name");
      var documentType :- TextField(d, "document_type");
      var status :- TextField(d, "status");
      var submittedAt :- TimeField(d, "submitted_at");
      var updatedAt :- TimeField(d, "updated_at");
      JobWith(d, id, fileName, documentType, status, submittedAt, updatedAt)
  }

  /** The rest of `Job.from_dict(data)`, once the required fields are read. */
  function JobWith(d: Dict, id: string, fileName: string, documentType: string, status: string,
                   submittedAt: DateTime, updatedAt: DateTime): (r: Result<Job>)
    ensures r.Ok? ==> r.value.submittedAt == submittedAt && r.value.updatedAt == updatedAt
  {
    var classification :- OptionalTextField(d, "classification");
    var ocrText :- OptionalTextField(d, "ocr_text");
    var ocrFields :- OptionalObjectField(d, "ocr_fields");
    var error :- OptionalTextField(d, "error");
    var journalEntry :- OptionalObjectField(d, "journal_entry");
    var metadata :- MetadataField(d);
    Ok(Job(id, fileName, documentType, status, submittedAt, updatedAt, classification, ocrText,
           ocrFields, error, journalEntry, metadata, "pending", []))
  }

  lemma OptionalObjectBack(d: Dict, key: string, v: Option<Dict>)
    requires key in d && d[key] == OptionalObject(v)
    ensures OptionalObjectField(d, key) == Ok(v)
  {
  }

  lemma TimeBack(d: Dict, key: string, dt: DateTime)
    requires Valid(dt) && key in d && d[key] == Str(FormatMicrosZ(dt))
    ensures TimeField(d, key) == Ok(dt)
  {
    MicrosZRoundTrip(dt);
  }

  /** A job written and read back is the same job (times keep their
      microseconds), except that the approval fields start afresh. */
  lemma RoundTrip(job: Job)
    requires Writable(job)
    ensures FromDict(ToDict(job)) == Ok(job.(approvalStatus := "pending", approvalHistory := []))
  {
    var d := ToDict(job).fields;
    TextFieldOf(d, "id", job.id);
    TextFieldOf(d, "file_name", job.fileName);
    TextFieldOf(d, "document_type", job.documentType);
    TextFieldOf(d, "status", job.status);
    TimeBack(d, "submitted_at", job.submittedAt);
    TimeBack(d, "updated_at", job.updatedAt);
    RestBack(job);
    assert FromDict(ToDict(job)) == JobWith(d, job.id, job.fileName, job.documentType, job.status,
                                            job.submittedAt, job.updatedAt);
  }

  lemma RestBack(job: Job)
    requires Writable(job)
    ensures JobWith(ToDict(job).fields, job.id, job.fileName, job.documentType, job.status,
                    job.submittedAt, job.updatedAt) == Ok(job.(approvalStatus := "pending", approvalHistory := []))
  {
    var d := ToDict(job).fields;
    OptionalTextFieldOf(d, "classification", job.classification);
    OptionalTextFieldOf(d, "ocr_text", job.ocrText);
    OptionalObjectBack(d, "ocr_fields", job.ocrFields);
    OptionalTextFieldOf(d, "error", job.error);
    OptionalObjectBack(d, "journal_entry", job.journalEntry);
    assert MetadataField(d) == Ok(job.metadata);
  }

  // ---- the store's pure parts ----

  /** The index of the first job with `jobId`. */
  function FindJob(jobs: seq<Job>, jobId: string): (r: Option<nat>)
    ensures r.Some? ==> r.value < |jobs| && jobs[r.value].id == jobId &&
                        forall k :: 0 <= k < r.value ==> jobs[k].id != jobId
    ensures r.None? ==> forall k :: 0 <= k < |jobs| ==> jobs[k].id != jobId
  {
    if jobs == [] then None
    else if jobs[0].id == jobId then Some(0)
    else match FindJob(jobs[1..], jobId)
      case Some(i) => Some(i + 1)
      case None => None
  }

  /** The jobs after `_update(job_id, mutate)` at time `now`; `None` is the
      `KeyError`, after which nothing is written. */
  function Updated(jobs: seq<Job>, jobId: string, mutate: Job -> Job, now: DateTime): Option<seq<Job>> {
    match FindJob(jobs, jobId)
    case Some(i) => Some(jobs[i := mutate(jobs[i]).(updatedAt := now)])
    case None => None
  }

  /** `_update` changes exactly the first job with the id (mutated and
      stamped), keeps every other job and the order, and fails exactly when
      no job has the id. */
  lemma UpdatedFrame(jobs: seq<Job>, jobId: string, mutate: Job -> Job, now: DateTime)
    ensures Updated(jobs, jobId, mutate, now).None? <==> forall k :: 0 <= k < |jobs| ==> jobs[k].id != jobId
    ensures Updated(jobs, jobId, mutate, now).Some? ==>
              var i := FindJob(jobs, jobId).value;
              var after := Updated(jobs, jobId, mutate, now).value;
              |after| == |jobs| && after[i] == mutate(jobs[i]).(updatedAt := now) &&
              forall k :: 0 <= k < |jobs| && k != i ==> after[k] == jobs[k]
  {
  }

  /** `update_status`'s mutation: status and error, the error reset when
      not given. */
  function WithStatus(status: string, error: Option<string>): Job -> Job {
    (j: Job) => j.(status := status, error := error)
  }

  /** `store_result`'s mutation: the four result fields. */
  function WithResult(classification: Option<string>, ocrText: Option<string>, ocrFields: Option<Dict>,
                      journalEntry: Option<Dict>): Job -> Job {
    (j: Job) => j.(classification := classification, ocrText := ocrText, ocrFields := ocrFields,
                   journalEntry := journalEntry)
  }

  /** `set_metadata`'s mutation: `job.metadata.update(metadata)`. */
  function WithMetadata(update: Dict): Job -> Job {
    (j: Job) => j.(metadata := Merge(j.metadata, update))
  }

  /** The approval fields `set_approval` writes. */
  function WithApproval(status: string, history: seq<Value>): Job -> Job {
    (j: Job) => j.(approvalStatus := status, approvalHistory := history)
  }

  /** `set_metadata` keeps the keys the update does not name and takes the
      update's values for the others. */
  lemma MetadataMerged(j: Job, update: Dict)
    ensures var m := WithMetadata(update)(j).metadata;
            m.Keys == j.metadata.Keys + update.Keys &&
            (forall k :: k in update ==> m[k] == update[k]) &&
            (forall k :: k in j.metadata && k !in update ==> m[k] == j.metadata[k])
  {
  }

  /** Most recently submitted first, equal times in store order. */
  predicate SubmittedLater(a: Job, b: Job) {
    AtMost(b.submittedAt, a.submittedAt)
  }

  lemma SubmittedLaterOrder()
    ensures TotalPreorder(SubmittedLater)
  {
    forall a: Job, b: Job
      ensures SubmittedLater(a, b) || SubmittedLater(b, a)
    {
      AtMostTotal(a.submittedAt, b.submittedAt);
    }
    forall a: Job, b: Job, c: Job | SubmittedLater(a, b) && SubmittedLater(b, c)
      ensures SubmittedLater(a, c)
    {
      AtMostTrans(c.submittedAt, b.submittedAt, a.submittedAt);
    }
  }

  /** `list_jobs()`. */
  function ListJobs(jobs: seq<Job>): seq<Job> {
    Sort(jobs, SubmittedLater)
  }

  /** `list_jobs` is all the jobs, most recently submitted first. */
  lemma ListJobsSorted(jobs: seq<Job>)
    ensures multiset(ListJobs(jobs)) == multiset(jobs)
    ensures forall i, j :: 0 <= i < j < |jobs| ==> AtMost(ListJobs(jobs)[j].submittedAt, ListJobs(jobs)[i].submittedAt)
  {
    SubmittedLaterOrder();
    SortSorted(jobs, SubmittedLater);
    var s := ListJobs(jobs);
    forall i, j | 0 <= i < j < |jobs|
      ensures AtMost(s[j].submittedAt, s[i].submittedAt)
    {
      SortedPairwise(s, SubmittedLater, i, j);
    }
  }

  // ---- export_csv ----

  const CsvHeader: seq<string> := ["id", "file_name", "document_type", "status", "classification",
                                   "amount", "tax", "vendor", "submitted_at", "updated_at"]

  /** How the csv writer renders a value: `None` as nothing, others with `str()`. */
  function CsvText(v: Value): string {
    if v.Null? then "" else PyStr(v)
  }

  /** `_iso(dt)` for the csv cells; a date outside the years this model
      writes gives an empty cell. */
  function Stamp(dt: DateTime): string {
    if Valid(dt) then FormatMicrosZ(dt) else ""
  }

  /** The row `export_csv` writes for one job. */
  function CsvFields(job: Job): (fields: seq<string>)
    ensures |fields| == |CsvHeader|
    ensures fields[0] == job.id && fields[3] == job.status
  {
    var entry := job.journalEntry.GetOr(map[]);
    [job.id, job.fileName, job.documentType, job.status, job.classification.GetOr(""),
     CsvText(GetOr(entry, "amount_gross", Str(""))), CsvText(GetOr(entry, "tax", Str(""))),
     CsvText(GetOr(entry, "vendor", Str(""))),
     Stamp(job.submittedAt), Stamp(job.updatedAt)]
  }

  /** The data rows, one per job in the given order. */
  function CsvBody(jobs: seq<Job>): string
  {
    if jobs == [] then [] else CsvBody(jobs[..|jobs| - 1]) + Row(CsvFields(jobs[|jobs| - 1]))
  }

  /** What `export_csv()` returns for the stored jobs. */
  function ExportText(jobs: seq<Job>): string
  {
    Row(CsvHeader) + CsvBody(ListJobs(jobs))
  }

  /** The body is the jobs' rows in order: appending a job appends its row. */
  lemma CsvBodyAppend(jobs: seq<Job>, job: Job)
    ensures CsvBody(jobs + [job]) == CsvBody(jobs) + Row(CsvFields(job))
  {
    assert (jobs + [job])[..|jobs|] == jobs;
  }

  lemma CsvBodyStep(jobs: seq<Job>, i: nat)
    requires i < |jobs|
    ensures CsvBody(jobs[..i + 1]) == CsvBody(jobs[..i]) + Row(CsvFields(jobs[i]))
  {
    assert jobs[..i + 1] == jobs[..i] + [jobs[i]];
    CsvBodyAppend(jobs[..i], jobs[i]);
  }

  /** A job with no journal entry exports empty amount, tax and vendor cells. */
  lemma CsvFieldsNoEntry(job: Job)
    requires job.journalEntry.None?
    ensures CsvFields(job)[5] == "" && CsvFields(job)[6] == "" && CsvFields(job)[7] == ""
  {
  }

  class JobStore {
    var jobs: seq<Job>

    constructor(initial: seq<Job>)
      ensures jobs == initial
    {
      jobs := initial;
    }

    /** `create_job(file_name, document_type)`: `hex` is `uuid4().hex` and
        `now` the clock. */
    method CreateJob(fileName: string, documentType: string, hex: string, now: DateTime) returns (job: Job)
      modifies this
      ensures jobs == old(jobs) + [job]
      ensures job == Job(NewId(hex), fileName, documentType, "queued", now, now, None, None, None, None, None,
                         map[], "pending", [])
    {
      job := Job(NewId(hex), fileName, documentType, "queued", now, now, None, None, None, None, None,
                 map[], "pending", []);
      jobs := jobs + [job];
    }

    /** `_update(job_id, mutate)` at time `now`. */
    method Update(jobId: string, mutate: Job -> Job, now: DateTime) returns (r: Result<Job>)
      modifies this
      ensures Updated(old(jobs), jobId, mutate, now).None? ==> r == Err(KeyError(jobId)) && jobs == old(jobs)
      ensures Updated(old(jobs), jobId, mutate, now).Some? ==>
                jobs == Updated(old(jobs), jobId, mutate, now).value &&
                r == Ok(jobs[FindJob(old(jobs), jobId).value])
    {
      var i := 0;
      while i < |jobs|
        invariant 0 <= i <= |jobs|
        invariant forall k :: 0 <= k < i ==> jobs[k].id != jobId
      {
        if jobs[i].id == jobId {
          assert FindJob(jobs, jobId) == Some(i);
          var updated := mutate(jobs[i]).(updatedAt := now);
          jobs := jobs[i := updated];
          return Ok(updated);
        }
        i := i + 1;
      }
      return Err(KeyError(jobId));
    }

    /** `update_status(job_id, status, error=error)`. */
    method UpdateStatus(jobId: string, status: string, error: Option<string>, now: DateTime) returns (r: Result<Job>)
      modifies this
      ensures Updated(old(jobs), jobId, WithStatus(status, error), now).None? ==>
                r == Err(KeyError(jobId)) && jobs == old(jobs)
      ensures Updated(old(jobs), jobId, WithStatus(status, error), now).Some? ==>
                jobs == Updated(old(jobs), jobId, WithStatus(status, error), now).value &&
                r.Ok? && r.value.status == status && r.value.error == error && r.value.updatedAt == now
    {
      r := Update(jobId, WithStatus(status, error), now);
    }

    /** `store_result(job_id, ...)`. */
    method StoreResult(jobId: string, classification: Option<string>, ocrText: Option<string>,
                       ocrFields: Option<Dict>, journalEntry: Option<Dict>, now: DateTime) returns (r: Result<Job>)
      modifies this
      ensures var f := WithResult(classification, ocrText, ocrFields, journalEntry);
              (Updated(old(jobs), jobId, f, now).None? ==> r == Err(KeyError(jobId)) && jobs == old(jobs)) &&
              (Updated(old(jobs), jobId, f, now).Some? ==> jobs == Updated(old(jobs), jobId, f, now).value && r.Ok?)
    {
      r := Update(jobId, WithResult(classification, ocrText, ocrFields, journalEntry), now);
    }

    /** `set_metadata(job_id, **metadata)`. */
    method SetMetadata(jobId: string, update: Dict, now: DateTime) returns (r: Result<Job>)
      modifies this
      ensures Updated(old(jobs), jobId, WithMetadata(update), now).None? ==> r == Err(KeyError(jobId)) && jobs == old(jobs)
      ensures Updated(old(jobs), jobId, WithMetadata(update), now).Some? ==>
                jobs == Updated(old(jobs), jobId, WithMetadata(update), now).value && r.Ok?
    {
      r := Update(jobId, WithMetadata(update), now);
    }

    /** `set_approval(job_id, status=..., history=...)`, through `_update`. */
    method SetApproval(jobId: string, status: string, history: seq<Value>, now: DateTime) returns (r: Result<Job>)
      modifies this
      ensures Updated(old(jobs), jobId, WithApproval(status, history), now).None? ==>
                r == Err(KeyError(jobId)) && jobs == old(jobs)
      ensures Updated(old(jobs), jobId, WithApproval(status, history), now).Some? ==>
                jobs == Updated(old(jobs), jobId, WithApproval(status, history), now).value && r.Ok?
    {
      r := Update(jobId, WithApproval(status, history), now);
    }

    /** `get_job(job_id)`: the first job with the id, or `KeyError`. */
    method GetJob(jobId: string) returns (r: Result<Job>)
      ensures r.Ok? <==> exists k :: 0 <= k < |jobs| && jobs[k].id == jobId
      ensures r.Ok? ==> FindJob(jobs, jobId).Some? && r.value == jobs[FindJob(jobs, jobId).value]
      ensures r.Err? ==> r.error == KeyError(jobId)
    {
      var i := 0;
      while i < |jobs|
        invariant 0 <= i <= |jobs|
        invariant forall k :: 0 <= k < i ==> jobs[k].id != jobId
      {
        if jobs[i].id == jobId {
          assert FindJob(jobs, jobId) == Some(i);
          return Ok(jobs[i]);
        }
        i := i + 1;
      }
      return Err(KeyError(jobId));
    }

    /** `list_jobs()`. */
    method ListAll() returns (listed: seq<Job>)
      ensures listed == ListJobs(jobs)
    {
      listed := Sort(jobs, SubmittedLater);
    }

    /** `export_csv()`: the header row, then one row per listed job. */
    method ExportCsv() returns (text: string)
      ensures text == ExportText(jobs)
    {
      var listed := ListAll();
      var body := WriteRows(listed);
      text := Row(CsvHeader) + body;
    }
  }

  /** The `writer.writerow` loop of `export_csv`. */
  method WriteRows(listed: seq<Job>) returns (body: string)
    ensures body == CsvBody(listed)
  {
    body := "";
    var i := 0;
    while i < |listed|
      invariant 0 <= i <= |listed|
      invariant body == CsvBody(listed[..i])
    {
      CsvBodyStep(listed, i);
      body := body + Row(CsvFields(listed[i]));
      i := i + 1;
    }
    assert listed[..i] == listed;
  }

  /** `f"JOB-{hex[:8].upper()}"`. */
  function NewId(hex: string): (id: string)
    ensures 4 <= |id| <= 12 && id[..4] == "JOB-"
    ensures |hex| >= 8 ==> |id| == 12
  {
    "JOB-" + Upper(if |hex| <= 8 then hex else hex[..8])
  }

  /** On lower-case hex digits the id is upper-case hex. */
  lemma NewIdHex(hex: string)
    requires forall i :: 0 <= i < |hex| ==> ('0' <= hex[i] <= '9' || 'a' <= hex[i] <= 'f')
    ensures var id := NewId(hex);
            forall i :: 4 <= i < |id| ==> ('0' <= id[i] <= '9' || 'A' <= id[i] <= 'F')
  {
  }
}
