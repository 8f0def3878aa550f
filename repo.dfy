/** The minimal JSON-backed job repository (services/api/repo.py).  The
    jobs file is the `jobs` sequence; the ISO timestamps `_now()` returns
    and the random ids are parameters. */
module Repo {
  import opened Wrappers
  import opened Text
  import opened Sorting

  datatype JobRecord = JobRecord(
    id: string,
    title: string,
    status: string,
    createdAt: string,
    updatedAt: string,
    startedAt: Option<string>,
    finishedAt: Option<string>,
    logs: seq<string>)

  /** The record `create_job` inserts. */
  function NewRecord(id: string, title: string, timestamp: string): (r: JobRecord)
    ensures r.status == "queued" && r.createdAt == r.updatedAt == timestamp
    ensures r.startedAt.None? && r.finishedAt.None? && |r.logs| == 1
  {
    JobRecord(id, title, "queued", timestamp, timestamp, None, None, [timestamp + " Job queued"])
  }

  /** The record after `update_status(job_id, status)` at `timestamp`. */
  function WithStatus(rec: JobRecord, status: string, timestamp: string): (r: JobRecord)
    ensures r.id == rec.id && r.title == rec.title && r.createdAt == rec.createdAt && r.logs == rec.logs
  {
    var started := if status == "running" && rec.startedAt.None? then Some(timestamp) else rec.startedAt;
    var finished := if status in {"ok", "failed"} then Some(timestamp) else rec.finishedAt;
    rec.(status := status, updatedAt := timestamp, startedAt := started, finishedAt := finished)
  }

  /** The record after `append_log(job_id, message)` at `timestamp`. */
  function WithLog(rec: JobRecord, message: string, timestamp: string): (r: JobRecord)
    ensures r.id == rec.id && r.status == rec.status
  {
    rec.(logs := rec.logs + [timestamp + " " + message], updatedAt := timestamp)
  }

  /** A status update stamps the record, sets `finished_at` on `ok` and
      `failed`, and sets `started_at` only on the first `running`. */
  lemma StatusRules(rec: JobRecord, status: string, timestamp: string)
    ensures var r := WithStatus(rec, status, timestamp);
            r.status == status && r.updatedAt == timestamp &&
            (rec.startedAt.Some? ==> r.startedAt == rec.startedAt) &&
            (status == "running" && rec.startedAt.None? ==> r.startedAt == Some(timestamp)) &&
            (status != "running" ==> r.startedAt == rec.startedAt) &&
            (status == "ok" || status == "failed" ==> r.finishedAt == Some(timestamp)) &&
            (status != "ok" && status != "failed" ==> r.finishedAt == rec.finishedAt)
  {
  }

  /** A sequence of status updates, each with its timestamp. */
  function ApplyStatuses(rec: JobRecord, updates: seq<(string, string)>): (r: JobRecord)
    ensures r.id == rec.id && r.logs == rec.logs
    decreases |updates|
  {
    if updates == [] then rec
    else ApplyStatuses(WithStatus(rec, updates[0].0, updates[0].1), updates[1..])
  }

  /** Once set, `started_at` is never overwritten, and any `running`
      update leaves it set. */
  lemma {:induction false} StartedAtOnce(rec: JobRecord, updates: seq<(string, string)>)
    ensures rec.startedAt.Some? ==> ApplyStatuses(rec, updates).startedAt == rec.startedAt
    ensures (rec.startedAt.Some? || exists k :: 0 <= k < |updates| && updates[k].0 == "running") ==>
            ApplyStatuses(rec, updates).startedAt.Some?
    decreases |updates|
  {
    if updates != [] {
      var next := WithStatus(rec, updates[0].0, updates[0].1);
      StartedAtOnce(next, updates[1..]);
      if exists k :: 0 <= k < |updates| && updates[k].0 == "running" {
        var k :| 0 <= k < |updates| && updates[k].0 == "running";
        if k > 0 {
          assert updates[1..][k - 1].0 == "running";
        }
      }
    }
  }

  /** A log entry goes at the end, after every earlier entry. */
  lemma LogAppended(rec: JobRecord, message: string, timestamp: string)
    ensures var r := WithLog(rec, message, timestamp);
            |r.logs| == |rec.logs| + 1 && r.logs[..|rec.logs|] == rec.logs &&
            r.logs[|rec.logs|] == timestamp + " " + message && r.updatedAt == timestamp
  {
    var r := WithLog(rec, message, timestamp);
    assert r.logs[..|rec.logs|] == rec.logs;
  }

  /** The index of the first record with `jobId`. */
  function FindRecord(jobs: seq<JobRecord>, jobId: string): (r: Option<nat>)
    ensures r.Some? ==> r.value < |jobs| && jobs[r.value].id == jobId &&
                        forall k :: 0 <= k < r.value ==> jobs[k].id != jobId
    ensures r.None? ==> forall k :: 0 <= k < |jobs| ==> jobs[k].id != jobId
  {
    if jobs == [] then None
    else if jobs[0].id == jobId then Some(0)
    else match FindRecord(jobs[1..], jobId)
      case Some(i) => Some(i + 1)
      case None => None
  }

  // ---- list_jobs ----

  /** Newest `created_at` text first, as `sorted(..., reverse=True)` on strings. */
  predicate CreatedLater(a: JobRecord, b: JobRecord) {
    StrLe(b.createdAt, a.createdAt)
  }

  lemma CreatedLaterOrder()
    ensures TotalPreorder(CreatedLater)
  {
    forall a: JobRecord, b: JobRecord
      ensures CreatedLater(a, b) || CreatedLater(b, a)
    {
      StrLeTotal(a.createdAt, b.createdAt);
    }
    forall a: JobRecord, b: JobRecord, c: JobRecord | CreatedLater(a, b) && CreatedLater(b, c)
      ensures CreatedLater(a, c)
    {
      StrLeTrans(c.createdAt, b.createdAt, a.createdAt);
    }
  }

  /** A Python slice bound: negative counts from the end, then clamped. */
  function SliceBound(i: int, n: nat): (b: nat)
    ensures b <= n
  {
    if i < 0 then (if i + n < 0 then 0 else i + n) else if i > n then n else i
  }

  /** `s[start:stop]`. */
  function PySlice<T>(s: seq<T>, start: int, stop: int): (r: seq<T>)
  {
    var a := SliceBound(start, |s|);
    var b := SliceBound(stop, |s|);
    if a < b then s[a..b] else []
  }

  /** `list_jobs(limit, offset)`. */
  function ListJobs(jobs: seq<JobRecord>, limit: int, offset: int): seq<JobRecord> {
    PySlice(Sort(jobs, CreatedLater), offset, offset + limit)
  }

  /** With non-negative arguments `list_jobs` is the window of at most
      `limit` records starting at `offset` of the newest-first order. */
  lemma ListJobsWindow(jobs: seq<JobRecord>, limit: int, offset: int)
    requires limit >= 0 && offset >= 0
    ensures var page := ListJobs(jobs, limit, offset);
            var sorted := Sort(jobs, CreatedLater);
            |page| <= limit &&
            (offset + limit <= |jobs| ==> page == sorted[offset..offset + limit]) &&
            (offset < |jobs| <= offset + limit ==> page == sorted[offset..]) &&
            (offset >= |jobs| ==> page == [])
  {
  }

  /** The order `list_jobs` pages through is newest first and holds every record. */
  lemma ListOrder(jobs: seq<JobRecord>)
    ensures multiset(Sort(jobs, CreatedLater)) == multiset(jobs)
    ensures Sorted(Sort(jobs, CreatedLater), CreatedLater)
  {
    CreatedLaterOrder();
    SortSorted(jobs, CreatedLater);
  }

  // ---- save_upload ----

  /** The path components `pathlib` keeps: no empty or `.` parts. */
  function Components(parts: seq<string>): (r: seq<string>)
    ensures forall i :: 0 <= i < |r| ==> r[i] != [] && r[i] != "." && r[i] in parts
  {
    if parts == [] then []
    else
      var rest := Components(parts[1..]);
      if parts[0] == [] || parts[0] == "." then rest else [parts[0]] + rest
  }

  /** `Path(filename).name`: the last kept component, or empty. */
  function BaseName(filename: string): (name: string)
    ensures '/' !in name
  {
    var parts := Components(SplitOn(filename, '/'));
    if parts == [] then [] else
      assert parts[|parts| - 1] in SplitOn(filename, '/');
      parts[|parts| - 1]
  }

  /** The stored name: `f"{uuid4().hex}_{safe_name}"`, with `safe_name`
      the base name or `"upload.bin"`. */
  function StoredName(filename: string, hex: string): (name: string)
    ensures |name| > |hex| + 1 && name[..|hex| + 1] == hex + "_"
  {
    var base := BaseName(filename);
    var safe := if base == [] then "upload.bin" else base;
    hex + "_" + safe
  }

  /** The stored name never escapes the upload directory: after the id and
      `_` it holds no `/`, whatever the client sent. */
  lemma StoredNameSafe(filename: string, hex: string)
    ensures '/' !in StoredName(filename, hex)[|hex| + 1..]
  {
    var base := BaseName(filename);
    var safe := if base == [] then "upload.bin" else base;
    assert StoredName(filename, hex)[|hex| + 1..] == safe;
  }

  /** A plain file name is kept as it is. */
  lemma StoredNamePlain(filename: string, hex: string)
    requires filename != [] && filename != "." && '/' !in filename
    ensures StoredName(filename, hex) == hex + "_" + filename
  {
    SplitOnAbsent(filename, '/');
  }

  class JobRepo {
    var jobs: seq<JobRecord>

    constructor(initial: seq<JobRecord>)
      ensures jobs == initial
    {
      jobs := initial;
    }

    /** `create_job(title)`: the new record goes in front. */
    method CreateJob(title: string, id: string, timestamp: string) returns (rec: JobRecord)
      modifies this
      ensures rec == NewRecord(id, title, timestamp)
      ensures jobs == [rec] + old(jobs)
    {
      rec := NewRecord(id, title, timestamp);
      jobs := [rec] + jobs;
    }

    /** `get_detail(job_id)`: the first record with the id, or `KeyError`. */
    method GetDetail(jobId: string) returns (r: Result<JobRecord>)
      ensures FindRecord(jobs, jobId).None? ==> r == Err(KeyError(jobId))
      ensures FindRecord(jobs, jobId).Some? ==> r == Ok(jobs[FindRecord(jobs, jobId).value])
    {
      var i := Find(jobId);
      if i.None? {
        return Err(KeyError(jobId));
      }
      return Ok(jobs[i.value]);
    }

    /** `_find(jobs, job_id)`, as an index. */
    method Find(jobId: string) returns (r: Option<nat>)
      ensures r == FindRecord(jobs, jobId)
    {
      var i := 0;
      while i < |jobs|
        invariant 0 <= i <= |jobs|
        invariant forall k :: 0 <= k < i ==> jobs[k].id != jobId
      {
        if jobs[i].id == jobId {
          assert FindRecord(jobs, jobId) == Some(i);
          return Some(i);
        }
        i := i + 1;
      }
      return None;
    }

    /** `update_status(job_id, status)` at `timestamp`; `KeyError`, and
        nothing saved, for an unknown id. */
    method UpdateStatus(jobId: string, status: string, timestamp: string) returns (r: Outcome)
      modifies this
      ensures FindRecord(old(jobs), jobId).None? ==> r == Fail(KeyError(jobId)) && jobs == old(jobs)
      ensures FindRecord(old(jobs), jobId).Some? ==>
                var i := FindRecord(old(jobs), jobId).value;
                r == Pass && jobs == old(jobs)[i := WithStatus(old(jobs)[i], status, timestamp)]
    {
      var i := Find(jobId);
      if i.None? {
        return Fail(KeyError(jobId));
      }
      jobs := jobs[i.value := WithStatus(jobs[i.value], status, timestamp)];
      return Pass;
    }

    /** `append_log(job_id, message)` at `timestamp`. */
    method AppendLog(jobId: string, message: string, timestamp: string) returns (r: Outcome)
      modifies this
      ensures FindRecord(old(jobs), jobId).None? ==> r == Fail(KeyError(jobId)) && jobs == old(jobs)
      ensures FindRecord(old(jobs), jobId).Some? ==>
                var i := FindRecord(old(jobs), jobId).value;
                r == Pass && jobs == old(jobs)[i := WithLog(old(jobs)[i], message, timestamp)]
    {
      var i := Find(jobId);
      if i.None? {
        return Fail(KeyError(jobId));
      }
      jobs := jobs[i.value := WithLog(jobs[i.value], message, timestamp)];
      return Pass;
    }

    /** `list_jobs(limit, offset)`. */
    method List(limit: int, offset: int) returns (page: seq<JobRecord>)
      ensures page == ListJobs(jobs, limit, offset)
    {
      var sorted := Sort(jobs, CreatedLater);
      page := PySlice(sorted, offset, offset + limit);
    }
  }
}
