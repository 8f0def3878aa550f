/** The integration endpoints (services/api/routes_integrations.py): which
    jobs a sync or a payment run takes, the approval gate in front of both,
    and the loops that post journal entries to freee or Yayoi and hand
    payments to the bank. */
module RoutesIntegrations {
  import opened Wrappers
  import opened Text
  import opened Values
  import opened Timestamps
  import opened Jobs
  import opened Ledger
  import Freee
  import Yayoi
  import Bank

  // ---- _select_jobs ----

  /** The jobs found for `ids`, in request order (duplicates kept). */
  function Found(jobs: seq<Job>, ids: seq<string>): (r: seq<Job>)
    ensures |r| <= |ids|
  {
    if ids == [] then []
    else
      Found(jobs, ids[..|ids| - 1]) +
      match FindJob(jobs, ids[|ids| - 1])
      case Some(k) => [jobs[k]]
      case None => []
  }

  /** The requested ids no job has, in request order. */
  function Missing(jobs: seq<Job>, ids: seq<string>): (r: seq<string>)
    ensures |r| <= |ids|
  {
    if ids == [] then []
    else
      Missing(jobs, ids[..|ids| - 1]) +
      if FindJob(jobs, ids[|ids| - 1]).None? then [ids[|ids| - 1]] else []
  }

  /** The jobs whose approval status is `approved`, in order. */
  function Approved(jobs: seq<Job>): (r: seq<Job>)
    ensures |r| <= |jobs|
  {
    if jobs == [] then []
    else (if jobs[0].approvalStatus == "approved" then [jobs[0]] else []) + Approved(jobs[1..])
  }

  /** `_select_jobs(job_store, job_ids)` on the stored jobs: a selection is
      never empty, and a selection by ids has one job per id. */
  function Select(jobs: seq<Job>, ids: seq<string>): (r: Result<seq<Job>>)
    ensures r.Ok? ==> r.value != []
    ensures r.Ok? && ids != [] ==> |r.value| == |ids|
  {
    assert ids != [] && Missing(jobs, ids) == [] ==> |Found(jobs, ids)| == |ids| by {
      if ids != [] && Missing(jobs, ids) == [] {
        FoundExact(jobs, ids);
      }
    }
    var selected := if ids != [] then Found(jobs, ids) else Approved(ListJobs(jobs));
    if ids != [] && Missing(jobs, ids) != [] then
      Err(HttpError(404, "Jobs not found: " + Join(", ", Missing(jobs, ids))))
    else if selected == [] then
      Err(HttpError(400, "No approved jobs available for syncing"))
    else Ok(selected)
  }

  /** Every unknown id is reported, and only unknown ids. */
  lemma {:induction false} MissingExact(jobs: seq<Job>, ids: seq<string>)
    ensures forall x :: x in Missing(jobs, ids) <==> x in ids && forall k :: 0 <= k < |jobs| ==> jobs[k].id != x
  {
    if ids != [] {
      var init := ids[..|ids| - 1];
      MissingExact(jobs, init);
      assert ids == init + [ids[|ids| - 1]];
    }
  }

  /** With every id known, the selection is one job per id, in request
      order, each the first stored job with that id. */
  lemma {:induction false} FoundExact(jobs: seq<Job>, ids: seq<string>)
    requires Missing(jobs, ids) == []
    ensures |Found(jobs, ids)| == |ids|
    ensures forall i :: 0 <= i < |ids| ==>
              FindJob(jobs, ids[i]).Some? && Found(jobs, ids)[i] == jobs[FindJob(jobs, ids[i]).value]
  {
    if ids != [] {
      var init := ids[..|ids| - 1];
      assert Missing(jobs, init) == [];
      FoundExact(jobs, init);
      assert forall i :: 0 <= i < |init| ==> ids[i] == init[i];
    }
  }

  /** The filter keeps exactly the approved jobs. */
  lemma {:induction false} ApprovedExact(jobs: seq<Job>)
    ensures forall j :: j in Approved(jobs) <==> j in jobs && j.approvalStatus == "approved"
  {
    if jobs != [] {
      ApprovedExact(jobs[1..]);
      assert jobs == [jobs[0]] + jobs[1..];
    }
  }

  /** Without ids, the selection is every approved job and nothing else. */
  lemma SelectApproved(jobs: seq<Job>)
    ensures Select(jobs, []).Ok? ==>
              forall j :: j in Select(jobs, []).value <==> j in jobs && j.approvalStatus == "approved"
    ensures Select(jobs, []).Err? <==> forall k :: 0 <= k < |jobs| ==> jobs[k].approvalStatus != "approved"
  {
    var listed := ListJobs(jobs);
    ListJobsSorted(jobs);
    ApprovedExact(listed);
    assert forall j :: j in listed <==> j in jobs by {
      forall j ensures j in listed <==> j in jobs {
        assert j in listed <==> j in multiset(listed);
      }
    }
    if Approved(listed) == [] {
      forall k | 0 <= k < |jobs| ensures jobs[k].approvalStatus != "approved" {
        assert jobs[k] in jobs;
      }
    } else {
      var j := Approved(listed)[0];
      assert j in Approved(listed);
      var k :| 0 <= k < |jobs| && jobs[k] == j;
    }
  }

  /** A selection is never empty, and every selected job is a stored job. */
  lemma SelectFromStore(jobs: seq<Job>, ids: seq<string>)
    requires Select(jobs, ids).Ok?
    ensures Select(jobs, ids).value != []
    ensures forall j :: j in Select(jobs, ids).value ==> j in jobs
  {
    if ids != [] {
      FoundExact(jobs, ids);
      forall j | j in Select(jobs, ids).value ensures j in jobs {
        var i :| 0 <= i < |ids| && Found(jobs, ids)[i] == j;
      }
    } else {
      SelectApproved(jobs);
    }
  }

  /** `_select_jobs(job_store, job_ids)`. */
  method SelectJobs(jobStore: JobStore, ids: seq<string>) returns (r: Result<seq<Job>>)
    ensures r == Select(jobStore.jobs, ids)
  {
    var selected: seq<Job>;
    if ids != [] {
      selected := [];
      var missing: seq<string> := [];
      for i := 0 to |ids|
        invariant selected == Found(jobStore.jobs, ids[..i])
        invariant missing == Missing(jobStore.jobs, ids[..i])
      {
        assert ids[..i + 1][..i] == ids[..i];
        var found := jobStore.GetJob(ids[i]);
        if found.Ok? {
          selected := selected + [found.value];
        } else {
          missing := missing + [ids[i]];
        }
      }
      assert ids[..|ids|] == ids;
      if missing != [] {
        return Err(HttpError(404, "Jobs not found: " + Join(", ", missing)));
      }
    } else {
      var listed := jobStore.ListAll();
      selected := Approved(listed);
    }
    if selected == [] {
      return Err(HttpError(400, "No approved jobs available for syncing"));
    }
    return Ok(selected);
  }

  // ---- _ensure_approved ----

  /** The ids of the jobs not yet approved, in order. */
  function NotReady(jobs: seq<Job>): (r: seq<string>)
    ensures |r| <= |jobs|
  {
    if jobs == [] then []
    else (if jobs[0].approvalStatus != "approved" then [jobs[0].id] else []) + NotReady(jobs[1..])
  }

  /** `_ensure_approved(jobs)`. */
  function EnsureApproved(jobs: seq<Job>): Outcome {
    if NotReady(jobs) != [] then Fail(HttpError(400, "Jobs require approval before sync: " + Join(", ", NotReady(jobs))))
    else Pass
  }

  /** The gate passes exactly when every job is approved, and a refusal
      names the id of every job that is not. */
  lemma {:induction false} EnsureApprovedExact(jobs: seq<Job>)
    ensures EnsureApproved(jobs).Pass? <==> forall k :: 0 <= k < |jobs| ==> jobs[k].approvalStatus == "approved"
    ensures forall k :: 0 <= k < |jobs| && jobs[k].approvalStatus != "approved" ==> jobs[k].id in NotReady(jobs)
    ensures forall x :: x in NotReady(jobs) ==> exists k :: 0 <= k < |jobs| && jobs[k].id == x && jobs[k].approvalStatus != "approved"
  {
    if jobs != [] {
      EnsureApprovedExact(jobs[1..]);
      forall k | 1 <= k < |jobs| ensures jobs[k] == jobs[1..][k - 1] { }
      forall x | x in NotReady(jobs)
        ensures exists k :: 0 <= k < |jobs| && jobs[k].id == x && jobs[k].approvalStatus != "approved"
      {
        if x in NotReady(jobs[1..]) {
          var k :| 0 <= k < |jobs[1..]| && jobs[1..][k].id == x && jobs[1..][k].approvalStatus != "approved";
          assert jobs[k + 1] == jobs[1..][k];
        }
      }
    }
  }

  /** What both sync routes and the payment route run first. */
  function Gate(jobs: seq<Job>, ids: seq<string>): Result<seq<Job>> {
    match Select(jobs, ids)
    case Err(e) => Err(e)
    case Ok(selected) =>
      match EnsureApproved(selected)
      case Fail(e) => Err(e)
      case Pass => Ok(selected)
  }

  /** A job that passes the gate is a stored, approved job. */
  lemma GatePassed(jobs: seq<Job>, ids: seq<string>)
    requires Gate(jobs, ids).Ok?
    ensures Gate(jobs, ids).value != []
    ensures forall j :: j in Gate(jobs, ids).value ==> j in jobs && j.approvalStatus == "approved"
  {
    var selected := Select(jobs, ids).value;
    SelectFromStore(jobs, ids);
    EnsureApprovedExact(selected);
  }

  /** `_select_jobs` followed by `_ensure_approved`. */
  method GateJobs(jobStore: JobStore, ids: seq<string>) returns (r: Result<seq<Job>>)
    ensures r == Gate(jobStore.jobs, ids)
  {
    r := SelectJobs(jobStore, ids);
    if r.Ok? {
      var check := EnsureApproved(r.value);
      if check.Fail? {
        r := Err(check.error);
      }
    }
  }

  // ---- the sync loops of sync_freee and sync_yayoi ----

  datatype App = FreeeApp | YayoiApp

  /** The `integration` name in receipts and the key under `metadata["sync"]`. */
  function AppName(app: App): string {
    match app
    case FreeeApp => "freee"
    case YayoiApp => "yayoi"
  }

  /** The id prefix of the app's ledger. */
  function Prefix(app: App): string {
    match app
    case FreeeApp => "freee-"
    case YayoiApp => "yayoi-"
  }

  /** The app's response to the `n`-th posted entry. */
  function AppResponse(app: App, n: nat): Dict {
    match app
    case FreeeApp => Freee.Response(n)
    case YayoiApp => Yayoi.Response(n)
  }

  /** A job is posted only when its `journal_entry` is truthy. */
  predicate Posts(job: Job) {
    job.journalEntry.Some? && job.journalEntry.value != map[]
  }

  /** `{"job_id": job.id, "integration": name, **response}`. */
  function Receipt(app: App, job: Job, response: Dict): Dict {
    Merge(map["job_id" := Str(job.id), "integration" := Str(AppName(app))], response)
  }

  /** `(job.metadata or {}).get("sync") or {}`, which then takes the item
      assignment: an object, or a fresh one for a falsy value; any other
      value cannot take it (`TypeError`). */
  function SyncMeta(metadata: Dict): Result<Dict> {
    var v := Get(metadata, "sync");
    if v.Obj? then Ok(v.fields)
    else if !Truthy(v) then Ok(map[])
    else Err(TypeError("'sync' metadata does not support item assignment"))
  }

  /** The loop's state: the job store, the app's ledger and the two lists
      the response is built from. */
  datatype SyncState = SyncState(store: seq<Job>, ledger: seq<Posted>, processed: seq<string>, receipts: seq<Dict>)

  /** A loop that ran to the end (`failure == None`) or stopped on an
      exception, with what it had written by then. */
  datatype Run = Run(state: SyncState, failure: Option<Error>)

  /** The `n`-th ledger entry, posted for `job`. */
  function PostedFor(app: App, n: nat, job: Job, stamp: string): Posted
  {
    Posted(SequentialId(Prefix(app), n), job.journalEntry.GetOr(map[]), stamp)
  }

  /** `set_metadata(job.id, sync=sync_meta)` after `sync_meta[name] = response`. */
  function SyncUpdate(app: App, meta: Dict, response: Dict): Dict {
    map["sync" := Obj(meta[AppName(app) := Obj(response)])]
  }

  /** One iteration for `job`: post its entry, note it, then merge the
      response into its `sync` metadata through `set_metadata`. */
  function SyncStep(app: App, job: Job, st: SyncState, now: DateTime, stamp: string): Run
  {
    if !Posts(job) then Run(st, None)
    else
      var n := |st.ledger| + 1;
      var response := AppResponse(app, n);
      var posted := st.(ledger := st.ledger + [PostedFor(app, n, job, stamp)],
                        processed := st.processed + [job.id],
                        receipts := st.receipts + [Receipt(app, job, response)]);
      AfterPost(app, job, posted, response, now)
  }

  /** The rest of a step once the entry is posted: the `sync` metadata
      takes the response, and the job's record is updated. */
  function AfterPost(app: App, job: Job, posted: SyncState, response: Dict, now: DateTime): Run {
    match SyncMeta(job.metadata)
    case Err(e) => Run(posted, Some(e))
    case Ok(meta) =>
      match Updated(posted.store, job.id, WithMetadata(SyncUpdate(app, meta, response)), now)
      case None => Run(posted, Some(KeyError(job.id)))
      case Some(store) => Run(posted.(store := store), None)
  }

  /** An iteration leaves a job without a truthy entry alone; for the
      others it appends the next ledger entry, the id and the receipt, and
      whatever it writes to the store keeps the stored ids. */
  lemma SyncStepShape(app: App, job: Job, st: SyncState, now: DateTime, stamp: string)
    ensures var run := SyncStep(app, job, st, now, stamp);
            (!Posts(job) ==> run == Run(st, None)) &&
            (Posts(job) ==>
               run.state.ledger == st.ledger + [PostedFor(app, |st.ledger| + 1, job, stamp)] &&
               run.state.processed == st.processed + [job.id] &&
               run.state.receipts == st.receipts + [Receipt(app, job, AppResponse(app, |st.ledger| + 1))]) &&
            SameIds(run.state.store, st.store) &&
            (run.failure.Some? <==> Posts(job) && (SyncMeta(job.metadata).Err? || FindJob(st.store, job.id).None?))
  {
    if Posts(job) && SyncMeta(job.metadata).Ok? {
      var meta := SyncMeta(job.metadata).value;
      UpdatedFrame(st.store, job.id, WithMetadata(SyncUpdate(app, meta, AppResponse(app, |st.ledger| + 1))), now);
    }
  }

  /** The loop over `jobs`, stopping at the first exception.  It only
      appends to the ledger, the processed ids and the receipts, at most
      one id per job. */
  function SyncRun(app: App, jobs: seq<Job>, st: SyncState, now: DateTime, stamp: string): (run: Run)
    ensures st.ledger <= run.state.ledger && st.processed <= run.state.processed && st.receipts <= run.state.receipts
    ensures |run.state.processed| <= |st.processed| + |jobs|
    decreases |jobs|
  {
    if jobs == [] then Run(st, None)
    else
      var prev := SyncRun(app, jobs[..|jobs| - 1], st, now, stamp);
      if prev.failure.Some? then prev
      else
        SyncStepShape(app, jobs[|jobs| - 1], prev.state, now, stamp);
        SyncStep(app, jobs[|jobs| - 1], prev.state, now, stamp)
  }

  datatype SyncResponse = SyncResponse(processed: seq<string>, receipts: seq<Dict>)

  /** The route's answer for a run. */
  function Answer(run: Run): Result<SyncResponse> {
    match run.failure
    case Some(e) => Err(e)
    case None => Ok(SyncResponse(run.state.processed, run.state.receipts))
  }

  /** While the loop has not failed, one more job is one more step. */
  lemma SyncRunNext(app: App, jobs: seq<Job>, i: nat, st: SyncState, now: DateTime, stamp: string)
    requires i < |jobs| && SyncRun(app, jobs[..i], st, now, stamp).failure.None?
    ensures SyncRun(app, jobs[..i + 1], st, now, stamp) ==
            SyncStep(app, jobs[i], SyncRun(app, jobs[..i], st, now, stamp).state, now, stamp)
  {
    assert jobs[..i + 1][..i] == jobs[..i];
  }

  /** A run that has not failed is its last step after the run of the jobs before. */
  lemma SyncRunLast(app: App, jobs: seq<Job>, st: SyncState, now: DateTime, stamp: string)
    requires jobs != [] && SyncRun(app, jobs, st, now, stamp).failure.None?
    ensures SyncRun(app, jobs[..|jobs| - 1], st, now, stamp).failure.None?
    ensures SyncRun(app, jobs, st, now, stamp) ==
            SyncStep(app, jobs[|jobs| - 1], SyncRun(app, jobs[..|jobs| - 1], st, now, stamp).state, now, stamp)
  {
  }

  /** Once the loop has failed, the later jobs are not looked at. */
  lemma {:induction false} SyncRunStops(app: App, jobs: seq<Job>, n: nat, st: SyncState, now: DateTime, stamp: string)
    requires n <= |jobs| && SyncRun(app, jobs[..n], st, now, stamp).failure.Some?
    ensures SyncRun(app, jobs, st, now, stamp) == SyncRun(app, jobs[..n], st, now, stamp)
    decreases |jobs| - n
  {
    if n < |jobs| {
      var init := jobs[..|jobs| - 1];
      assert init[..n] == jobs[..n];
      SyncRunStops(app, init, n, st, now, stamp);
    } else {
      assert jobs[..n] == jobs;
    }
  }

  /** The jobs whose entries are posted, in order. */
  function Posting(jobs: seq<Job>): (r: seq<Job>)
    ensures |r| <= |jobs|
    ensures forall k :: 0 <= k < |r| ==> Posts(r[k])
  {
    if jobs == [] then []
    else Posting(jobs[..|jobs| - 1]) + if Posts(jobs[|jobs| - 1]) then [jobs[|jobs| - 1]] else []
  }

  /** The ids of the given jobs. */
  function Ids(jobs: seq<Job>): (r: seq<string>)
    ensures |r| == |jobs| && forall k :: 0 <= k < |jobs| ==> r[k] == jobs[k].id
  {
    seq(|jobs|, k requires 0 <= k < |jobs| => jobs[k].id)
  }

  /** The ledger entries posted for `jobs` after `n0` existing ones. */
  function Entries(app: App, n0: nat, jobs: seq<Job>, stamp: string): (r: seq<Posted>)
    ensures |r| == |jobs|
  {
    if jobs == [] then []
    else Entries(app, n0, jobs[..|jobs| - 1], stamp) + [PostedFor(app, n0 + |jobs|, jobs[|jobs| - 1], stamp)]
  }

  /** The receipts for `jobs` after `n0` existing ledger entries. */
  function Receipts(app: App, n0: nat, jobs: seq<Job>): (r: seq<Dict>)
    ensures |r| == |jobs|
  {
    if jobs == [] then []
    else Receipts(app, n0, jobs[..|jobs| - 1]) + [Receipt(app, jobs[|jobs| - 1], AppResponse(app, n0 + |jobs|))]
  }

  lemma IdsAppend(p: seq<Job>, job: Job)
    ensures Ids(p + [job]) == Ids(p) + [job.id]
  {
  }

  lemma EntriesAppend(app: App, n0: nat, p: seq<Job>, job: Job, stamp: string)
    ensures Entries(app, n0, p + [job], stamp) == Entries(app, n0, p, stamp) + [PostedFor(app, n0 + |p| + 1, job, stamp)]
  {
    assert (p + [job])[..|p|] == p;
  }

  /** The receipt depends on the entry number only through its value. */
  lemma ReceiptAt(app: App, job: Job, a: nat, b: nat)
    requires a == b
    ensures Receipt(app, job, AppResponse(app, a)) == Receipt(app, job, AppResponse(app, b))
  {
  }

  lemma ReceiptsAppend(app: App, n0: nat, p: seq<Job>, job: Job, n: nat)
    requires n == n0 + |p| + 1
    ensures Receipts(app, n0, p + [job]) == Receipts(app, n0, p) + [Receipt(app, job, AppResponse(app, n))]
  {
    var q := p + [job];
    assert q[..|q| - 1] == p && q[|q| - 1] == job;
    ReceiptAt(app, job, n0 + |q|, n);
  }

  /** A loop that ran to the end processed exactly the jobs with a truthy
      journal entry, in order: one ledger entry with the next id and the
      job's journal entry as payload for each, and one receipt each. */
  lemma SyncRunPosts(app: App, jobs: seq<Job>, st: SyncState, now: DateTime, stamp: string)
    requires SyncRun(app, jobs, st, now, stamp).failure.None?
    ensures var run := SyncRun(app, jobs, st, now, stamp).state;
            var posting := Posting(jobs);
            run.processed == st.processed + Ids(posting) &&
            run.ledger == st.ledger + Entries(app, |st.ledger|, posting, stamp) &&
            run.receipts == st.receipts + Receipts(app, |st.ledger|, posting)
  {
    SyncRunProcessed(app, jobs, st, now, stamp);
    SyncRunLedger(app, jobs, st, now, stamp);
    SyncRunReceipts(app, jobs, st, now, stamp);
  }

  lemma {:induction false} SyncRunProcessed(app: App, jobs: seq<Job>, st: SyncState, now: DateTime, stamp: string)
    requires SyncRun(app, jobs, st, now, stamp).failure.None?
    ensures SyncRun(app, jobs, st, now, stamp).state.processed == st.processed + Ids(Posting(jobs))
    decreases |jobs|
  {
    if jobs != [] {
      var init := jobs[..|jobs| - 1];
      var job := jobs[|jobs| - 1];
      var prev := SyncRun(app, init, st, now, stamp).state;
      SyncRunProcessed(app, init, st, now, stamp);
      SyncStepShape(app, job, prev, now, stamp);
      var p := Posting(init);
      if Posts(job) {
        assert Posting(jobs) == p + [job];
        IdsAppend(p, job);
        Assoc(st.processed, Ids(p), [job.id]);
      } else {
        assert Posting(jobs) == p;
      }
    } else {
      assert st.processed + [] == st.processed;
    }
  }

  lemma {:induction false} SyncRunLedger(app: App, jobs: seq<Job>, st: SyncState, now: DateTime, stamp: string)
    requires SyncRun(app, jobs, st, now, stamp).failure.None?
    ensures SyncRun(app, jobs, st, now, stamp).state.ledger == st.ledger + Entries(app, |st.ledger|, Posting(jobs), stamp)
    decreases |jobs|
  {
    if jobs != [] {
      var init := jobs[..|jobs| - 1];
      var job := jobs[|jobs| - 1];
      var prev := SyncRun(app, init, st, now, stamp).state;
      SyncRunLast(app, jobs, st, now, stamp);
      SyncRunLedger(app, init, st, now, stamp);
      var p := Posting(init);
      if Posts(job) {
        assert Posting(jobs) == p + [job];
        var n := |st.ledger| + |p| + 1;
        StepLedger(app, job, prev, st.ledger, Entries(app, |st.ledger|, p, stamp), n, now, stamp);
        LedgerSnoc(app, st.ledger, |st.ledger|, p, job, stamp);
      } else {
        assert Posting(jobs) == p;
        assert SyncStep(app, job, prev, now, stamp) == Run(prev, None);
      }
    } else {
      assert st.ledger + [] == st.ledger;
    }
  }

  lemma {:induction false} SyncRunReceipts(app: App, jobs: seq<Job>, st: SyncState, now: DateTime, stamp: string)
    requires SyncRun(app, jobs, st, now, stamp).failure.None?
    ensures SyncRun(app, jobs, st, now, stamp).state.receipts == st.receipts + Receipts(app, |st.ledger|, Posting(jobs))
    decreases |jobs|
  {
    if jobs != [] {
      var init := jobs[..|jobs| - 1];
      var job := jobs[|jobs| - 1];
      var prev := SyncRun(app, init, st, now, stamp).state;
      SyncRunReceipts(app, init, st, now, stamp);
      SyncRunLedger(app, init, st, now, stamp);
      var p := Posting(init);
      assert |prev.ledger| == |st.ledger| + |p|;
      assert SyncRun(app, jobs, st, now, stamp).state == SyncStep(app, job, prev, now, stamp).state;
      if Posts(job) {
        assert Posting(jobs) == p + [job];
        var n := |st.ledger| + |p| + 1;
        var c := Receipts(app, |st.ledger|, p);
        StepReceipt(app, job, prev, st.receipts, c, n, now, stamp);
        ReceiptsSnoc(app, st.receipts, |st.ledger|, p, job, n);
      } else {
        assert Posting(jobs) == p;
        assert SyncStep(app, job, prev, now, stamp) == Run(prev, None);
      }
    } else {
      assert st.receipts + [] == st.receipts;
    }
  }

  lemma LedgerSnoc(app: App, l0: seq<Posted>, n0: nat, p: seq<Job>, job: Job, stamp: string)
    ensures l0 + Entries(app, n0, p, stamp) + [PostedFor(app, n0 + |p| + 1, job, stamp)] == l0 + Entries(app, n0, p + [job], stamp)
  {
    EntriesAppend(app, n0, p, job, stamp);
    Assoc(l0, Entries(app, n0, p, stamp), [PostedFor(app, n0 + |p| + 1, job, stamp)]);
  }

  lemma ReceiptsSnoc(app: App, r0: seq<Dict>, n0: nat, p: seq<Job>, job: Job, n: nat)
    requires n == n0 + |p| + 1
    ensures r0 + Receipts(app, n0, p) + [Receipt(app, job, AppResponse(app, n))] == r0 + Receipts(app, n0, p + [job])
  {
    ReceiptsAppend(app, n0, p, job, n);
    Assoc(r0, Receipts(app, n0, p), [Receipt(app, job, AppResponse(app, n))]);
  }

  /** The ledger after a step for a job that posts. */
  lemma StepLedger(app: App, job: Job, st: SyncState, l0: seq<Posted>, c: seq<Posted>, n: nat, now: DateTime, stamp: string)
    requires Posts(job) && n == |st.ledger| + 1 && st.ledger == l0 + c
    ensures SyncStep(app, job, st, now, stamp).state.ledger == l0 + c + [PostedFor(app, n, job, stamp)]
  {
  }

  /** The receipts after a step for a job that posts. */
  lemma StepReceipt(app: App, job: Job, st: SyncState, r0: seq<Dict>, c: seq<Dict>, n: nat, now: DateTime, stamp: string)
    requires Posts(job) && n == |st.ledger| + 1 && st.receipts == r0 + c
    ensures SyncStep(app, job, st, now, stamp).state.receipts == r0 + c + [Receipt(app, job, AppResponse(app, n))]
  {
  }

  /** Same length and the same id at every position. */
  predicate SameIds(a: seq<Job>, b: seq<Job>) {
    |a| == |b| && forall k :: 0 <= k < |a| ==> a[k].id == b[k].id
  }

  /** The loop only merges metadata, so the stored ids stay as they were. */
  lemma {:induction false} SyncRunKeepsIds(app: App, jobs: seq<Job>, st: SyncState, now: DateTime, stamp: string)
    ensures SameIds(SyncRun(app, jobs, st, now, stamp).state.store, st.store)
    decreases |jobs|
  {
    if jobs != [] {
      var init := jobs[..|jobs| - 1];
      SyncRunKeepsIds(app, init, st, now, stamp);
      SyncStepShape(app, jobs[|jobs| - 1], SyncRun(app, init, st, now, stamp).state, now, stamp);
    }
  }

  /** The loop runs to the end when every job is stored and no posted
      job's `sync` metadata is a truthy non-object. */
  lemma {:induction false} SyncRunSucceeds(app: App, jobs: seq<Job>, st: SyncState, now: DateTime, stamp: string)
    requires forall j :: j in jobs ==> exists k :: 0 <= k < |st.store| && st.store[k].id == j.id
    requires forall j :: j in jobs && Posts(j) ==> SyncMeta(j.metadata).Ok?
    ensures SyncRun(app, jobs, st, now, stamp).failure.None?
    decreases |jobs|
  {
    if jobs != [] {
      var init := jobs[..|jobs| - 1];
      var job := jobs[|jobs| - 1];
      assert forall j :: j in init ==> j in jobs;
      SyncRunSucceeds(app, init, st, now, stamp);
      SyncRunKeepsIds(app, init, st, now, stamp);
      var prev := SyncRun(app, init, st, now, stamp).state;
      assert job in jobs;
      var k :| 0 <= k < |st.store| && st.store[k].id == job.id;
      assert prev.store[k].id == job.id;
      SyncStepSucceeds(app, job, prev, now, stamp, k);
      assert SyncRun(app, jobs, st, now, stamp) == SyncStep(app, job, prev, now, stamp);
    }
  }

  /** A step fails only on a job missing from the store or a posted job
      whose `sync` metadata is a truthy non-object. */
  lemma SyncStepSucceeds(app: App, job: Job, st: SyncState, now: DateTime, stamp: string, k: nat)
    requires k < |st.store| && st.store[k].id == job.id
    requires Posts(job) ==> SyncMeta(job.metadata).Ok?
    ensures SyncStep(app, job, st, now, stamp).failure.None?
  {
    if Posts(job) {
      var n := |st.ledger| + 1;
      var response := AppResponse(app, n);
      var posted := st.(ledger := st.ledger + [PostedFor(app, n, job, stamp)],
                        processed := st.processed + [job.id],
                        receipts := st.receipts + [Receipt(app, job, response)]);
      assert SyncStep(app, job, st, now, stamp) == AfterPost(app, job, posted, response, now);
      var meta := SyncMeta(job.metadata).value;
      UpdatedFrame(posted.store, job.id, WithMetadata(SyncUpdate(app, meta, response)), now);
      assert posted.store[k].id == job.id;
    }
  }

  /** A sync of approved jobs whose `sync` metadata is an object or falsy
      answers with the ids of exactly those selected jobs that have a
      truthy journal entry, in order. */
  lemma SyncAnswer(app: App, jobs: seq<Job>, ledger: seq<Posted>, ids: seq<string>, now: DateTime, stamp: string)
    requires Gate(jobs, ids).Ok?
    requires forall k :: 0 <= k < |jobs| && Posts(jobs[k]) ==> SyncMeta(jobs[k].metadata).Ok?
    ensures var selected := Gate(jobs, ids).value;
            var answer := Answer(SyncRun(app, selected, SyncState(jobs, ledger, [], []), now, stamp));
            answer.Ok? && answer.value.processed == Ids(Posting(selected)) &&
            answer.value.receipts == Receipts(app, |ledger|, Posting(selected))
  {
    var selected := Gate(jobs, ids).value;
    var st := SyncState(jobs, ledger, [], []);
    GatePassed(jobs, ids);
    forall j | j in selected ensures exists k :: 0 <= k < |st.store| && st.store[k].id == j.id {
      var k :| 0 <= k < |jobs| && jobs[k] == j;
    }
    forall j | j in selected && Posts(j) ensures SyncMeta(j.metadata).Ok? {
      var k :| 0 <= k < |jobs| && jobs[k] == j;
    }
    SyncRunSucceeds(app, selected, st, now, stamp);
    SyncRunPosts(app, selected, st, now, stamp);
  }

  /** One iteration of `sync_freee`'s loop for `job`. */
  method FreeeStep(jobStore: JobStore, freee: Freee.FreeeClient, job: Job, processed: seq<string>, receipts: seq<Dict>,
                     now: DateTime) returns (processed': seq<string>, receipts': seq<Dict>, failure: Option<Error>)
    requires Valid(now)
    modifies jobStore, freee
    ensures SyncStep(FreeeApp, job, SyncState(old(jobStore.jobs), old(freee.entries), processed, receipts), now, IsoFormat(now)) ==
            Run(SyncState(jobStore.jobs, freee.entries, processed', receipts'), failure)
    ensures freee.tokenFile == old(freee.tokenFile)
  {
    processed', receipts', failure := processed, receipts, None;
    if !Posts(job) {
      return;
    }
    ghost var st := SyncState(jobStore.jobs, freee.entries, processed, receipts);
    ghost var n := |st.ledger| + 1;
    var response := freee.PostJournalEntry(job.journalEntry.value, now);
    assert response == AppResponse(FreeeApp, n);
    assert freee.entries == st.ledger + [PostedFor(FreeeApp, n, job, IsoFormat(now))];
    processed' := processed + [job.id];
    receipts' := receipts + [Receipt(FreeeApp, job, response)];
    ghost var posted := SyncState(st.store, freee.entries, processed', receipts');
    assert SyncStep(FreeeApp, job, st, now, IsoFormat(now)) == AfterPost(FreeeApp, job, posted, response, now);
    var meta := SyncMeta(job.metadata);
    if meta.Err? {
      failure := Some(meta.error);
      return;
    }
    var updated := jobStore.SetMetadata(job.id, SyncUpdate(FreeeApp, meta.value, response), now);
    if updated.Err? {
      failure := Some(updated.error);
    }
  }

  /** `sync_freee(payload)` at `now`. */
  method SyncFreee(jobStore: JobStore, freee: Freee.FreeeClient, ids: seq<string>, now: DateTime)
    returns (r: Result<SyncResponse>)
    requires Valid(now)
    modifies jobStore, freee
    ensures Gate(old(jobStore.jobs), ids).Err? ==>
              r == Err(Gate(old(jobStore.jobs), ids).error) &&
              jobStore.jobs == old(jobStore.jobs) && freee.entries == old(freee.entries)
    ensures Gate(old(jobStore.jobs), ids).Ok? ==>
              var run := SyncRun(FreeeApp, Gate(old(jobStore.jobs), ids).value,
                                 SyncState(old(jobStore.jobs), old(freee.entries), [], []), now, IsoFormat(now));
              jobStore.jobs == run.state.store && freee.entries == run.state.ledger && r == Answer(run)
    ensures freee.tokenFile == old(freee.tokenFile)
  {
    var selected := GateJobs(jobStore, ids);
    if selected.Err? {
      return Err(selected.error);
    }
    var jobs := selected.value;
    ghost var st := SyncState(jobStore.jobs, freee.entries, [], []);
    var processed: seq<string> := [];
    var receipts: seq<Dict> := [];
    for i := 0 to |jobs|
      invariant SyncRun(FreeeApp, jobs[..i], st, now, IsoFormat(now)) ==
                Run(SyncState(jobStore.jobs, freee.entries, processed, receipts), None)
      invariant freee.tokenFile == old(freee.tokenFile)
    {
      SyncRunNext(FreeeApp, jobs, i, st, now, IsoFormat(now));
      var failure;
      processed, receipts, failure := FreeeStep(jobStore, freee, jobs[i], processed, receipts, now);
      if failure.Some? {
        SyncRunStops(FreeeApp, jobs, i + 1, st, now, IsoFormat(now));
        return Err(failure.value);
      }
    }
    assert jobs[..|jobs|] == jobs;
    r := Ok(SyncResponse(processed, receipts));
  }

  /** One iteration of `sync_yayoi`'s loop for `job`. */
  method YayoiStep(jobStore: JobStore, yayoi: Yayoi.YayoiClient, job: Job, processed: seq<string>, receipts: seq<Dict>,
                     now: DateTime) returns (processed': seq<string>, receipts': seq<Dict>, failure: Option<Error>)
    requires Valid(now)
    modifies jobStore, yayoi
    ensures SyncStep(YayoiApp, job, SyncState(old(jobStore.jobs), old(yayoi.entries), processed, receipts), now, IsoFormat(now)) ==
            Run(SyncState(jobStore.jobs, yayoi.entries, processed', receipts'), failure)
    ensures yayoi.tokenFile == old(yayoi.tokenFile)
  {
    processed', receipts', failure := processed, receipts, None;
    if !Posts(job) {
      return;
    }
    ghost var st := SyncState(jobStore.jobs, yayoi.entries, processed, receipts);
    ghost var n := |st.ledger| + 1;
    var response := yayoi.PostJournalEntry(job.journalEntry.value, now);
    assert response == AppResponse(YayoiApp, n);
    assert yayoi.entries == st.ledger + [PostedFor(YayoiApp, n, job, IsoFormat(now))];
    processed' := processed + [job.id];
    receipts' := receipts + [Receipt(YayoiApp, job, response)];
    ghost var posted := SyncState(st.store, yayoi.entries, processed', receipts');
    assert SyncStep(YayoiApp, job, st, now, IsoFormat(now)) == AfterPost(YayoiApp, job, posted, response, now);
    var meta := SyncMeta(job.metadata);
    if meta.Err? {
      failure := Some(meta.error);
      return;
    }
    var updated := jobStore.SetMetadata(job.id, SyncUpdate(YayoiApp, meta.value, response), now);
    if updated.Err? {
      failure := Some(updated.error);
    }
  }

  /** `sync_yayoi(payload)` at `now`. */
  method SyncYayoi(jobStore: JobStore, yayoi: Yayoi.YayoiClient, ids: seq<string>, now: DateTime)
    returns (r: Result<SyncResponse>)
    requires Valid(now)
    modifies jobStore, yayoi
    ensures Gate(old(jobStore.jobs), ids).Err? ==>
              r == Err(Gate(old(jobStore.jobs), ids).error) &&
              jobStore.jobs == old(jobStore.jobs) && yayoi.entries == old(yayoi.entries)
    ensures Gate(old(jobStore.jobs), ids).Ok? ==>
              var run := SyncRun(YayoiApp, Gate(old(jobStore.jobs), ids).value,
                                 SyncState(old(jobStore.jobs), old(yayoi.entries), [], []), now, IsoFormat(now));
              jobStore.jobs == run.state.store && yayoi.entries == run.state.ledger && r == Answer(run)
    ensures yayoi.tokenFile == old(yayoi.tokenFile)
  {
    var selected := GateJobs(jobStore, ids);
    if selected.Err? {
      return Err(selected.error);
    }
    var jobs := selected.value;
    ghost var st := SyncState(jobStore.jobs, yayoi.entries, [], []);
    var processed: seq<string> := [];
    var receipts: seq<Dict> := [];
    for i := 0 to |jobs|
      invariant SyncRun(YayoiApp, jobs[..i], st, now, IsoFormat(now)) ==
                Run(SyncState(jobStore.jobs, yayoi.entries, processed, receipts), None)
      invariant yayoi.tokenFile == old(yayoi.tokenFile)
    {
      SyncRunNext(YayoiApp, jobs, i, st, now, IsoFormat(now));
      var failure;
      processed, receipts, failure := YayoiStep(jobStore, yayoi, jobs[i], processed, receipts, now);
      if failure.Some? {
        SyncRunStops(YayoiApp, jobs, i + 1, st, now, IsoFormat(now));
        return Err(failure.value);
      }
    }
    assert jobs[..|jobs|] == jobs;
    r := Ok(SyncResponse(processed, receipts));
  }
  // ---- execute_payments ----

  /** `job.journal_entry or {}`. */
  function EntryOf(job: Job): Dict {
    job.journalEntry.GetOr(map[])
  }

  /** The payment requested for `job`. */
  function Payment(job: Job): Dict {
    var entry := EntryOf(job);
    map["job_id" := Str(job.id),
        "vendor" := Get(entry, "vendor"),
        "amount" := Or(Get(entry, "amount"), Get(entry, "amount_gross")),
        "account" := Get(entry, "credit_account")]
  }

  /** The payments for `jobs`, one per job, in order. */
  function Payments(jobs: seq<Job>): (r: seq<Dict>)
    ensures |r| == |jobs| && forall k :: 0 <= k < |jobs| ==> r[k] == Payment(jobs[k])
  {
    seq(|jobs|, k requires 0 <= k < |jobs| => Payment(jobs[k]))
  }

  /** The payment's fields: the job's id, the entry's vendor and credit
      account, and its `amount` when truthy, else its `amount_gross`. */
  lemma PaymentFields(job: Job)
    ensures var p, e := Payment(job), EntryOf(job);
            "job_id" in p && p["job_id"] == Str(job.id) &&
            "vendor" in p && p["vendor"] == Get(e, "vendor") &&
            "account" in p && p["account"] == Get(e, "credit_account") &&
            "amount" in p && p["amount"] == (if Truthy(Get(e, "amount")) then Get(e, "amount") else Get(e, "amount_gross"))
  {
  }

  /** The loop of `execute_payments`: one payment and one processed id per
      job, in order. */
  method BuildPayments(jobs: seq<Job>) returns (payments: seq<Dict>, processed: seq<string>)
    ensures payments == Payments(jobs) && processed == Ids(jobs)
  {
    payments, processed := [], [];
    for i := 0 to |jobs|
      invariant |payments| == |processed| == i
      invariant forall k :: 0 <= k < i ==> payments[k] == Payment(jobs[k]) && processed[k] == jobs[k].id
    {
      payments := payments + [Payment(jobs[i])];
      processed := processed + [jobs[i].id];
    }
  }

  datatype PaymentResponse = PaymentResponse(batchId: string, processed: seq<string>, requestedAt: DateTime)

  /** `execute_payments(payload)` at `now`: every gated job gets one
      payment in a single new bank batch, and the response names the batch,
      the jobs and the request time. */
  method ExecutePayments(jobStore: JobStore, bank: Bank.BankClient, ids: seq<string>, now: DateTime)
    returns (r: Result<PaymentResponse>)
    requires Valid(now)
    modifies bank
    ensures Gate(jobStore.jobs, ids).Err? ==> r == Err(Gate(jobStore.jobs, ids).error) && bank.batches == old(bank.batches)
    ensures Gate(jobStore.jobs, ids).Ok? ==>
              var selected := Gate(jobStore.jobs, ids).value;
              var id := SequentialId("batch-", |old(bank.batches)| + 1);
              bank.batches == old(bank.batches) + [Bank.Batch(id, IsoFormat(now), Payments(selected))] &&
              r == Ok(PaymentResponse(id, Ids(selected), now))
  {
    var selected := GateJobs(jobStore, ids);
    if selected.Err? {
      return Err(selected.error);
    }
    var payments, processed := BuildPayments(selected.value);
    var receipt := bank.ExecutePayments(payments, now);
    IsoFormatRoundTrip(now);
    var requestedAt := FromIsoFormat(receipt.requestedAt);
    r := Ok(PaymentResponse(receipt.batchId, processed, requestedAt.value));
  }
}
