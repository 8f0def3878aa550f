/** The approvals endpoints (services/api/routes_approvals.py): approving or
    rejecting a job records an approval event and mirrors it onto the job. */
module RoutesApprovals {
  import opened Wrappers
  import opened Values
  import opened Timestamps
  import opened Approvals
  import opened Jobs

  datatype EventModel = EventModel(action: string, actor: string, recordedAt: DateTime, note: Option<string>)

  datatype RecordModel = RecordModel(jobId: string, status: string, updatedAt: DateTime, history: seq<EventModel>)

  /** `_to_event_model(event)`. */
  function ToEventModel(ev: ApprovalEvent): EventModel {
    EventModel(ev.action, ev.actor, ev.recordedAt, ev.note)
  }

  function ToEventModels(evs: seq<ApprovalEvent>): (r: seq<EventModel>)
    ensures |r| == |evs| && forall i :: 0 <= i < |evs| ==> r[i] == ToEventModel(evs[i])
  {
    if evs == [] then [] else [ToEventModel(evs[0])] + ToEventModels(evs[1..])
  }

  /** `_to_record_model(record)`. */
  function ToRecordModel(rec: ApprovalRecord): RecordModel {
    RecordModel(rec.jobId, rec.status, rec.updatedAt, ToEventModels(rec.history))
  }

  /** The response model keeps the job, the status and every event, in order. */
  lemma RecordModelFaithful(rec: ApprovalRecord)
    ensures var m := ToRecordModel(rec);
            m.jobId == rec.jobId && m.status == rec.status && m.updatedAt == rec.updatedAt &&
            |m.history| == |rec.history| &&
            forall i :: 0 <= i < |rec.history| ==>
              m.history[i].action == rec.history[i].action && m.history[i].actor == rec.history[i].actor &&
              m.history[i].recordedAt == rec.history[i].recordedAt && m.history[i].note == rec.history[i].note
  {
  }

  /** `list_approvals`: the records newest first, as response models. */
  function ListApprovals(records: seq<ApprovalRecord>): seq<RecordModel> {
    var all := ListAll(records);
    seq(|all|, i requires 0 <= i < |all| => ToRecordModel(all[i]))
  }

  /** `list_approvals` answers one model per stored record, most recently
      updated first, each faithful to its record. */
  lemma ListApprovalsNewestFirst(records: seq<ApprovalRecord>)
    ensures var r := ListApprovals(records);
            |r| == |records| &&
            (forall i, j :: 0 <= i < j < |r| ==> AtMost(r[j].updatedAt, r[i].updatedAt)) &&
            forall i :: 0 <= i < |r| ==> r[i].jobId == ListAll(records)[i].jobId && r[i].status == ListAll(records)[i].status
  {
    ListAllSorted(records);
  }

  /** The job status `_sync_job` sets for a record's status, if any. */
  function StatusForJob(status: string): Option<string> {
    if status == "approved" then Some("approved")
    else if status == "rejected" then Some("rejected")
    else None
  }

  /** The jobs after `_sync_job(job_store, record)` at `now`: the approval
      fields are written, then the job status follows an approval or a
      rejection.  `None` is the `KeyError` of an unknown job. */
  function Synced(jobs: seq<Job>, rec: ApprovalRecord, now: DateTime): Option<seq<Job>>
    requires forall i :: 0 <= i < |rec.history| ==> Valid(rec.history[i].recordedAt)
  {
    match Updated(jobs, rec.jobId, WithApproval(rec.status, EventsToDicts(rec.history)), now)
    case None => None
    case Some(marked) =>
      match StatusForJob(rec.status)
      case None => Some(marked)
      case Some(s) => Updated(marked, rec.jobId, WithStatus(s, None), now)
  }

  /** `_sync_job` on a known job: that job carries the record's status as
      its approval status; its job status becomes `approved`/`rejected`
      when the record is so and stays as it was when the record is pending;
      the other jobs are unchanged. */
  lemma SyncedJob(jobs: seq<Job>, rec: ApprovalRecord, now: DateTime)
    requires forall i :: 0 <= i < |rec.history| ==> Valid(rec.history[i].recordedAt)
    requires FindJob(jobs, rec.jobId).Some?
    ensures var i := FindJob(jobs, rec.jobId).value;
            var after := Synced(jobs, rec, now);
            after.Some? && |after.value| == |jobs| &&
            after.value[i].approvalStatus == rec.status &&
            (rec.status == "approved" ==> after.value[i].status == "approved") &&
            (rec.status == "rejected" ==> after.value[i].status == "rejected") &&
            (rec.status != "approved" && rec.status != "rejected" ==> after.value[i].status == jobs[i].status) &&
            forall k :: 0 <= k < |jobs| && k != i ==> after.value[k] == jobs[k]
  {
    var i := FindJob(jobs, rec.jobId).value;
    var f := WithApproval(rec.status, EventsToDicts(rec.history));
    UpdatedFrame(jobs, rec.jobId, f, now);
    var marked := Updated(jobs, rec.jobId, f, now).value;
    assert forall k :: 0 <= k < |jobs| ==> marked[k].id == jobs[k].id;
    assert FindJob(marked, rec.jobId) == Some(i);
    match StatusForJob(rec.status)
    case None =>
    case Some(s) =>
      UpdatedFrame(marked, rec.jobId, WithStatus(s, None), now);
  }

  /** Every record's times can be written, as every loaded record's can. */
  predicate StoreWritable(records: seq<ApprovalRecord>) {
    forall i :: 0 <= i < |records| ==> Approvals.Writable(records[i])
  }

  lemma UpsertWritable(records: seq<ApprovalRecord>, jobId: string, ev: ApprovalEvent)
    requires StoreWritable(records) && Valid(ev.recordedAt)
    ensures StoreWritable(Upserted(records, jobId, ev))
  {
    var after := Upserted(records, jobId, ev);
    match FindRecord(records, jobId)
    case Some(i) =>
      UpsertExisting(records, jobId, ev, i);
      assert Approvals.Writable(after[i]);
    case None =>
      UpsertNew(records, jobId, ev);
      assert Approvals.Writable(after[|records|]);
  }

  /** `_sync_job(job_store, record)`. */
  method SyncJob(jobStore: JobStore, rec: ApprovalRecord, now: DateTime)
    requires forall i :: 0 <= i < |rec.history| ==> Valid(rec.history[i].recordedAt)
    modifies jobStore
    ensures Synced(old(jobStore.jobs), rec, now).Some? ==> jobStore.jobs == Synced(old(jobStore.jobs), rec, now).value
  {
    var marked := jobStore.SetApproval(rec.jobId, rec.status, EventsToDicts(rec.history), now);
    if rec.status == "approved" {
      var _ := jobStore.UpdateStatus(rec.jobId, "approved", None, now);
    } else if rec.status == "rejected" {
      var _ := jobStore.UpdateStatus(rec.jobId, "rejected", None, now);
    }
  }

  /** `approve_job` (action `"approved"`) and `reject_job` (action
      `"rejected"`) for the signed-in `actor` at `now`. */
  method Decide(store: ApprovalStore, jobStore: JobStore, jobId: string, action: string, actor: string,
                note: Option<string>, now: DateTime) returns (r: Result<RecordModel>)
    requires action == "approved" || action == "rejected"
    requires Valid(now) && StoreWritable(store.records)
    modifies store, jobStore
    ensures FindJob(old(jobStore.jobs), jobId).None? ==>
              r == Err(HttpError(404, "Job not found")) &&
              store.records == old(store.records) && jobStore.jobs == old(jobStore.jobs)
    ensures FindJob(old(jobStore.jobs), jobId).Some? ==>
              store.records == Upserted(old(store.records), jobId, ApprovalEvent(action, actor, Truncated(now), note)) &&
              FindRecord(store.records, jobId).Some? &&
              Decided(old(jobStore.jobs), jobStore.jobs, store.records[FindRecord(store.records, jobId).value], r, now)
    ensures StoreWritable(store.records)
  {
    var found := jobStore.GetJob(jobId);
    if found.Err? {
      return Err(HttpError(404, "Job not found"));
    }
    var recorded := store.Record(jobId, actor, action, note, now);
    ghost var ev := ApprovalEvent(action, actor, Truncated(now), note);
    UpsertWritable(old(store.records), jobId, ev);
    var rec := recorded.value;
    assert Approvals.Writable(store.records[FindRecord(store.records, jobId).value]);
    ghost var before := jobStore.jobs;
    SyncedJob(before, rec, now);
    SyncJob(jobStore, rec, now);
    r := Ok(ToRecordModel(rec));
  }

  /** `approve_job`/`reject_job` as the code stands: the job store has no
      `set_approval`, so for a known job `_sync_job` raises `AttributeError`
      after the approval store has already recorded the decision, and the
      job is left as it was (only the approval store may change). */
  method DecideAsWritten(store: ApprovalStore, jobStore: JobStore, jobId: string, action: string, actor: string,
                         note: Option<string>, now: DateTime) returns (r: Result<RecordModel>)
    requires action == "approved" || action == "rejected"
    modifies store
    ensures FindJob(jobStore.jobs, jobId).None? ==>
              r == Err(HttpError(404, "Job not found")) && store.records == old(store.records)
    ensures FindJob(jobStore.jobs, jobId).Some? ==>
              store.records == Upserted(old(store.records), jobId, ApprovalEvent(action, actor, Truncated(now), note)) &&
              r == Err(AttributeError("'JobStore' object has no attribute 'set_approval'"))
  {
    var found := jobStore.GetJob(jobId);
    if found.Err? {
      return Err(HttpError(404, "Job not found"));
    }
    var _ := store.Record(jobId, actor, action, note, now);
    r := Err(AttributeError("'JobStore' object has no attribute 'set_approval'"));
  }

  /** What a decision leaves behind: the response is the stored record, and
      the jobs are the old jobs synced with it. */
  ghost predicate Decided(before: seq<Job>, after: seq<Job>, rec: ApprovalRecord, r: Result<RecordModel>, now: DateTime) {
    (forall i :: 0 <= i < |rec.history| ==> Valid(rec.history[i].recordedAt)) &&
    r == Ok(ToRecordModel(rec)) &&
    Synced(before, rec, now) == Some(after)
  }
}
