/** The approvals workflow's records and their store
    (services/api/approvals.py).  The JSON file the store reloads and
    rewrites on every call is the `records` sequence; what it holds is what
    a later `_load` would return, so timestamps are kept to whole seconds. */
module Approvals {
  import opened Wrappers
  import opened Values
  import opened Timestamps
  import opened Sorting

  datatype ApprovalEvent = ApprovalEvent(action: string, actor: string, recordedAt: DateTime, note: Option<string>)

  datatype ApprovalRecord = ApprovalRecord(jobId: string, status: string, updatedAt: DateTime,
                                           history: seq<ApprovalEvent>)

  /** `ApprovalRecord.append(event)`. */
  function Append(rec: ApprovalRecord, ev: ApprovalEvent): (r: ApprovalRecord)
    ensures r.jobId == rec.jobId
  {
    rec.(history := rec.history + [ev], status := ev.action, updatedAt := ev.recordedAt)
  }

  /** A record's status and time are those of its latest event. */
  predicate Consistent(rec: ApprovalRecord) {
    rec.history != [] ==>
      rec.status == rec.history[|rec.history| - 1].action &&
      rec.updatedAt == rec.history[|rec.history| - 1].recordedAt
  }

  /** Appending extends the history by exactly the event and leaves the
      record consistent with it, whatever it held before. */
  lemma AppendEvent(rec: ApprovalRecord, ev: ApprovalEvent)
    ensures var r := Append(rec, ev);
            |r.history| == |rec.history| + 1 && r.history[..|rec.history|] == rec.history &&
            r.history[|rec.history|] == ev && Consistent(r)
  {
    var r := Append(rec, ev);
    assert r.history[..|rec.history|] == rec.history;
  }

  /** `ApprovalRecord(job_id=job_id)`: pending, no history. */
  function NewRecord(jobId: string, now: DateTime): (r: ApprovalRecord)
    ensures r.jobId == jobId && r.history == [] && Consistent(r)
  {
    ApprovalRecord(jobId, "pending", now, [])
  }

  // ---- to_dict / from_dict ----

  /** `ApprovalEvent.to_dict()`. */
  function EventToDict(ev: ApprovalEvent): (d: Value)
    requires Valid(ev.recordedAt)
    ensures d.Obj?
  {
    Obj(map["action" := Str(ev.action), "actor" := Str(ev.actor),
            "recorded_at" := Str(FormatSecondsZ(ev.recordedAt)), "note" := OptionalText(ev.note)])
  }

  /** `data[key]` parsed with `"%Y-%m-%dT%H:%M:%SZ"`. */
  function TimeField(d: Dict, key: string): (r: Result<DateTime>)
    ensures r.Ok? ==> Valid(r.value) && r.value.micro == 0
  {
    var t :- TextField(d, key);
    match ParseSecondsZ(t)
    case Some(dt) => Ok(dt)
    case None => Err(ValueError("time data '" + t + "' does not match format '%Y-%m-%dT%H:%M:%SZ'"))
  }

  /** `ApprovalEvent.from_dict(data)`. */
  function EventFromDict(v: Value): (r: Result<ApprovalEvent>)
    ensures r.Ok? ==> Valid(r.value.recordedAt) && r.value.recordedAt.micro == 0
  {
    if !v.Obj? then Err(TypeError("expected an object"))
    else
      var recordedAt :- TimeField(v.fields, "recorded_at");
      var action :- TextField(v.fields, "action");
      var actor :- TextField(v.fields, "actor");
      var note :- OptionalTextField(v.fields, "note");
      Ok(ApprovalEvent(action, actor, recordedAt, note))
  }

  /** An event read back is the event with its time cut to whole seconds. */
  lemma EventRoundTrip(ev: ApprovalEvent)
    requires Valid(ev.recordedAt)
    ensures EventFromDict(EventToDict(ev)) == Ok(ev.(recordedAt := Truncated(ev.recordedAt)))
  {
    SecondsZRoundTrip(ev.recordedAt);
    var d := EventToDict(ev).fields;
    assert d["recorded_at"] == Str(FormatSecondsZ(ev.recordedAt));
    assert TimeField(d, "recorded_at") == Ok(Truncated(ev.recordedAt));
    assert d["action"] == Str(ev.action);
    TextFieldOf(d, "action", ev.action);
    assert d["actor"] == Str(ev.actor);
    TextFieldOf(d, "actor", ev.actor);
    assert Get(d, "note") == OptionalText(ev.note);
    OptionalTextFieldOf(d, "note", ev.note);
  }

  /** Every event's time can be written. */
  predicate Writable(rec: ApprovalRecord) {
    Valid(rec.updatedAt) && forall i :: 0 <= i < |rec.history| ==> Valid(rec.history[i].recordedAt)
  }

  function EventsToDicts(evs: seq<ApprovalEvent>): (r: seq<Value>)
    requires forall i :: 0 <= i < |evs| ==> Valid(evs[i].recordedAt)
    ensures |r| == |evs| && forall i :: 0 <= i < |evs| ==> r[i] == EventToDict(evs[i])
  {
    seq(|evs|, i requires 0 <= i < |evs| && Valid(evs[i].recordedAt) => EventToDict(evs[i]))
  }

  function EventsFromDicts(vs: seq<Value>): (r: Result<seq<ApprovalEvent>>)
    ensures r.Ok? ==> |r.value| == |vs| && forall i :: 0 <= i < |vs| ==> EventFromDict(vs[i]) == Ok(r.value[i])
  {
    if vs == [] then Ok([])
    else
      var first :- EventFromDict(vs[0]);
      var rest :- EventsFromDicts(vs[1..]);
      Ok([first] + rest)
  }

  /** `ApprovalRecord.to_dict()`. */
  function RecordToDict(rec: ApprovalRecord): (d: Value)
    requires Writable(rec)
    ensures d.Obj?
  {
    Obj(map["job_id" := Str(rec.jobId), "status" := Str(rec.status),
            "updated_at" := Str(FormatSecondsZ(rec.updatedAt)),
            "history" := List(EventsToDicts(rec.history))])
  }

  /** `ApprovalRecord.from_dict(data)`; a missing `history` is empty. */
  function RecordFromDict(v: Value): (r: Result<ApprovalRecord>)
  {
    if !v.Obj? then Err(TypeError("expected an object"))
    else
      var items := GetOr(v.fields, "history", List([]));
      if !items.List? then Err(TypeError("expected a list under 'history'"))
      else
        var history :- EventsFromDicts(items.items);
        RecordWith(v.fields, history)
  }

  /** The scalar fields of a record read back, around its history. */
  function RecordWith(d: Dict, history: seq<ApprovalEvent>): Result<ApprovalRecord> {
    var updatedAt :- TimeField(d, "updated_at");
    var jobId :- TextField(d, "job_id");
    var status :- TextField(d, "status");
    Ok(ApprovalRecord(jobId, status, updatedAt, history))
  }

  /** The record with every time cut to whole seconds: what survives a
      write and a read. */
  function Stored(rec: ApprovalRecord): ApprovalRecord {
    rec.(updatedAt := Truncated(rec.updatedAt), history := StoredEvents(rec.history))
  }

  function StoredEvents(evs: seq<ApprovalEvent>): (r: seq<ApprovalEvent>)
    ensures |r| == |evs| && forall i :: 0 <= i < |evs| ==> r[i] == evs[i].(recordedAt := Truncated(evs[i].recordedAt))
  {
    if evs == [] then [] else [evs[0].(recordedAt := Truncated(evs[0].recordedAt))] + StoredEvents(evs[1..])
  }

  lemma {:induction false} EventsRoundTrip(evs: seq<ApprovalEvent>)
    requires forall i :: 0 <= i < |evs| ==> Valid(evs[i].recordedAt)
    ensures EventsFromDicts(EventsToDicts(evs)) == Ok(StoredEvents(evs))
  {
    if evs != [] {
      EventRoundTrip(evs[0]);
      EventsRoundTrip(evs[1..]);
      assert EventsToDicts(evs)[1..] == EventsToDicts(evs[1..]);
      assert StoredEvents(evs) == [StoredEvents(evs)[0]] + StoredEvents(evs[1..]);
    }
  }

  /** A record read back is the record with its times cut to whole seconds. */
  lemma RecordRoundTrip(rec: ApprovalRecord)
    requires Writable(rec)
    ensures RecordFromDict(RecordToDict(rec)) == Ok(Stored(rec))
  {
    var d := RecordToDict(rec).fields;
    assert GetOr(d, "history", List([])) == List(EventsToDicts(rec.history));
    EventsRoundTrip(rec.history);
    RecordWithBack(rec);
  }

  lemma RecordWithBack(rec: ApprovalRecord)
    requires Writable(rec)
    ensures RecordWith(RecordToDict(rec).fields, StoredEvents(rec.history)) == Ok(Stored(rec))
  {
    var d := RecordToDict(rec).fields;
    assert d["updated_at"] == Str(FormatSecondsZ(rec.updatedAt));
    TimeFieldBack(d, "updated_at", rec.updatedAt);
    assert TextField(d, "job_id") == Ok(rec.jobId) by {
      assert d["job_id"] == Str(rec.jobId);
    }
    assert TextField(d, "status") == Ok(rec.status) by {
      assert d["status"] == Str(rec.status);
    }
  }

  lemma TimeFieldBack(d: Dict, key: string, dt: DateTime)
    requires Valid(dt) && key in d && d[key] == Str(FormatSecondsZ(dt))
    ensures TimeField(d, key) == Ok(Truncated(dt))
  {
    SecondsZRoundTrip(dt);
  }

  // ---- the store ----

  /** The index of the first record for `jobId`. */
  function FindRecord(records: seq<ApprovalRecord>, jobId: string): (r: Option<nat>)
    ensures r.Some? ==> r.value < |records| && records[r.value].jobId == jobId &&
                        forall k :: 0 <= k < r.value ==> records[k].jobId != jobId
    ensures r.None? ==> forall k :: 0 <= k < |records| ==> records[k].jobId != jobId
  {
    if records == [] then None
    else if records[0].jobId == jobId then Some(0)
    else match FindRecord(records[1..], jobId)
      case Some(i) => Some(i + 1)
      case None => None
  }

  /** The records after `_upsert(job_id, lambda r: r.append(ev))`. */
  function Upserted(records: seq<ApprovalRecord>, jobId: string, ev: ApprovalEvent): seq<ApprovalRecord> {
    match FindRecord(records, jobId)
    case Some(i) => records[i := Append(records[i], ev)]
    case None => records + [Append(NewRecord(jobId, ev.recordedAt), ev)]
  }

  /** Upsert on a known job changes only that job's first record. */
  lemma UpsertExisting(records: seq<ApprovalRecord>, jobId: string, ev: ApprovalEvent, i: nat)
    requires i < |records| && records[i].jobId == jobId
    requires forall k :: 0 <= k < i ==> records[k].jobId != jobId
    ensures var after := Upserted(records, jobId, ev);
            |after| == |records| && after[i] == Append(records[i], ev) &&
            forall k :: 0 <= k < |records| && k != i ==> after[k] == records[k]
  {
    assert FindRecord(records, jobId) == Some(i);
  }

  /** Upsert on an unknown job appends one pending-then-appended record:
      its history is exactly the event. */
  lemma UpsertNew(records: seq<ApprovalRecord>, jobId: string, ev: ApprovalEvent)
    requires forall k :: 0 <= k < |records| ==> records[k].jobId != jobId
    ensures var after := Upserted(records, jobId, ev);
            |after| == |records| + 1 && after[..|records|] == records &&
            after[|records|] == ApprovalRecord(jobId, ev.action, ev.recordedAt, [ev])
  {
    var after := Upserted(records, jobId, ev);
    assert after == records + [Append(NewRecord(jobId, ev.recordedAt), ev)];
    assert after[..|records|] == records;
  }

  /** No two records share a job id. */
  predicate UniqueIds(records: seq<ApprovalRecord>) {
    forall i, j :: 0 <= i < j < |records| ==> records[i].jobId != records[j].jobId
  }

  /** Upserts keep job ids unique. */
  lemma UpsertUnique(records: seq<ApprovalRecord>, jobId: string, ev: ApprovalEvent)
    requires UniqueIds(records)
    ensures UniqueIds(Upserted(records, jobId, ev))
  {
    var after := Upserted(records, jobId, ev);
    match FindRecord(records, jobId)
    case Some(i) =>
      UpsertExisting(records, jobId, ev, i);
      assert forall k :: 0 <= k < |after| ==> after[k].jobId == records[k].jobId;
    case None =>
      UpsertNew(records, jobId, ev);
  }

  /** What `get_status` answers. */
  function StatusOf(records: seq<ApprovalRecord>, jobId: string): string {
    match FindRecord(records, jobId)
    case Some(i) => records[i].status
    case None => "pending"
  }

  /** After an upsert the job's status is the event's action, and every
      other job's status is unchanged. */
  lemma UpsertStatus(records: seq<ApprovalRecord>, jobId: string, ev: ApprovalEvent, other: string)
    ensures StatusOf(Upserted(records, jobId, ev), jobId) == ev.action
    ensures other != jobId ==> StatusOf(Upserted(records, jobId, ev), other) == StatusOf(records, other)
  {
    var after := Upserted(records, jobId, ev);
    match FindRecord(records, jobId)
    case Some(i) =>
      UpsertExisting(records, jobId, ev, i);
      assert FindRecord(after, jobId) == Some(i);
      FindSameIds(records, after, other);
    case None =>
      UpsertNew(records, jobId, ev);
      assert FindRecord(after, jobId) == Some(|records|);
      FindSameIds(records, after, other);
      if FindRecord(records, other).None? && other != jobId {
        assert forall k :: 0 <= k < |after| ==> after[k].jobId != other;
      }
  }

  /** `FindRecord` depends only on the job ids, and a longer sequence that
      agrees on a prefix finds what the prefix finds. */
  lemma FindSameIds(a: seq<ApprovalRecord>, b: seq<ApprovalRecord>, id: string)
    requires |a| <= |b| && forall k :: 0 <= k < |a| ==> a[k].jobId == b[k].jobId
    ensures FindRecord(a, id).Some? ==> FindRecord(b, id) == FindRecord(a, id)
    ensures |a| == |b| ==> FindRecord(b, id) == FindRecord(a, id)
  {
  }

  /** After an upsert the job's first record is the updated one: in place
      of the old record, or appended when there was none. */
  lemma UpsertFound(records: seq<ApprovalRecord>, jobId: string, ev: ApprovalEvent)
    ensures var after := Upserted(records, jobId, ev);
            FindRecord(after, jobId) ==
              Some(if FindRecord(records, jobId).Some? then FindRecord(records, jobId).value else |records|)
  {
    var after := Upserted(records, jobId, ev);
    match FindRecord(records, jobId)
    case Some(i) =>
      UpsertExisting(records, jobId, ev, i);
      assert after[i].jobId == jobId;
      assert forall k :: 0 <= k < i ==> after[k].jobId != jobId;
      FindRecordAt(after, jobId, i);
    case None =>
      UpsertNew(records, jobId, ev);
      assert forall k :: 0 <= k < |records| ==> after[k].jobId != jobId;
      FindRecordAt(after, jobId, |records|);
  }

  /** The first record with the job id is found. */
  lemma FindRecordAt(records: seq<ApprovalRecord>, jobId: string, i: nat)
    requires i < |records| && records[i].jobId == jobId
    requires forall k :: 0 <= k < i ==> records[k].jobId != jobId
    ensures FindRecord(records, jobId) == Some(i)
  {
  }

  /** The actions `record` accepts. */
  predicate ValidAction(action: string) {
    action in {"approved", "rejected", "pending"}
  }

  /** Most recent first: Python's stable `sorted(..., reverse=True)` keeps
      records with equal times in store order. */
  predicate NewerFirst(a: ApprovalRecord, b: ApprovalRecord) {
    AtMost(b.updatedAt, a.updatedAt)
  }

  lemma NewerFirstOrder()
    ensures TotalPreorder(NewerFirst)
  {
    forall a: ApprovalRecord, b: ApprovalRecord
      ensures NewerFirst(a, b) || NewerFirst(b, a)
    {
      AtMostTotal(a.updatedAt, b.updatedAt);
    }
    forall a: ApprovalRecord, b: ApprovalRecord, c: ApprovalRecord | NewerFirst(a, b) && NewerFirst(b, c)
      ensures NewerFirst(a, c)
    {
      AtMostTrans(c.updatedAt, b.updatedAt, a.updatedAt);
    }
  }

  /** `list_all()`. */
  function ListAll(records: seq<ApprovalRecord>): seq<ApprovalRecord> {
    Sort(records, NewerFirst)
  }

  /** `list_all` is the records, newest first. */
  lemma ListAllSorted(records: seq<ApprovalRecord>)
    ensures multiset(ListAll(records)) == multiset(records)
    ensures forall i, j :: 0 <= i < j < |records| ==> AtMost(ListAll(records)[j].updatedAt, ListAll(records)[i].updatedAt)
  {
    NewerFirstOrder();
    SortSorted(records, NewerFirst);
    var s := ListAll(records);
    forall i, j | 0 <= i < j < |records|
      ensures AtMost(s[j].updatedAt, s[i].updatedAt)
    {
      SortedPairwise(s, NewerFirst, i, j);
    }
  }

  class ApprovalStore {
    var records: seq<ApprovalRecord>

    constructor(initial: seq<ApprovalRecord>)
      ensures records == initial
    {
      records := initial;
    }

    /** `record(job_id, actor=..., action=..., note=...)` at time `now`:
        an unsupported action is refused before the store is touched. */
    method Record(jobId: string, actor: string, action: string, note: Option<string>, now: DateTime)
      returns (r: Result<ApprovalRecord>)
      modifies this
      ensures !ValidAction(action) ==>
                r == Err(ValueError("Unsupported approval action: " + action)) && records == old(records)
      ensures ValidAction(action) ==>
                var ev := ApprovalEvent(action, actor, Truncated(now), note);
                records == Upserted(old(records), jobId, ev) && r.Ok? && r.value in records &&
                r.value.jobId == jobId && r.value.status == action && r.value.history != [] &&
                r.value.history[|r.value.history| - 1] == ev &&
                FindRecord(records, jobId).Some? && r.value == records[FindRecord(records, jobId).value]
      ensures old(UniqueIds(records)) ==> UniqueIds(records)
    {
      if !ValidAction(action) {
        return Err(ValueError("Unsupported approval action: " + action));
      }
      var ev := ApprovalEvent(action, actor, Truncated(now), note);
      var i := 0;
      while i < |records|
        invariant 0 <= i <= |records|
        invariant forall k :: 0 <= k < i ==> records[k].jobId != jobId
      {
        if records[i].jobId == jobId {
          var updated := Append(records[i], ev);
          UpsertExisting(records, jobId, ev, i);
          UpsertFound(records, jobId, ev);
          if UniqueIds(records) {
            UpsertUnique(records, jobId, ev);
          }
          records := records[i := updated];
          return Ok(updated);
        }
        i := i + 1;
      }
      var created := Append(NewRecord(jobId, Truncated(now)), ev);
      UpsertNew(records, jobId, ev);
      UpsertFound(records, jobId, ev);
      if UniqueIds(records) {
        UpsertUnique(records, jobId, ev);
      }
      records := records + [created];
      return Ok(created);
    }

    /** `get(job_id)`: the first record for the job, or `KeyError`. */
    method Get(jobId: string) returns (r: Result<ApprovalRecord>)
      ensures r.Ok? <==> exists k :: 0 <= k < |records| && records[k].jobId == jobId
      ensures r.Ok? ==> FindRecord(records, jobId).Some? && r.value == records[FindRecord(records, jobId).value]
      ensures r.Err? ==> r.error == KeyError(jobId)
    {
      var i := 0;
      while i < |records|
        invariant 0 <= i <= |records|
        invariant forall k :: 0 <= k < i ==> records[k].jobId != jobId
      {
        if records[i].jobId == jobId {
          assert FindRecord(records, jobId) == Some(i);
          return Ok(records[i]);
        }
        i := i + 1;
      }
      return Err(KeyError(jobId));
    }

    /** `get_status(job_id)`: `"pending"` for a job without a record. */
    method GetStatus(jobId: string) returns (status: string)
      ensures status == StatusOf(records, jobId)
    {
      var r := Get(jobId);
      match r
      case Ok(rec) =>
        status := rec.status;
      case Err(_) =>
        status := "pending";
    }

    /** `list_all()`. */
    method ListAllRecords() returns (all: seq<ApprovalRecord>)
      ensures all == ListAll(records)
    {
      all := Sort(records, NewerFirst);
    }
  }
}
