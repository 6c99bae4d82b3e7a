/**
 * The background job queue (utils/job-queue.ts): job records under
 * `job:<id>` and their snapshots on the `job_queue` list, pushed at the left
 * and popped from the right.
 */
module JobQueue {
  import opened Common
  import opened Strings
  import opened Json
  import opened KvStore

  datatype JobStatus = PENDING | PROCESSING | COMPLETED | FAILED

  function StatusText(s: JobStatus): string
  {
    match s
    case PENDING => "pending"
    case PROCESSING => "processing"
    case COMPLETED => "completed"
    case FAILED => "failed"
  }

  function StatusFromText(t: string): (s: Option<JobStatus>)
    ensures s.Some? ==> StatusText(s.value) == t
  {
    if t == "pending" then Some(PENDING)
    else if t == "processing" then Some(PROCESSING)
    else if t == "completed" then Some(COMPLETED)
    else if t == "failed" then Some(FAILED)
    else None
  }

  /** A job record; `result` and `error` may be absent. */
  datatype Job = Job(id: string, jobType: string, data: Json, status: JobStatus,
                     createdAt: int, updatedAt: int, result: Option<Json>, error: Option<string>)

  /** The JSON object stored for a job. */
  function Encode(j: Job): Json
  {
    var base := map[
      "id" := JStr(j.id), "type" := JStr(j.jobType), "data" := j.data, "status" := JStr(StatusText(j.status)),
      "createdAt" := JNum(j.createdAt), "updatedAt" := JNum(j.updatedAt)];
    var withResult := if j.result.Some? then base["result" := j.result.value] else base;
    JObj(if j.error.Some? then withResult["error" := JStr(j.error.value)] else withResult)
  }

  /** Reads a stored object back as a job, when it has the fields a job has. */
  function Decode(v: Json): Option<Job>
  {
    var id := Field(v, "id");
    var jobType := Field(v, "type");
    var data := Field(v, "data");
    var status := Field(v, "status");
    var created := Field(v, "createdAt");
    var updated := Field(v, "updatedAt");
    var result := Field(v, "result");
    var error := Field(v, "error");
    if id.Some? && id.value.JStr? && jobType.Some? && jobType.value.JStr? && data.Some?
       && status.Some? && status.value.JStr? && StatusFromText(status.value.s).Some?
       && created.Some? && created.value.JNum? && updated.Some? && updated.value.JNum?
       && (error.None? || error.value.JStr?)
    then
      Some(Job(id.value.s, jobType.value.s, data.value, StatusFromText(status.value.s).value,
               created.value.n, updated.value.n, result, if error.Some? then Some(error.value.s) else None))
    else None
  }

  /** Storing a job loses nothing. */
  lemma DecodeEncode(j: Job)
    ensures Decode(Encode(j)) == Some(j)
  {
    var status := StatusFromText(StatusText(j.status));
    assert status == Some(j.status) by {
      match j.status
      case PENDING =>
      case PROCESSING =>
      case COMPLETED =>
      case FAILED =>
    }
  }

  const QUEUE_KEY := "job_queue"

  function RecordKey(id: string): string { "job:" + id }

  /** `job_<Date.now()>_<seven base-36 random characters>`; the random part is an input. */
  function NewJobId(nowMs: int, randomPart: string): (id: string)
    ensures StartsWith(id, "job_")
  {
    var id := "job_" + Decimal(nowMs) + "_" + randomPart;
    assert id[..4] == "job_";
    id
  }

  /** `{...job, ...updates, updatedAt: Date.now()}` */
  function Merge(record: Json, updates: map<string, Json>, nowMs: int): Json
  {
    JObj(Spread(record) + updates + map["updatedAt" := JNum(nowMs)])
  }

  /** The fields `Decode` reads. */
  const JOB_FIELDS := {"id", "type", "data", "status", "createdAt", "updatedAt", "result", "error"}

  /** Two objects that agree on the job fields decode alike. */
  lemma DecodeByFields(a: Json, b: Json)
    requires forall n :: n in JOB_FIELDS ==> Field(a, n) == Field(b, n)
    ensures Decode(a) == Decode(b)
  {
    assert Field(a, "id") == Field(b, "id") && Field(a, "type") == Field(b, "type");
    assert Field(a, "data") == Field(b, "data") && Field(a, "status") == Field(b, "status");
    assert Field(a, "createdAt") == Field(b, "createdAt") && Field(a, "updatedAt") == Field(b, "updatedAt");
    assert Field(a, "result") == Field(b, "result") && Field(a, "error") == Field(b, "error");
  }

  /** Each job field of the stored object, read back. */
  lemma EncodeFields(j: Job)
    ensures Field(Encode(j), "id") == Some(JStr(j.id)) && Field(Encode(j), "type") == Some(JStr(j.jobType))
    ensures Field(Encode(j), "data") == Some(j.data) && Field(Encode(j), "status") == Some(JStr(StatusText(j.status)))
    ensures Field(Encode(j), "createdAt") == Some(JNum(j.createdAt)) && Field(Encode(j), "updatedAt") == Some(JNum(j.updatedAt))
    ensures Field(Encode(j), "result") == j.result
    ensures Field(Encode(j), "error") == if j.error.Some? then Some(JStr(j.error.value)) else None
  {
  }

  /** Changing the status only changes the status and the update time. */
  lemma MergeStatus(j: Job, s: JobStatus, nowMs: int)
    ensures Decode(Merge(Encode(j), map["status" := JStr(StatusText(s))], nowMs)) ==
      Some(j.(status := s, updatedAt := nowMs))
  {
    var k := j.(status := s, updatedAt := nowMs);
    var m := Merge(Encode(j), map["status" := JStr(StatusText(s))], nowMs);
    EncodeFields(j);
    EncodeFields(k);
    forall n | n in JOB_FIELDS ensures Field(m, n) == Field(Encode(k), n) {}
    DecodeByFields(m, Encode(k));
    DecodeEncode(k);
  }

  /** Completing records the status and the result, nothing else. */
  lemma MergeCompleted(j: Job, v: Json, nowMs: int)
    ensures Decode(Merge(Encode(j), CompletedUpdate(v), nowMs)) ==
      Some(j.(status := COMPLETED, result := Some(v), updatedAt := nowMs))
  {
    var k := j.(status := COMPLETED, result := Some(v), updatedAt := nowMs);
    var m := Merge(Encode(j), CompletedUpdate(v), nowMs);
    EncodeFields(j);
    EncodeFields(k);
    forall n | n in JOB_FIELDS ensures Field(m, n) == Field(Encode(k), n) {}
    DecodeByFields(m, Encode(k));
    DecodeEncode(k);
  }

  /** Failing records the status and the message, nothing else. */
  lemma MergeFailed(j: Job, message: string, nowMs: int)
    ensures Decode(Merge(Encode(j), FailedUpdate(message), nowMs)) ==
      Some(j.(status := FAILED, error := Some(message), updatedAt := nowMs))
  {
    var k := j.(status := FAILED, error := Some(message), updatedAt := nowMs);
    var m := Merge(Encode(j), FailedUpdate(message), nowMs);
    EncodeFields(j);
    EncodeFields(k);
    forall n | n in JOB_FIELDS ensures Field(m, n) == Field(Encode(k), n) {}
    DecodeByFields(m, Encode(k));
    DecodeEncode(k);
  }

  const PROCESSING_UPDATE := map["status" := JStr("processing")]
  function CompletedUpdate(v: Json): map<string, Json> { map["status" := JStr("completed"), "result" := v] }
  function FailedUpdate(message: string): map<string, Json> { map["status" := JStr("failed"), "error" := JStr(message)] }

  /** `enqueueJob`: the snapshot is pushed before the record is written. */
  method EnqueueJob(store: Store, jobType: string, data: Json, nowMs: int, randomPart: string)
    returns (r: Result<string>)
    modifies store`ops, store`lists, store`values
    ensures var id := NewJobId(nowMs, randomPart);
      var record := Encode(Job(id, jobType, data, PENDING, nowMs, nowMs, None, None));
      && (old(store.Fails(0)) ==>
            r == Err(UNAVAILABLE) && store.lists == old(store.lists) && store.values == old(store.values))
      && (!old(store.Fails(0)) ==> store.lists == old(store.lists)[QUEUE_KEY := [record] + old(store.List(QUEUE_KEY))])
      // A failing write leaves a snapshot in the queue with no record behind it.
      && (!old(store.Fails(0)) && old(store.Fails(1)) ==> r == Err(UNAVAILABLE) && store.values == old(store.values))
      && (old(store.Healthy(2)) ==>
            r == Ok(id) && store.values == old(store.values)[RecordKey(id) := Entry(record, None)])
  {
    var id := NewJobId(nowMs, randomPart);
    var record := Encode(Job(id, jobType, data, PENDING, nowMs, nowMs, None, None));
    var pushed := store.LPush(QUEUE_KEY, record);
    if pushed.Err? {
      return Err(pushed.error);
    }
    var written := store.Set(RecordKey(id), record, None);
    if written.Err? {
      return Err(written.error);
    }
    r := Ok(id);
  }

  /** `getJob`: the stored record, or nothing. */
  method GetJob(store: Store, id: string) returns (r: Result<Option<Json>>)
    modifies store`ops
    ensures r == if old(store.Fails(0)) then Err(UNAVAILABLE) else Ok(store.Lookup(RecordKey(id)))
  {
    r := store.Get(RecordKey(id));
  }

  function NotFound(id: string): string { "Job " + id + " not found" }

  /** `updateJob`: a missing (or falsy) record is an error; otherwise the updates are merged in and stamped. */
  method UpdateJob(store: Store, id: string, updates: map<string, Json>, nowMs: int) returns (r: Result<()>)
    modifies store`ops, store`values
    ensures store.values - {RecordKey(id)} == old(store.values) - {RecordKey(id)}
    ensures store.ops == old(store.ops) + if old(store.Fails(0)) || !Present(old(store.Lookup(RecordKey(id)))) then 1 else 2
    ensures old(store.Fails(0)) ==> r == Err(UNAVAILABLE) && store.values == old(store.values)
    ensures !old(store.Fails(0)) && !Present(old(store.Lookup(RecordKey(id)))) ==>
      r == Err(NotFound(id)) && store.values == old(store.values) && store.ops == old(store.ops) + 1
    ensures !old(store.Fails(0)) && Present(old(store.Lookup(RecordKey(id)))) ==>
      (if old(store.Fails(1)) then
         r == Err(UNAVAILABLE) && store.values == old(store.values)
       else
         r == Ok(()) && store.ops == old(store.ops) + 2 &&
         store.Lookup(RecordKey(id)) == Some(Merge(old(store.Lookup(RecordKey(id))).value, updates, nowMs)))
  {
    var got := store.Get(RecordKey(id));
    if got.Err? {
      return Err(got.error);
    }
    if got.value.None? || !Truthy(got.value.value) {
      return Err(NotFound(id));
    }
    var written := store.Set(RecordKey(id), Merge(got.value.value, updates, nowMs), None);
    if written.Err? {
      return Err(written.error);
    }
    r := Ok(());
  }

  /** What a job processor did with a job: returned a value, or threw with a message. */
  datatype HandlerOutcome = Returned(value: Json) | Threw(message: string)

  /** `jobTypes.includes(job.type)` */
  predicate Supported(snapshot: Json, jobTypes: seq<string>)
  {
    var t := Field(snapshot, "type");
    t.Some? && t.value.JStr? && t.value.s in jobTypes
  }

  /** The id as the template literal `job:${job.id}` renders it. */
  function SnapshotId(snapshot: Json): string { Display(Field(snapshot, "id")) }

  /**
   * `processNextJob`: take the oldest snapshot, put it back at the head when
   * its type is not handled here, otherwise mark the record processing, run
   * the processor on the snapshot and record the result or the error.
   * `handled` is the snapshot given to the processor, if it ran.
   */
  method ProcessNextJob(store: Store, jobTypes: seq<string>, processor: Json -> HandlerOutcome, nowMs: int)
    returns (r: Result<bool>, handled: Option<Json>)
    modifies store`ops, store`lists, store`values
    ensures handled.Some? ==> Supported(handled.value, jobTypes)
    ensures r == Ok(true) ==> handled.Some? && processor(handled.value).Returned?
    ensures old(store.Fails(0)) ==>
      r == Err(UNAVAILABLE) && handled == None && store.lists == old(store.lists) && store.values == old(store.values)
    ensures var q := old(store.List(QUEUE_KEY));
      !old(store.Fails(0)) && q == [] ==>
        r == Ok(false) && handled == None && store.lists == old(store.lists) && store.values == old(store.values)
    ensures var q := old(store.List(QUEUE_KEY));
      var rest := if q == [] then [] else q[..|q| - 1];
      var snap := if q == [] then JNull else q[|q| - 1];
      old(store.Healthy(7)) && q != [] ==>
        if !Truthy(snap) then
          r == Ok(false) && handled == None && store.List(QUEUE_KEY) == rest && store.values == old(store.values)
        else if !Supported(snap, jobTypes) then
          // put back at the head: it now waits behind every other job
          r == Ok(false) && handled == None && store.List(QUEUE_KEY) == [snap] + rest &&
          store.values == old(store.values)
        else
          var key := RecordKey(SnapshotId(snap));
          var record := old(store.Lookup(key));
          store.List(QUEUE_KEY) == rest &&
          store.values - {key} == old(store.values) - {key} &&
          if !Present(record) then
            r == Err(NotFound(SnapshotId(snap))) && handled == None && store.values == old(store.values)
          else
            var processing := Merge(record.value, PROCESSING_UPDATE, nowMs);
            handled == Some(snap) &&
            match processor(snap)
            case Returned(v) =>
              r == Ok(true) && store.Lookup(key) == Some(Merge(processing, CompletedUpdate(v), nowMs))
            case Threw(m) =>
              r == Ok(false) && store.Lookup(key) == Some(Merge(processing, FailedUpdate(m), nowMs))
    // A failing push-back loses the job: it is off the queue and the call throws.
    ensures var q := old(store.List(QUEUE_KEY));
      var rest := if q == [] then [] else q[..|q| - 1];
      var snap := if q == [] then JNull else q[|q| - 1];
      !old(store.Fails(0)) && q != [] && Truthy(snap) && !Supported(snap, jobTypes) && old(store.Fails(1)) ==>
        r == Err(UNAVAILABLE) && handled == None && store.List(QUEUE_KEY) == rest && store.values == old(store.values)
    // A failing COMPLETED update is caught: the job is recorded FAILED with the store's error.
    ensures var q := old(store.List(QUEUE_KEY));
      var snap := if q == [] then JNull else q[|q| - 1];
      var key := RecordKey(SnapshotId(snap));
      var record := old(store.Lookup(key));
      old(store.Healthy(3)) && q != [] && Truthy(snap) && Supported(snap, jobTypes) && Present(record) &&
      processor(snap).Returned? && CompletedWriteFails(store.faulty, old(store.ops) + 3) ==>
        r == Ok(false) && handled == Some(snap) &&
        store.Lookup(key) == Some(Merge(Merge(record.value, PROCESSING_UPDATE, nowMs), FailedUpdate(UNAVAILABLE), nowMs))
  {
    handled := None;
    var popped := store.RPop(QUEUE_KEY);
    if popped.Err? {
      return Err(popped.error), None;
    }
    if popped.value.None? || !Truthy(popped.value.value) {
      return Ok(false), None;
    }
    var snap := popped.value.value;
    if !Supported(snap, jobTypes) {
      var back := store.LPush(QUEUE_KEY, snap);
      if back.Err? {
        return Err(back.error), None;
      }
      return Ok(false), None;
    }
    r, handled := RunProcessor(store, snap, processor, nowMs);
  }

  /**
   * The COMPLETED update, whose first store call is number `k`, fails, and
   * the FAILED update that follows goes through: either its read fails and the
   * next two calls work, or its read works, its write fails and the next two
   * calls work.
   */
  predicate CompletedWriteFails(faulty: set<nat>, k: nat)
  {
    || (k in faulty && k + 1 !in faulty && k + 2 !in faulty)
    || (k !in faulty && k + 1 in faulty && k + 2 !in faulty && k + 3 !in faulty)
  }

  /**
   * The part of `processNextJob` after a handled snapshot is taken: mark the
   * record processing, run the processor and record the result or the error.
   */
  method RunProcessor(store: Store, snap: Json, processor: Json -> HandlerOutcome, nowMs: int)
    returns (r: Result<bool>, handled: Option<Json>)
    modifies store`ops, store`values
    ensures handled.Some? ==> handled.value == snap
    ensures r == Ok(true) ==> handled.Some? && processor(snap).Returned?
    ensures var key := RecordKey(SnapshotId(snap));
      store.values - {key} == old(store.values) - {key}
    ensures var key := RecordKey(SnapshotId(snap));
      var record := old(store.Lookup(key));
      old(store.Healthy(6)) ==>
        if !Present(record) then
          r == Err(NotFound(SnapshotId(snap))) && handled == None && store.values == old(store.values)
        else
          var processing := Merge(record.value, PROCESSING_UPDATE, nowMs);
          handled == Some(snap) &&
          match processor(snap)
          case Returned(v) =>
            r == Ok(true) && store.Lookup(key) == Some(Merge(processing, CompletedUpdate(v), nowMs))
          case Threw(m) =>
            r == Ok(false) && store.Lookup(key) == Some(Merge(processing, FailedUpdate(m), nowMs))
    ensures var key := RecordKey(SnapshotId(snap));
      var record := old(store.Lookup(key));
      old(store.Healthy(2)) && Present(record) && processor(snap).Returned? &&
      CompletedWriteFails(store.faulty, old(store.ops) + 2) ==>
        r == Ok(false) && handled == Some(snap) &&
        store.Lookup(key) == Some(Merge(Merge(record.value, PROCESSING_UPDATE, nowMs), FailedUpdate(UNAVAILABLE), nowMs))
  {
    handled := None;
    var id := SnapshotId(snap);
    var failure: Option<string> := None;
    var started := UpdateJob(store, id, PROCESSING_UPDATE, nowMs);
    if started.Err? {
      failure := Some(started.error);
    } else {
      handled := Some(snap);
      var outcome := processor(snap);
      if outcome.Threw? {
        failure := Some(outcome.message);
      } else {
        var done := UpdateJob(store, id, CompletedUpdate(outcome.value), nowMs);
        if done.Err? {
          failure := Some(done.error);
        } else {
          return Ok(true), handled;
        }
      }
    }
    // catch: record the failure; an error while recording it propagates
    var recorded := UpdateJob(store, id, FailedUpdate(failure.value), nowMs);
    if recorded.Err? {
      return Err(recorded.error), handled;
    }
    r := Ok(false);
  }

  // ---------------------------------------------------------------------
  // Queue order
  // ---------------------------------------------------------------------

  /** The list after LPUSH-ing `xs` one after the other. */
  function Pushed(q: seq<Json>, xs: seq<Json>): seq<Json>
    decreases |xs|
  {
    if xs == [] then q else Pushed([xs[0]] + q, xs[1..])
  }

  /** The values RPOP hands out, in order, until the list is empty. */
  function Drained(q: seq<Json>): seq<Json>
    decreases |q|
  {
    if q == [] then [] else [q[|q| - 1]] + Drained(q[..|q| - 1])
  }

  lemma {:induction false} DrainedPushOne(x: Json, q: seq<Json>)
    ensures Drained([x] + q) == Drained(q) + [x]
    decreases |q|
  {
    if q != [] {
      var s := [x] + q;
      assert s[|s| - 1] == q[|q| - 1];
      assert s[..|s| - 1] == [x] + q[..|q| - 1];
      DrainedPushOne(x, q[..|q| - 1]);
    } else {
      assert [x] + q == [x];
    }
  }

  /** Jobs come out in the order they went in, after everything already waiting. */
  lemma {:induction false} FirstInFirstOut(q: seq<Json>, xs: seq<Json>)
    ensures Drained(Pushed(q, xs)) == Drained(q) + xs
    decreases |xs|
  {
    if xs != [] {
      FirstInFirstOut([xs[0]] + q, xs[1..]);
      DrainedPushOne(xs[0], q);
      assert xs == [xs[0]] + xs[1..];
    }
  }
}
