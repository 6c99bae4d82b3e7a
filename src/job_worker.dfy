/**
 * The worker endpoint (app/api/jobs/process/route.ts): processes one queued
 * job per request with a processor that handles three job types.
 */
module JobWorker {
  import opened Common
  import opened Json
  import opened KvStore
  import opened OpenAi
  import opened JobQueue
  import opened Http

  const SUPPORTED_TYPES := ["resume_analysis", "job_match", "follow_up_generation"]

  const ANALYZER_PROMPT := "You are an expert resume analyzer. Analyze the provided resume and provide detailed feedback."

  /** The message destructuring `job.data` throws when the data is null or undefined. */
  function DestructureError(data: Option<Json>): string
  {
    "Cannot destructure property 'resumeText' of 'job.data' as it is " + (if data.None? then "undefined" else "null") + "."
  }

  /**
   * The processor. `analyze` answers the analysis request for the job's
   * `resumeText` (`None` when the field is missing); saving the analysis to the
   * database is not modelled, as its result is not inspected.
   */
  function Handle(job: Json, analyze: Option<Json> -> Completion): (out: HandlerOutcome)
    ensures Field(job, "type") == Some(JStr("job_match")) ==> out == Returned(JObj(map["matched" := JBool(true)]))
    ensures Field(job, "type") == Some(JStr("follow_up_generation")) ==> out == Returned(JObj(map["generated" := JBool(true)]))
    ensures !Supported(job, SUPPORTED_TYPES) ==> out.Threw? && out.message == "Unsupported job type: " + Display(Field(job, "type"))
    ensures Field(job, "type") == Some(JStr("resume_analysis")) && out.Returned? ==>
      out.value.JObj? && out.value.fields.Keys == {"analysis"} && out.value.fields["analysis"].JStr?
  {
    var t := Field(job, "type");
    if t == Some(JStr("resume_analysis")) then
      var data := Field(job, "data");
      if data.None? || data.value == JNull then Threw(DestructureError(data))
      else
        match analyze(Field(data.value, "resumeText"))
        case Err(e) => Threw(e)
        case Ok(content) => Returned(JObj(map["analysis" := JStr(ContentOrEmpty(content))]))
    else if t == Some(JStr("job_match")) then Returned(JObj(map["matched" := JBool(true)]))
    else if t == Some(JStr("follow_up_generation")) then Returned(JObj(map["generated" := JBool(true)]))
    else Threw("Unsupported job type: " + Display(t))
  }

  /** The worker never lets a type through that its processor would reject as unsupported. */
  lemma SupportedTypesAreHandled(job: Json, analyze: Option<Json> -> Completion)
    requires Supported(job, SUPPORTED_TYPES)
    ensures var out := Handle(job, analyze); out.Threw? ==> Field(job, "type") == Some(JStr("resume_analysis"))
  {
  }

  /** The response for the outcome of `processNextJob`: 200 with whether a job ran, or 500 with the error. */
  function Reply(r: Result<bool>): (resp: Response)
    ensures resp.status == 200 <==> r.Ok?
    ensures resp.status == 500 <==> r.Err?
    ensures resp.body.JObj? && "success" in resp.body.fields && resp.body.fields["success"] == JBool(r.Ok?)
    ensures r.Err? ==> "error" in resp.body.fields && resp.body.fields["error"] == JStr(r.error)
  {
    match r
    case Ok(processed) => JsonResponse(map["success" := JBool(true), "processed" := JBool(processed)], 200)
    case Err(e) => JsonResponse(map["success" := JBool(false), "error" := JStr(e)], 500)
  }

  /** `POST`: one job is processed; an error that escapes becomes a 500 with its message. */
  method Post(store: Store, analyze: Option<Json> -> Completion, nowMs: int)
    returns (resp: Response, r: Result<bool>, handled: Option<Json>)
    modifies store`ops, store`lists, store`values
    ensures resp == Reply(r)
    ensures old(store.Fails(0)) ==> resp == Reply(Err(UNAVAILABLE)) && store.lists == old(store.lists)
    ensures old(store.List(QUEUE_KEY)) == [] && !old(store.Fails(0)) ==>
      resp.body == JObj(map["success" := JBool(true), "processed" := JBool(false)]) && handled == None
    ensures handled.Some? ==> Supported(handled.value, SUPPORTED_TYPES)
    ensures r == Ok(true) ==> handled.Some? && Handle(handled.value, analyze).Returned?
    // On a working store the oldest job is taken: put back when unsupported, otherwise run and recorded.
    ensures var q := old(store.List(QUEUE_KEY));
      var rest := if q == [] then [] else q[..|q| - 1];
      var snap := if q == [] then JNull else q[|q| - 1];
      old(store.Healthy(7)) && q != [] && Truthy(snap) ==>
        if !Supported(snap, SUPPORTED_TYPES) then
          r == Ok(false) && handled == None && store.List(QUEUE_KEY) == [snap] + rest &&
          store.values == old(store.values)
        else
          var key := RecordKey(SnapshotId(snap));
          var record := old(store.Lookup(key));
          store.List(QUEUE_KEY) == rest &&
          store.values - {key} == old(store.values) - {key} &&
          if !Present(record) then
            r == Err(NotFound(SnapshotId(snap))) && handled == None
          else
            var processing := Merge(record.value, PROCESSING_UPDATE, nowMs);
            handled == Some(snap) &&
            match Handle(snap, analyze)
            case Returned(v) =>
              r == Ok(true) && store.Lookup(key) == Some(Merge(processing, CompletedUpdate(v), nowMs))
            case Threw(m) =>
              r == Ok(false) && store.Lookup(key) == Some(Merge(processing, FailedUpdate(m), nowMs))
  {
    r, handled := ProcessNextJob(store, SUPPORTED_TYPES, (j: Json) => Handle(j, analyze), nowMs);
    resp := Reply(r);
  }
}
