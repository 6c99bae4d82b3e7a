/**
 * The scheduling rule, reply shapes and fallbacks of the advanced server
 * actions (app/actions/advanced-actions.ts). The database and the model are
 * inputs; instants are milliseconds since the epoch.
 */
module AdvancedActions {
  import opened Common
  import opened Strings
  import opened Json
  import opened OpenAi

  const DAY_MS := 1000 * 60 * 60 * 24
  const TEMP_ID := "temp-id"

  /** `Math.floor((now - applied) / DAY)`; the divisor is positive, so Dafny's division floors too. */
  function DaysSinceApplication(nowMs: int, appliedMs: int): (days: int)
    ensures days * DAY_MS <= nowMs - appliedMs < (days + 1) * DAY_MS
  {
    (nowMs - appliedMs) / DAY_MS
  }

  /** Fewer than seven whole days have passed exactly when less than a week of time has. */
  lemma DaysBelowSevenIff(nowMs: int, appliedMs: int)
    ensures DaysSinceApplication(nowMs, appliedMs) < 7 <==> nowMs - appliedMs < 7 * DAY_MS
  {
    var d := nowMs - appliedMs;
    var q := d / DAY_MS;
    assert d == q * DAY_MS + d % DAY_MS && 0 <= d % DAY_MS < DAY_MS;
    if q < 7 {
      assert q * DAY_MS <= 6 * DAY_MS;
    } else {
      assert q * DAY_MS >= 7 * DAY_MS;
    }
  }

  /**
   * When to follow up: a week after a recent application, otherwise three days
   * from now. An unreadable application date (`None`, an Invalid Date whose
   * day count is NaN) counts as old.
   */
  function FollowUpDate(nowMs: int, appliedMs: Option<int>): int
  {
    if appliedMs.Some? && DaysSinceApplication(nowMs, appliedMs.value) < 7 then appliedMs.value + 7 * DAY_MS
    else nowMs + 3 * DAY_MS
  }

  /**
   * The rule in milliseconds: a week after an application made less than a
   * week ago, otherwise (or with no readable date) three days from now.
   */
  lemma FollowUpRule(nowMs: int, appliedMs: Option<int>)
    ensures appliedMs.Some? ==>
      FollowUpDate(nowMs, appliedMs) ==
        (if nowMs - appliedMs.value < 7 * DAY_MS then appliedMs.value + 7 * DAY_MS else nowMs + 3 * DAY_MS)
    ensures appliedMs.None? ==> FollowUpDate(nowMs, appliedMs) == nowMs + 3 * DAY_MS
  {
    if appliedMs.Some? {
      DaysBelowSevenIff(nowMs, appliedMs.value);
    }
  }

  /** The follow-up is always scheduled after now, and at most a week away. */
  lemma FollowUpIsAhead(nowMs: int, appliedMs: Option<int>)
    ensures nowMs < FollowUpDate(nowMs, appliedMs)
    ensures appliedMs.Some? && appliedMs.value <= nowMs ==> FollowUpDate(nowMs, appliedMs) <= nowMs + 7 * DAY_MS
  {
    if appliedMs.Some? {
      DaysBelowSevenIff(nowMs, appliedMs.value);
    }
  }

  /** `{...scoreData, id: "temp-id"}`: the placeholder id replaces any id the model gave. */
  function ResumeScoreReply(scoreData: Json): (r: map<string, Json>)
    ensures r.Keys == Spread(scoreData).Keys + {"id"}
    ensures r["id"] == JStr(TEMP_ID)
    ensures forall k :: k in Spread(scoreData) && k != "id" ==> r[k] == Spread(scoreData)[k]
  {
    Spread(scoreData)["id" := JStr(TEMP_ID)]
  }

  /**
   * An answer that parses to an array or a string spreads its indices into the
   * reply; no index renders as `id`, so each keeps its element.
   */
  lemma ListAnswerKeepsIndices(scoreData: Json, i: int)
    requires scoreData.JArr? || scoreData.JStr?
    requires 0 <= i < (if scoreData.JArr? then |scoreData.items| else |scoreData.s|)
    ensures Decimal(i) in ResumeScoreReply(scoreData)
    ensures ResumeScoreReply(scoreData)[Decimal(i)] ==
      (if scoreData.JArr? then scoreData.items[i] else JStr([scoreData.s[i]]))
  {
    SpreadIndices(scoreData, Decimal(i));
    RadixRoundTrip(i, 10);
    assert FromRadix("id", 10) == None;
  }

  /** What a database insert did: returned rows, reported an error, or threw. */
  datatype InsertOutcome = Inserted(rows: Json) | Failed(message: string) | Threw(message: string)

  /** `data?.[0]?.id || "temp-id"`: the id of the first row returned, or the placeholder. */
  function InsertedId(insert: InsertOutcome): (id: Json)
    ensures Truthy(id)
    ensures !insert.Inserted? ==> id == JStr(TEMP_ID)
    ensures
      (insert.Inserted? && insert.rows.JArr? && |insert.rows.items| > 0 && Present(Field(insert.rows.items[0], "id"))) ==>
        id == Field(insert.rows.items[0], "id").value
  {
    var first := if insert.Inserted? && insert.rows.JArr? && |insert.rows.items| > 0 then Some(insert.rows.items[0]) else None;
    var id := if first.Some? then Field(first.value, "id") else None;
    if Present(id) then id.value else JStr(TEMP_ID)
  }

  /**
   * `generateFollowUpEmail`: the email text, the scheduled instant and the
   * saved row's id, or `{ error }` when the model call fails.
   */
  function FollowUpReply(answer: Completion, nowMs: int, appliedMs: Option<int>, insert: InsertOutcome): (r: map<string, Json>)
    ensures answer.Err? ==> r == map["error" := JStr(answer.error)]
    ensures answer.Ok? ==>
      r.Keys == {"email", "scheduledDate", "id"} && r["email"] == JStr(ContentOrEmpty(answer.value)) &&
      r["scheduledDate"] == JNum(FollowUpDate(nowMs, appliedMs)) && r["id"] == InsertedId(insert) &&
      r["scheduledDate"].n > nowMs && Truthy(r["id"])
  {
    match answer
    case Err(e) => map["error" := JStr(e)]
    case Ok(content) =>
      FollowUpIsAhead(nowMs, appliedMs);
      map["email" := JStr(ContentOrEmpty(content)), "scheduledDate" := JNum(FollowUpDate(nowMs, appliedMs)),
          "id" := InsertedId(insert)]
  }

  /** The alert echoed back when it could not be stored; absent inputs are left out. */
  function TempAlert(jobTitle: string, location: Option<string>, keywords: Option<seq<string>>, frequency: string): (a: map<string, Json>)
    ensures {"id", "job_title", "frequency"} <= a.Keys
    ensures a["id"] == JStr(TEMP_ID) && a["job_title"] == JStr(jobTitle) && a["frequency"] == JStr(frequency)
    ensures "location" in a <==> location.Some?
    ensures "keywords" in a <==> keywords.Some?
  {
    var base := map["id" := JStr(TEMP_ID), "job_title" := JStr(jobTitle), "frequency" := JStr(frequency)];
    var withLocation := if location.Some? then base["location" := JStr(location.value)] else base;
    if keywords.Some? then
      withLocation["keywords" := JArr(seq(|keywords.value|, i requires 0 <= i < |keywords.value| => JStr(keywords.value[i])))]
    else withLocation
  }

  /**
   * `createJobAlert` (the frequency defaults to daily): the rows stored, or the
   * placeholder alert, with the error unless the table was merely missing.
   */
  function CreateJobAlert(insert: InsertOutcome, jobTitle: string, location: Option<string>,
                          keywords: Option<seq<string>>, frequency: string := "daily"): (r: map<string, Json>)
    ensures insert.Inserted? ==> r == map["data" := insert.rows]
    ensures !insert.Inserted? ==> "data" in r && r["data"] == JArr([JObj(TempAlert(jobTitle, location, keywords, frequency))])
    ensures "error" in r <==> insert.Threw? || (insert.Failed? && !Contains(insert.message, "does not exist"))
  {
    var temp := JArr([JObj(TempAlert(jobTitle, location, keywords, frequency))]);
    match insert
    case Inserted(rows) => map["data" := rows]
    case Failed(m) =>
      if Contains(m, "does not exist") then map["data" := temp]
      else map["error" := JStr(m), "data" := temp]
    case Threw(m) => map["error" := JStr(m), "data" := temp]
  }

  /** Without a frequency the alert is daily. */
  lemma AlertDefaultsToDaily(insert: InsertOutcome, jobTitle: string)
    requires !insert.Inserted?
    ensures CreateJobAlert(insert, jobTitle, None, None)["data"].items[0].fields["frequency"] == JStr("daily")
  {
  }
}
