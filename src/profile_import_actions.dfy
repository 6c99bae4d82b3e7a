/**
 * Importing and analysing a profile with the language model
 * (app/actions/profile-import-actions.ts), with an in-process cache of what
 * was extracted, fresh for an hour, under `import_<user>_<url>` and
 * `analyze_<user>`.
 */
module ProfileImportActions {
  import opened Common
  import opened Strings
  import opened Json
  import opened OpenAi
  import opened ProfileFields

  const IMPORT_TTL_MS := 60 * 60 * 1000

  datatype CachedData = CachedData(data: Json, timestamp: int)

  /** `{ success, message }` */
  datatype ActionResult = ActionResult(success: bool, message: string)

  function ImportKey(userId: string, profileUrl: string): string { "import_" + userId + "_" + profileUrl }

  function AnalyzeKey(userId: string): string { "analyze_" + userId }

  /** Imports and analyses never read each other's entries. */
  lemma ImportAndAnalyzeKeysDiffer(userId: string, profileUrl: string, otherUser: string)
    ensures ImportKey(userId, profileUrl) != AnalyzeKey(otherUser)
  {
    assert ImportKey(userId, profileUrl)[0] == 'i';
    assert AnalyzeKey(otherUser)[0] == 'a';
  }

  predicate Fresh(e: CachedData, nowMs: int) { nowMs - e.timestamp < IMPORT_TTL_MS }

  /** The site a profile URL belongs to: the first of LinkedIn, Indeed and Glassdoor that it mentions. */
  function DetectPlatform(profileUrl: string): (platform: string)
    ensures platform in {"LinkedIn", "Indeed", "Glassdoor", "unknown"}
    ensures platform == "LinkedIn" <==> Contains(profileUrl, "linkedin.com")
    ensures platform == "Indeed" <==> !Contains(profileUrl, "linkedin.com") && Contains(profileUrl, "indeed.com")
    ensures platform == "Glassdoor" <==>
      !Contains(profileUrl, "linkedin.com") && !Contains(profileUrl, "indeed.com") && Contains(profileUrl, "glassdoor.com")
  {
    if Contains(profileUrl, "linkedin.com") then "LinkedIn"
    else if Contains(profileUrl, "indeed.com") then "Indeed"
    else if Contains(profileUrl, "glassdoor.com") then "Glassdoor"
    else "unknown"
  }

  /** A URL mentioning two sites is attributed to the earlier one in that order, wherever the mentions sit. */
  lemma FirstSiteWins(a: string, b: string)
    ensures DetectPlatform(a + "indeed.com" + b + "linkedin.com") == "LinkedIn"
    ensures DetectPlatform(a + "glassdoor.com" + b + "indeed.com") != "Glassdoor"
  {
    ContainsInfix(a + "indeed.com" + b, "linkedin.com", "");
    assert a + "indeed.com" + b + "linkedin.com" == a + "indeed.com" + b + "linkedin.com" + "";
    ContainsInfix(a + "glassdoor.com" + b, "indeed.com", "");
    assert a + "glassdoor.com" + b + "indeed.com" == a + "glassdoor.com" + b + "indeed.com" + "";
  }

  const IMPORT_FAILED := "An unexpected error occurred while importing your profile"
  const UPDATE_FAILED := "Failed to update profile with imported data"
  const ANALYSIS_FAILED := "An unexpected error occurred during profile analysis"

  /** The module-level cache. */
  class ImportCache {
    var entries: map<string, CachedData>

    constructor ()
      ensures entries == map[]
    {
      entries := map[];
    }

    /**
     * `importProfileFromUrl`. The model's answer, `JSON.parse` and whether the
     * profile update fails are inputs; `update` is the row update sent, if any.
     */
    method ImportProfileFromUrl(userId: string, profileUrl: string, answer: Completion,
                                parse: string -> Option<Json>, updateFails: bool, nowMs: int, nowIso: string)
      returns (r: ActionResult, update: Option<map<string, Json>>)
      modifies this
      ensures var key := ImportKey(userId, profileUrl);
        key in old(entries) && Fresh(old(entries)[key], nowMs) ==>
          // a fresh import is replayed: only the sanitised fields, no platform or time stamp
          && entries == old(entries)
          && update == Some(Spread(old(entries)[key].data))
          && r == if updateFails then ActionResult(false, UPDATE_FAILED)
                  else ActionResult(true, "Profile successfully imported (cached result)")
      ensures var key := ImportKey(userId, profileUrl);
        !(key in old(entries) && Fresh(old(entries)[key], nowMs)) ==>
          var parsed := if answer.Ok? then parse(ParseInput(answer.value)) else None;
          var fields := if parsed.Some? then ValidFields(parsed.value) else None;
          var platform := DetectPlatform(profileUrl);
          && (answer.Err? ==> r == ActionResult(false, IMPORT_FAILED) && update == None && entries == old(entries))
          && (answer.Ok? && parsed.None? ==>
                r == ActionResult(false, "Failed to parse profile data") && update == None && entries == old(entries))
          && (parsed.Some? && fields.None? ==>
                r == ActionResult(false, IMPORT_FAILED) && update == None && entries == old(entries))
          // the sanitised fields are cached before the update is tried
          && (fields.Some? ==>
                && entries == old(entries)[key := CachedData(JObj(fields.value), nowMs)]
                && update == Some(fields.value + map["imported_from" := JStr(platform), "last_optimized" := JStr(nowIso)])
                && r == if updateFails then ActionResult(false, UPDATE_FAILED)
                        else ActionResult(true, "Profile successfully imported from " + platform))
    {
      var key := ImportKey(userId, profileUrl);
      if key in entries && Fresh(entries[key], nowMs) {
        update := Some(Spread(entries[key].data));
        if updateFails {
          return ActionResult(false, UPDATE_FAILED), update;
        }
        return ActionResult(true, "Profile successfully imported (cached result)"), update;
      }
      var platform := DetectPlatform(profileUrl);
      if answer.Err? {
        return ActionResult(false, IMPORT_FAILED), None;
      }
      var parsed := parse(ParseInput(answer.value));
      if parsed.None? {
        return ActionResult(false, "Failed to parse profile data"), None;
      }
      var fields := ValidFields(parsed.value);
      if fields.None? {
        return ActionResult(false, IMPORT_FAILED), None;
      }
      entries := entries[key := CachedData(JObj(fields.value), nowMs)];
      update := Some(fields.value + map["imported_from" := JStr(platform), "last_optimized" := JStr(nowIso)]);
      if updateFails {
        return ActionResult(false, UPDATE_FAILED), update;
      }
      r := ActionResult(true, "Profile successfully imported from " + platform);
    }

    /**
     * `analyzeAndOptimizeProfile`. `profile` is the stored profile row, or the
     * error fetching it; the reply is an object holding `success`, `message`
     * and, on success, the `analysis` and `optimizedBio` the model returned.
     */
    method AnalyzeAndOptimizeProfile(userId: string, profile: Result<Json>, answer: Completion,
                                     parse: string -> Option<Json>, nowMs: int)
      returns (r: map<string, Json>)
      modifies this
      ensures var key := AnalyzeKey(userId);
        key in old(entries) && Fresh(old(entries)[key], nowMs) ==>
          entries == old(entries) &&
          r == map["success" := JBool(true), "message" := JStr("Profile analysis completed successfully (cached result)")]
               + Spread(old(entries)[key].data)
      ensures var key := AnalyzeKey(userId);
        !(key in old(entries) && Fresh(old(entries)[key], nowMs)) ==>
          var bio := if profile.Ok? then Field(profile.value, "bio") else None;
          var readable := profile.Ok? && profile.value != JNull && (bio.None? || bio.value == JNull || bio.value.JStr?);
          var parsed := if readable && answer.Ok? then parse(ParseInput(answer.value)) else None;
          && (!readable || answer.Err? ==> r == Failure(ANALYSIS_FAILED) && entries == old(entries))
          && (readable && answer.Ok? && parsed.None? ==>
                r == Failure("Failed to parse profile analysis") && entries == old(entries))
          && (parsed.Some? && parsed.value == JNull ==> r == Failure(ANALYSIS_FAILED) && entries == old(entries))
          && (parsed.Some? && parsed.value != JNull ==>
                var data := AnalysisData(parsed.value);
                entries == old(entries)[key := CachedData(JObj(data), nowMs)] &&
                r == map["success" := JBool(true), "message" := JStr("Profile analysis completed successfully")] + data)
    {
      var key := AnalyzeKey(userId);
      if key in entries && Fresh(entries[key], nowMs) {
        return map["success" := JBool(true), "message" := JStr("Profile analysis completed successfully (cached result)")]
               + Spread(entries[key].data);
      }
      if profile.Err? || profile.value == JNull {
        return Failure(ANALYSIS_FAILED);
      }
      var bio := Field(profile.value, "bio");
      if bio.Some? && bio.value != JNull && !bio.value.JStr? {
        // `bio?.substring` on a value that is not a string throws
        return Failure(ANALYSIS_FAILED);
      }
      if answer.Err? {
        return Failure(ANALYSIS_FAILED);
      }
      var parsed := parse(ParseInput(answer.value));
      if parsed.None? {
        return Failure("Failed to parse profile analysis");
      }
      if parsed.value == JNull {
        return Failure(ANALYSIS_FAILED);
      }
      var data := AnalysisData(parsed.value);
      entries := entries[key := CachedData(JObj(data), nowMs)];
      r := map["success" := JBool(true), "message" := JStr("Profile analysis completed successfully")] + data;
    }
  }

  function Failure(message: string): map<string, Json>
  {
    map["success" := JBool(false), "message" := JStr(message)]
  }

  /** `{ analysis, optimizedBio }` taken from the parsed answer; an undefined field is left out. */
  function AnalysisData(parsed: Json): (data: map<string, Json>)
    ensures data.Keys <= {"analysis", "optimizedBio"}
    ensures forall k :: k in {"analysis", "optimizedBio"} ==> (k in data <==> Field(parsed, k).Some?)
    ensures forall k :: k in data ==> Field(parsed, k) == Some(data[k])
  {
    var withAnalysis := if Field(parsed, "analysis").Some? then map["analysis" := Field(parsed, "analysis").value] else map[];
    if Field(parsed, "optimizedBio").Some? then withAnalysis["optimizedBio" := Field(parsed, "optimizedBio").value]
    else withAnalysis
  }

  /** A replayed analysis says it was cached and carries what was cached, nothing more. */
  lemma CachedAnalysisReplays(parsed: Json)
    ensures var r := map["success" := JBool(true), "message" := JStr("Profile analysis completed successfully (cached result)")]
                     + Spread(JObj(AnalysisData(parsed)));
      r.Keys <= {"success", "message", "analysis", "optimizedBio"} &&
      r["success"] == JBool(true) &&
      forall k :: k in {"analysis", "optimizedBio"} ==> (k in r <==> Field(parsed, k).Some?)
  {
  }
}
