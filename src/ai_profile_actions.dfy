/**
 * Updating a profile from a request in plain words
 * (app/actions/ai-profile-actions.ts): the model proposes changed fields,
 * which are sanitised and written, and the reply names them.
 */
module AiProfileActions {
  import opened Common
  import opened Strings
  import opened Json
  import opened OpenAi
  import opened ProfileFields
  import opened ProfileImportActions

  const UNEXPECTED := "An unexpected error occurred"

  /** The success message: the changed keys, in field order, joined by ", ". */
  function UpdatedMessage(fields: map<string, Json>): string
  {
    "Profile updated successfully. Changed fields: " + Join(Changed(PROFILE_FIELDS, fields), ", ")
  }

  /**
   * `updateProfileWithAI`. `profileEnsured` is what `ensureProfileExists`
   * answered, `current` the profile row or the error fetching it, `answer`
   * the model's reply, `parse` is `JSON.parse` and `updateFails` whether the
   * row update reports an error. `update` is the row update sent, if any.
   */
  method UpdateProfileWithAi(profileEnsured: bool, current: Result<Json>, answer: Completion,
                             parse: string -> Option<Json>, updateFails: bool)
    returns (r: ActionResult, update: Option<map<string, Json>>)
    ensures !profileEnsured ==> r == ActionResult(false, "Failed to ensure profile exists") && update == None
    ensures profileEnsured && current.Err? ==> r == ActionResult(false, "Failed to fetch current profile data") && update == None
    ensures profileEnsured && current.Ok? ==>
      var parsed := if current.value != JNull && answer.Ok? then parse(ParseInput(answer.value)) else None;
      var fields := if parsed.Some? then ValidFields(parsed.value) else None;
      && (current.value == JNull || answer.Err? ==> r == ActionResult(false, UNEXPECTED) && update == None)
      && (current.value != JNull && answer.Ok? && parsed.None? ==>
            r == ActionResult(false, "Failed to parse AI response") && update == None)
      && (parsed.Some? && fields.None? ==> r == ActionResult(false, UNEXPECTED) && update == None)
      && (fields.Some? ==>
            update == fields &&
            r == if updateFails then ActionResult(false, "Failed to update profile")
                 else ActionResult(true, UpdatedMessage(fields.value)))
    // nothing but the five profile fields is ever written
    ensures update.Some? ==> forall k :: k in update.value ==> k in PROFILE_FIELDS
  {
    if !profileEnsured {
      return ActionResult(false, "Failed to ensure profile exists"), None;
    }
    if current.Err? {
      return ActionResult(false, "Failed to fetch current profile data"), None;
    }
    if current.value == JNull || answer.Err? {
      // reading a field of a null profile, or the model call, threw
      return ActionResult(false, UNEXPECTED), None;
    }
    var parsed := parse(ParseInput(answer.value));
    if parsed.None? {
      return ActionResult(false, "Failed to parse AI response"), None;
    }
    var fields := ValidFields(parsed.value);
    if fields.None? {
      return ActionResult(false, UNEXPECTED), None;
    }
    update := fields;
    if updateFails {
      return ActionResult(false, "Failed to update profile"), update;
    }
    r := ActionResult(true, UpdatedMessage(fields.value));
  }

  /** An answer that changes nothing is still reported as a success, with an empty list. */
  lemma EmptyUpdateMessage()
    ensures UpdatedMessage(map[]) == "Profile updated successfully. Changed fields: "
  {
    assert Changed(PROFILE_FIELDS, map[]) == [];
  }
}
