/**
 * The import form of components/profile-importer.tsx: three guards in turn
 * (a user, a URL that is not blank, a URL starting with "http"), then the
 * import, after which a successful run clears the field.
 */
module ProfileImporter {
  import opened Common
  import opened Strings

  const NOT_SIGNED_IN := "You must be logged in to use this feature"
  const BLANK_URL := "Please enter a profile URL"
  const INVALID_URL := "Please enter a valid URL"
  const IMPORT_CRASHED := "Failed to import profile. Please try again."

  /** What `importProfileFromUrl` reports. */
  datatype ImportResult = ImportResult(success: bool, message: string)

  /**
   * The outcome of `handleSubmit`: the import call made (user id and URL),
   * the URL field afterwards, whether the toast is an error, and its text.
   */
  datatype Submitted = Submitted(call: Option<(string, string)>, profileUrl: string, failed: bool, toast: string)

  /** The guards, in order; `None` lets the import go ahead. */
  function Rejection(user: Option<string>, profileUrl: string): (r: Option<string>)
    ensures user.None? ==> r == Some(NOT_SIGNED_IN)
    ensures user.Some? && AllSpace(profileUrl) ==> r == Some(BLANK_URL)
    ensures user.Some? && !AllSpace(profileUrl) && !StartsWith(profileUrl, "http") ==> r == Some(INVALID_URL)
    ensures r.None? <==> user.Some? && !AllSpace(profileUrl) && StartsWith(profileUrl, "http")
  {
    TrimEmptyIffBlank(profileUrl);
    if user.None? then Some(NOT_SIGNED_IN)
    else if Trim(profileUrl) == "" then Some(BLANK_URL)
    else if !StartsWith(profileUrl, "http") then Some(INVALID_URL)
    else None
  }

  /** `handleSubmit`, given what the import answered or the message it threw. */
  function HandleSubmit(user: Option<string>, profileUrl: string, reply: Result<ImportResult>): (s: Submitted)
    ensures Rejection(user, profileUrl).Some? ==>
      s == Submitted(None, profileUrl, true, Rejection(user, profileUrl).value)
    ensures Rejection(user, profileUrl).None? ==>
      && s.call == Some((user.value, profileUrl))
      && s.profileUrl == (if reply.Ok? && reply.value.success then "" else profileUrl)
      && (s.failed <==> !(reply.Ok? && reply.value.success))
      && s.toast == (if reply.Ok? then reply.value.message else IMPORT_CRASHED)
  {
    match Rejection(user, profileUrl)
    case Some(m) => Submitted(None, profileUrl, true, m)
    case None =>
      var call := Some((user.value, profileUrl));
      match reply
      case Err(_) => Submitted(call, profileUrl, true, IMPORT_CRASHED)
      case Ok(result) =>
        if result.success then Submitted(call, "", false, result.message)
        else Submitted(call, profileUrl, true, result.message)
  }

  /** A URL with white space before "http" is turned away, though trimming would have fixed it. */
  lemma LeadingSpaceRejected(userId: string, rest: string, reply: Result<ImportResult>)
    ensures HandleSubmit(Some(userId), " http" + rest, reply).call.None?
    ensures HandleSubmit(Some(userId), " http" + rest, reply).toast == INVALID_URL
  {
    var url := " http" + rest;
    assert !AllSpace(url) by { assert url[1] == 'h' && !IsJsSpace(url[1]); }
    assert !StartsWith(url, "http") by { assert url[..4][0] == ' ' != "http"[0]; }
    assert Rejection(Some(userId), url) == Some(INVALID_URL);
  }

  /** Any URL starting with "http" is sent as typed, "https" and "httpfoo" alike. */
  lemma HttpPrefixAccepted(userId: string, rest: string, reply: Result<ImportResult>)
    ensures HandleSubmit(Some(userId), "http" + rest, reply).call == Some((userId, "http" + rest))
  {
    var url := "http" + rest;
    assert url[..4] == "http";
    assert url[0] == 'h' && !IsJsSpace(url[0]);
  }
}
