/**
 * The alert form of components/job-alerts-setup.tsx: the same keyword
 * parsing as the alerts page, a real-time switch that overrides the chosen
 * frequency, and a form that is reset only after a successful create.
 */
module JobAlertsSetup {
  import opened Common
  import AlertsPage
  import Strings

  datatype Setup = Setup(jobTitle: string, location: string, keywords: string, frequency: string, isRealTime: bool)

  const DEFAULT_SETUP := Setup("", "", "", "daily", false)

  /** `isRealTime ? "realtime" : frequency` */
  function Frequency(s: Setup): (f: string)
    ensures s.isRealTime ==> f == "realtime"
    ensures !s.isRealTime ==> f == s.frequency
  {
    if s.isRealTime then "realtime" else s.frequency
  }

  datatype Submitted = Submitted(setup: Setup, request: Option<AlertsPage.AlertRequest>)

  /**
   * `handleCreateAlert`, given the signed-in user's id and whether
   * `createJobAlert` reported an error. No user, then an empty title, stop
   * before the call; after a successful create the form returns to its
   * defaults, after an error it is kept.
   */
  function HandleCreateAlert(s: Setup, user: Option<string>, failed: bool): (r: Submitted)
    ensures user.None? || s.jobTitle == "" ==> r == Submitted(s, None)
    ensures user.Some? && s.jobTitle != "" ==>
      && r.request == Some(AlertsPage.AlertRequest(
           user.value, s.jobTitle, AlertsPage.OrUndefined(s.location),
           AlertsPage.KeywordsOrUndefined(s.keywords), Frequency(s)))
      && r.setup == (if failed then s else DEFAULT_SETUP)
  {
    if user.None? || s.jobTitle == "" then Submitted(s, None)
    else
      var request := AlertsPage.AlertRequest(
        user.value, s.jobTitle, AlertsPage.OrUndefined(s.location),
        AlertsPage.KeywordsOrUndefined(s.keywords), Frequency(s));
      Submitted(if failed then s else DEFAULT_SETUP, Some(request))
  }

  /** The request carries the keywords typed, comma-separated, exactly; a blank field sends none. */
  lemma KeywordsSentAsTyped(s: Setup, userId: string, ks: seq<string>, failed: bool)
    requires s.jobTitle != "" && |ks| > 0 && forall i :: 0 <= i < |ks| ==> AlertsPage.Clean(ks[i])
    requires s.keywords == Strings.Join(ks, ",")
    ensures HandleCreateAlert(s, Some(userId), failed).request.value.keywords == Some(ks)
  {
    AlertsPage.KeywordsRoundTrip(ks);
  }

  /** Whatever the switch was, a successful create leaves it off and the frequency daily. */
  lemma SuccessRestoresDefaults(s: Setup, userId: string)
    requires s.jobTitle != ""
    ensures var r := HandleCreateAlert(s, Some(userId), false);
      !r.setup.isRealTime && Frequency(r.setup) == "daily"
  {
  }
}
