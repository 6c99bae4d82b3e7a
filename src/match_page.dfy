/**
 * The job-match page of app/dashboard/match/page.tsx: the request guard, and
 * what is shown for a computed match score, in three bands at 70 and 50.
 */
module MatchPage {
  import opened Common

  datatype MatchForm = MatchForm(jobTitle: string, company: string, location: string, jobDescription: string)

  /** What `calculateJobMatchScore` is called with, besides the fixed sample resume. */
  datatype MatchRequest = MatchRequest(
    userId: string, jobDescription: string, jobTitle: string, company: string, location: Option<string>)

  /** The parts of a computed match the page reads; `score` is `match_score`. */
  datatype MatchData = MatchData(score: int, skillsMissing: seq<string>, recommendation: string)

  datatype Calculated = Calculated(request: Option<MatchRequest>, matchData: Option<MatchData>)

  /**
   * `handleCalculateMatch`, given the signed-in user's id, the match shown
   * so far, and what the action answered. Title, company and description are
   * required; without a user `user!.id` throws before the call; an error
   * leaves the shown match as it was.
   */
  function HandleCalculateMatch(form: MatchForm, user: Option<string>, shown: Option<MatchData>,
                                reply: Result<MatchData>): (c: Calculated)
    ensures form.jobTitle == "" || form.company == "" || form.jobDescription == "" || user.None? ==>
      c == Calculated(None, shown)
    ensures form.jobTitle != "" && form.company != "" && form.jobDescription != "" && user.Some? ==>
      && c.request == Some(MatchRequest(user.value, form.jobDescription, form.jobTitle, form.company,
                                        if form.location == "" then None else Some(form.location)))
      && c.matchData == (if reply.Ok? then Some(reply.value) else shown)
  {
    if form.jobTitle == "" || form.company == "" || form.jobDescription == "" || user.None? then
      Calculated(None, shown)
    else
      var request := MatchRequest(user.value, form.jobDescription, form.jobTitle, form.company,
                                  if form.location == "" then None else Some(form.location));
      Calculated(Some(request), if reply.Ok? then Some(reply.value) else shown)
  }

  datatype Band = Strong | Potential | Low

  /** The three bands: 70 and above, 50 and above, and the rest. */
  function BandOf(score: int): (b: Band)
    ensures b == Strong <==> score >= 70
    ensures b == Potential <==> 50 <= score < 70
    ensures b == Low <==> score < 50
  {
    if score >= 70 then Strong else if score >= 50 then Potential else Low
  }

  function Rank(b: Band): nat
  {
    match b
    case Low => 0
    case Potential => 1
    case Strong => 2
  }

  /** A higher score never falls in a lower band. */
  lemma BandMonotone(s: int, t: int)
    requires s <= t
    ensures Rank(BandOf(s)) <= Rank(BandOf(t))
  {
  }

  /** The recommendation badge: its label and colour. */
  function BadgeLabel(score: int): (text: string)
    ensures BandOf(score) == Strong ==> text == "Strong Match"
    ensures BandOf(score) == Potential ==> text == "Potential Match"
    ensures BandOf(score) == Low ==> text == "Low Match"
  {
    if score >= 70 then "Strong Match" else if score >= 50 then "Potential Match" else "Low Match"
  }

  function BadgeColor(score: int): (color: string)
    ensures BandOf(score) == Strong ==> color == "bg-green-500"
    ensures BandOf(score) == Potential ==> color == "bg-yellow-500"
    ensures BandOf(score) == Low ==> color == "bg-red-500"
  {
    if score >= 70 then "bg-green-500" else if score >= 50 then "bg-yellow-500" else "bg-red-500"
  }

  /** The first next step: tailoring the resume from 50 up, developing skills below. */
  function FirstStep(score: int): (step: string)
    ensures step == "Tailor your resume" <==> score >= 50
    ensures step == "Develop missing skills" <==> score < 50
  {
    if score >= 50 then "Tailor your resume" else "Develop missing skills"
  }

  /** The second next step, one per band. */
  function SecondStep(score: int): (step: string)
    ensures BandOf(score) == Strong ==> step == "Apply with confidence"
    ensures BandOf(score) == Potential ==> step == "Apply with a strong cover letter"
    ensures BandOf(score) == Low ==> step == "Look for more suitable roles"
  {
    if score >= 70 then "Apply with confidence"
    else if score >= 50 then "Apply with a strong cover letter"
    else "Look for more suitable roles"
  }

  /** Whether the "Track Application" button is shown. */
  predicate ShowsTrackApplication(score: int) { score >= 50 }

  /**
   * The page never contradicts itself: tracking is offered exactly when the
   * badge is not "Low Match", which is exactly when the first step is to
   * tailor the resume and the second is to apply.
   */
  lemma RecommendationsAgree(score: int)
    ensures ShowsTrackApplication(score) <==> BadgeLabel(score) != "Low Match"
    ensures ShowsTrackApplication(score) <==> FirstStep(score) == "Tailor your resume"
    ensures ShowsTrackApplication(score) <==> SecondStep(score) != "Look for more suitable roles"
  {
  }

  const HIGH_PRIORITY := "High priority - mentioned multiple times in the job description"
  const MEDIUM_PRIORITY := "Medium priority - important for this role"
  const LOW_PRIORITY := "Consider learning this skill to improve your match"

  /** The skill-gap list: at most the first three missing skills, each with its priority note. */
  function SkillGap(skillsMissing: seq<string>): (gap: seq<(string, string)>)
    ensures |gap| == Min(3, |skillsMissing|)
    ensures forall i :: 0 <= i < |gap| ==> gap[i].0 == skillsMissing[i]
    ensures |gap| > 0 ==> gap[0].1 == HIGH_PRIORITY
    ensures |gap| > 1 ==> gap[1].1 == MEDIUM_PRIORITY
    ensures |gap| > 2 ==> gap[2].1 == LOW_PRIORITY
  {
    var top := if |skillsMissing| > 3 then skillsMissing[..3] else skillsMissing;
    seq(|top|, i requires 0 <= i < |top| =>
      (top[i], if i == 0 then HIGH_PRIORITY else if i == 1 then MEDIUM_PRIORITY else LOW_PRIORITY))
  }
}
