/**
 * The job search of app/dashboard/jobs/page.tsx: a portal's search URL is its
 * template with the first `{role}` and the first `{location}` replaced by
 * the URI-encoded inputs.
 */
module JobsPage {
  import opened Common
  import opened Strings

  const ROLE := "{role}"
  const LOCATION := "{location}"

  /**
   * A job portal. Its `searchUrlTemplate` is kept cut at its two
   * placeholders: `prefix + "{role}" + middle + "{location}" + suffix`.
   */
  datatype Portal = Portal(id: string, name: string, prefix: string, middle: string, suffix: string)

  function SearchUrlTemplate(p: Portal): string
  {
    p.prefix + ROLE + p.middle + LOCATION + p.suffix
  }

  const WWW := "https://www."

  const LINKEDIN := Portal("linkedin", "LinkedIn", WWW + "linkedin.com/jobs/search/?keywords=", "&location=", "")
  const INDEED := Portal("indeed", "Indeed", WWW + "indeed.com/jobs?q=", "&l=", "")
  const GLASSDOOR :=
    Portal("glassdoor", "Glassdoor", WWW + "glassdoor.com" + "/Job/jobs.htm" + "?sc.keyword=", "&locT=C&locId=0" + "&locKeyword=", "")
  const NAUKRI := Portal("naukri", "Naukri", WWW + "naukri.com/", "-jobs-in-", "")

  const JOB_PORTALS := [LINKEDIN, INDEED, GLASSDOOR, NAUKRI]

  /** No brace occurs in a template outside its placeholders. */
  predicate PlainParts(p: Portal)
  {
    '{' !in p.prefix && '{' !in p.middle
  }

  lemma NoBraceJoin(a: string, b: string)
    requires '{' !in a && '{' !in b
    ensures '{' !in a + b
  {
  }

  lemma WwwPlain() ensures '{' !in WWW {}

  lemma LinkedInPlain() ensures PlainParts(LINKEDIN)
  {
    WwwPlain();
    assert '{' !in "linkedin.com/jobs/search/?keywords=";
    NoBraceJoin(WWW, "linkedin.com/jobs/search/?keywords=");
  }

  lemma IndeedPlain() ensures PlainParts(INDEED)
  {
    WwwPlain();
    assert '{' !in "indeed.com/jobs?q=";
    NoBraceJoin(WWW, "indeed.com/jobs?q=");
  }

  lemma GlassdoorPlain() ensures PlainParts(GLASSDOOR)
  {
    WwwPlain();
    assert '{' !in "glassdoor.com";
    NoBraceJoin(WWW, "glassdoor.com");
    assert '{' !in "/Job/jobs.htm";
    NoBraceJoin(WWW + "glassdoor.com", "/Job/jobs.htm");
    assert '{' !in "?sc.keyword=";
    NoBraceJoin(WWW + "glassdoor.com" + "/Job/jobs.htm", "?sc.keyword=");
    assert '{' !in "&locT=C&locId=0";
    assert '{' !in "&locKeyword=";
    NoBraceJoin("&locT=C&locId=0", "&locKeyword=");
  }

  lemma NaukriPlain() ensures PlainParts(NAUKRI)
  {
    WwwPlain();
    assert '{' !in "naukri.com/";
    NoBraceJoin(WWW, "naukri.com/");
  }

  lemma PortalsHavePlainParts()
    ensures forall i :: 0 <= i < |JOB_PORTALS| ==> PlainParts(JOB_PORTALS[i])
  {
    LinkedInPlain();
    IndeedPlain();
    GlassdoorPlain();
    NaukriPlain();
  }

  /** `jobPortals.find(p => p.id === id)` */
  function FindPortal(portals: seq<Portal>, id: string): (r: Option<Portal>)
    ensures r.Some? ==> r.value in portals && r.value.id == id
    ensures r.None? <==> forall p :: p in portals ==> p.id != id
  {
    if |portals| == 0 then None
    else if portals[0].id == id then Some(portals[0])
    else FindPortal(portals[1..], id)
  }

  /** The two chained `replace` calls, with the values already encoded. */
  function FillTemplate(p: Portal, role: string, location: string): string
  {
    ReplaceFirst(ReplaceFirst(SearchUrlTemplate(p), ROLE, role), LOCATION, location)
  }

  /** Filling puts the role and the location in the placeholders and keeps the rest of the template. */
  lemma FillTemplatePlaces(p: Portal, role: string, location: string)
    requires PlainParts(p) && '{' !in role
    ensures FillTemplate(p, role, location) == p.prefix + role + p.middle + location + p.suffix
  {
    var rest := p.middle + LOCATION + p.suffix;
    assert SearchUrlTemplate(p) == p.prefix + ROLE + rest;
    ReplaceFirstAt(p.prefix, ROLE, rest, role);
    var once := p.prefix + role + rest;
    assert once == (p.prefix + role + p.middle) + LOCATION + p.suffix;
    assert '{' !in p.prefix + role + p.middle;
    ReplaceFirstAt(p.prefix + role + p.middle, LOCATION, p.suffix, location);
  }

  /** `generateSearchUrl`: `""` for an unknown portal. */
  function GenerateSearchUrl(selectedPortal: string, jobRole: string, location: string): (url: string)
    ensures FindPortal(JOB_PORTALS, selectedPortal).None? ==> url == ""
  {
    match FindPortal(JOB_PORTALS, selectedPortal)
    case None => ""
    case Some(p) => FillTemplate(p, EncodeUriComponent(jobRole), EncodeUriComponent(location))
  }

  /** For a known portal the URL is its template with the encoded role and location in place. */
  lemma SearchUrlHoldsEncodedInputs(i: nat, jobRole: string, location: string)
    requires i < |JOB_PORTALS|
    ensures
      var p := JOB_PORTALS[i];
      GenerateSearchUrl(p.id, jobRole, location)
        == p.prefix + EncodeUriComponent(jobRole) + p.middle + EncodeUriComponent(location) + p.suffix
  {
    var p := JOB_PORTALS[i];
    var q := FindPortal(JOB_PORTALS, p.id).value;
    assert q == p by {
      assert q in JOB_PORTALS && q.id == p.id;
    }
    PortalsHavePlainParts();
    EncodedHasNoBrace(jobRole);
    FillTemplatePlaces(p, EncodeUriComponent(jobRole), EncodeUriComponent(location));
  }

  /** `handleSearch`: the URL opened, if any; a missing role or location opens nothing. */
  function HandleSearch(selectedPortal: string, jobRole: string, location: string): (url: Option<string>)
    ensures url.None? <==> jobRole == "" || location == ""
    ensures url.Some? ==> url.value == GenerateSearchUrl(selectedPortal, jobRole, location)
  {
    if jobRole == "" || location == "" then None
    else Some(GenerateSearchUrl(selectedPortal, jobRole, location))
  }

  /** The "Recommended Portals" links: the first three portals with both placeholders emptied. */
  function RecommendedLinks(): (links: seq<string>)
    ensures |links| == 3
    ensures forall i :: 0 <= i < 3 ==> links[i] == FillTemplate(JOB_PORTALS[i], "", "")
  {
    var top := JOB_PORTALS[..3];
    seq(|top|, i requires 0 <= i < |top| => FillTemplate(top[i], "", ""))
  }

  /** Emptying both placeholders of a template leaves the text around them. */
  lemma EmptyFillDropsPlaceholders(p: Portal)
    requires PlainParts(p)
    ensures FillTemplate(p, "", "") == p.prefix + p.middle + p.suffix
  {
    FillTemplatePlaces(p, "", "");
    assert p.prefix + "" + p.middle + "" + p.suffix == p.prefix + p.middle + p.suffix;
  }

  /** Each recommended link is its template with the placeholders removed. */
  lemma RecommendedLinksDropPlaceholders(i: nat)
    requires i < 3
    ensures RecommendedLinks()[i] == JOB_PORTALS[i].prefix + JOB_PORTALS[i].middle + JOB_PORTALS[i].suffix
  {
    PortalsHavePlainParts();
    EmptyFillDropsPlaceholders(JOB_PORTALS[i]);
  }
}
