/**
 * The job-alert list of app/dashboard/alerts/page.tsx: parsing the keyword
 * field, creating and deleting alerts, and the frequency labels. The
 * keyword parsing is shared with components/job-alerts-setup.tsx.
 */
module AlertsPage {
  import opened Common
  import opened Strings
  import opened Json

  /** `parts.map(k => k.trim())` */
  function TrimAll(parts: seq<string>): seq<string>
  {
    seq(|parts|, i requires 0 <= i < |parts| => Trim(parts[i]))
  }

  function NonEmpty(s: string): bool { |s| > 0 }

  /** `keywords.split(",").map(k => k.trim()).filter(k => k.length > 0)` */
  function ParseKeywords(keywords: string): (r: seq<string>)
  {
    Filter(TrimAll(Split(keywords, ',')), NonEmpty)
  }

  /** A keyword the field can carry through unchanged: non-empty, no comma, no white space at either end. */
  predicate Clean(k: string)
  {
    && k != "" && ',' !in k && !IsJsSpace(k[0]) && !IsJsSpace(k[|k| - 1])
  }

  lemma TrimClean(k: string)
    requires Clean(k)
    ensures Trim(k) == k
  {
  }

  /** A comma-free piece that is not blank trims to a clean keyword. */
  lemma TrimmedIsClean(piece: string)
    requires ',' !in piece && Trim(piece) != ""
    ensures Clean(Trim(piece))
  {
    var t := TrimStart(piece);
    var k := TrimEnd(t);
    assert k == t[..|k|];
    assert t == piece[|piece| - |t|..];
    forall j | 0 <= j < |k| ensures k[j] != ',' {
      assert k[j] == piece[|piece| - |t| + j];
    }
    assert k[0] == t[0];
  }

  /** Every parsed keyword is clean. */
  lemma ParsedAreClean(keywords: string, k: string)
    requires k in ParseKeywords(keywords)
    ensures Clean(k)
  {
    var parts := Split(keywords, ',');
    FilterMembers(TrimAll(parts), NonEmpty, k);
    var i :| 0 <= i < |parts| && TrimAll(parts)[i] == k;
    TrimmedIsClean(parts[i]);
  }

  /** Clean keywords joined with commas parse back to themselves. */
  lemma KeywordsRoundTrip(ks: seq<string>)
    requires forall i :: 0 <= i < |ks| ==> Clean(ks[i])
    ensures ParseKeywords(Join(ks, ",")) == ks
  {
    if ks == [] {
      EmptyFieldNoKeywords();
    } else {
      JoinedKeywordsRoundTrip(ks);
    }
  }

  lemma EmptyFieldNoKeywords()
    ensures ParseKeywords("") == []
  {
    assert TrimAll(Split("", ',')) == [""];
  }

  lemma JoinedKeywordsRoundTrip(ks: seq<string>)
    requires |ks| > 0 && forall i :: 0 <= i < |ks| ==> Clean(ks[i])
    ensures ParseKeywords(Join(ks, ",")) == ks
  {
    SplitJoin(ks, ',');
    assert "," == [','];
    TrimAllClean(ks);
    FilterKeepsAll(ks, NonEmpty);
  }

  /** Clean keywords are left as they are by trimming. */
  lemma TrimAllClean(ks: seq<string>)
    requires forall i :: 0 <= i < |ks| ==> Clean(ks[i])
    ensures TrimAll(ks) == ks
  {
    forall i | 0 <= i < |ks| ensures TrimAll(ks)[i] == ks[i] {
      TrimClean(ks[i]);
    }
  }

  /** A field holding only commas and white space gives no keywords. */
  lemma BlankFieldNoKeywords(keywords: string)
    requires forall i :: 0 <= i < |keywords| ==> keywords[i] == ',' || IsJsSpace(keywords[i])
    ensures ParseKeywords(keywords) == []
  {
    var parts := Split(keywords, ',');
    forall i | 0 <= i < |parts| ensures AllSpace(parts[i]) {
      PartIsBlank(keywords, i);
    }
    BlankPartsNoKeywords(parts);
  }

  /** White-space pieces all trim to nothing, and the filter drops them. */
  lemma {:induction false} BlankPartsNoKeywords(parts: seq<string>)
    requires forall i :: 0 <= i < |parts| ==> AllSpace(parts[i])
    ensures Filter(TrimAll(parts), NonEmpty) == []
    decreases |parts|
  {
    if |parts| > 0 {
      TrimEmptyIffBlank(parts[0]);
      BlankPartsNoKeywords(parts[1..]);
      assert TrimAll(parts)[1..] == TrimAll(parts[1..]);
    }
  }

  /** Every piece of such a field is white space only. */
  lemma {:induction false} PartIsBlank(keywords: string, i: nat)
    requires forall j :: 0 <= j < |keywords| ==> keywords[j] == ',' || IsJsSpace(keywords[j])
    requires i < |Split(keywords, ',')|
    ensures AllSpace(Split(keywords, ',')[i])
    decreases |keywords|
  {
    if |keywords| > 0 {
      var rest := Split(keywords[1..], ',');
      if keywords[0] == ',' {
        if i > 0 {
          PartIsBlank(keywords[1..], i - 1);
        }
      } else {
        if i == 0 {
          PartIsBlank(keywords[1..], 0);
          var p := [keywords[0]] + rest[0];
          forall j | 0 <= j < |p| ensures IsJsSpace(p[j]) {
            if j > 0 { assert p[j] == rest[0][j - 1]; }
          }
        } else {
          PartIsBlank(keywords[1..], i);
        }
      }
    }
  }

  /** What `createJobAlert` is called with; `None` stands for `undefined`. */
  datatype AlertRequest = AlertRequest(
    userId: string, jobTitle: string, location: Option<string>,
    keywords: Option<seq<string>>, frequency: string)

  /** `x || undefined` for a string, and `list.length > 0 ? list : undefined`. */
  function OrUndefined(s: string): (r: Option<string>)
    ensures r.None? <==> s == ""
    ensures r.Some? ==> r.value == s
  {
    if s == "" then None else Some(s)
  }

  function KeywordsOrUndefined(keywords: string): (r: Option<seq<string>>)
    ensures r.None? <==> ParseKeywords(keywords) == []
    ensures r.Some? ==> r.value == ParseKeywords(keywords)
  {
    var ks := ParseKeywords(keywords);
    if |ks| > 0 then Some(ks) else None
  }

  datatype AlertForm = AlertForm(jobTitle: string, location: string, keywords: string, frequency: string)

  const EMPTY_FORM := AlertForm("", "", "", "daily")

  /** The page's state; an alert is whatever the server returned, `None` being `undefined`. */
  datatype Page = Page(alerts: seq<Option<Json>>, form: AlertForm, dialogOpen: bool)

  datatype Created = Created(page: Page, request: Option<AlertRequest>)

  /**
   * `handleCreateAlert`, given the signed-in user's id and what
   * `createJobAlert` answered (its error, or the rows). An empty title stops
   * before any call; no user makes `user!.id` throw before the call. The
   * first row is appended (an empty answer appends `undefined`), the dialog
   * closes and the form is reset; an error leaves the page as it was.
   */
  function HandleCreateAlert(p: Page, user: Option<string>, reply: Result<seq<Json>>): (c: Created)
    ensures p.form.jobTitle == "" || user.None? ==> c == Created(p, None)
    ensures p.form.jobTitle != "" && user.Some? ==> c.request == Some(RequestFor(p.form, user.value))
    ensures p.form.jobTitle != "" && user.Some? && reply.Err? ==> c.page == p
    ensures p.form.jobTitle != "" && user.Some? && reply.Ok? ==>
      c.page == Page(p.alerts + [FirstRow(reply.value)], EMPTY_FORM, false)
  {
    if p.form.jobTitle == "" || user.None? then Created(p, None)
    else
      match reply
      case Err(_) => Created(p, Some(RequestFor(p.form, user.value)))
      case Ok(rows) => Created(Page(p.alerts + [FirstRow(rows)], EMPTY_FORM, false), Some(RequestFor(p.form, user.value)))
  }

  /** The arguments the form turns into. */
  function RequestFor(form: AlertForm, userId: string): (r: AlertRequest)
    ensures r.userId == userId && r.jobTitle == form.jobTitle && r.frequency == form.frequency
    ensures r.location == OrUndefined(form.location) && r.keywords == KeywordsOrUndefined(form.keywords)
  {
    AlertRequest(userId, form.jobTitle, OrUndefined(form.location), KeywordsOrUndefined(form.keywords), form.frequency)
  }

  /** `data[0]`: `undefined` for an empty answer. */
  function FirstRow(rows: seq<Json>): (r: Option<Json>)
    ensures r.None? <==> rows == []
    ensures r.Some? ==> r.value == rows[0]
  {
    if rows == [] then None else Some(rows[0])
  }

  /** `alert.id !== id` */
  function KeepsAlert(id: string): Json -> bool { (a: Json) => Field(a, "id") != Some(JStr(id)) }

  /** Whether some entry is `undefined` or `null`, whose `id` cannot be read without throwing. */
  predicate HasUnreadable(alerts: seq<Option<Json>>) { None in alerts || Some(JNull) in alerts }

  /**
   * `alerts.filter(alert => alert.id !== id)` after a successful delete.
   * Reading `id` of an `undefined` or `null` entry throws, which the handler
   * catches: the list is then left as it was.
   */
  function DeleteAlert(alerts: seq<Option<Json>>, id: string, failed: bool): (r: seq<Option<Json>>)
    ensures failed || HasUnreadable(alerts) ==> r == alerts
    ensures !failed && !HasUnreadable(alerts) ==>
      forall a :: Some(a) in r <==> Some(a) in alerts && KeepsAlert(id)(a)
    ensures !HasUnreadable(alerts) ==> !HasUnreadable(r)
  {
    if failed || HasUnreadable(alerts) then alerts
    else
      var r := Filter(alerts, (a: Option<Json>) => a.Some? && KeepsAlert(id)(a.value));
      assert forall a :: a in r <==> a in alerts && a.Some? && KeepsAlert(id)(a.value) by {
        forall a ensures a in r <==> a in alerts && a.Some? && KeepsAlert(id)(a.value) {
          FilterMembers(alerts, (a: Option<Json>) => a.Some? && KeepsAlert(id)(a.value), a);
        }
      }
      r
  }

  /**
   * A successful delete keeps the order of the list; unless an entry could
   * not be read, no alert with that id is left.
   */
  lemma DeleteRemovesId(alerts: seq<Option<Json>>, id: string)
    ensures !HasUnreadable(alerts) ==> forall a :: Some(a) in DeleteAlert(alerts, id, false) ==> Field(a, "id") != Some(JStr(id))
    ensures SubsequenceOf(DeleteAlert(alerts, id, false), alerts)
  {
    if HasUnreadable(alerts) {
      SubsequenceRefl(alerts);
    } else {
      FilterInOrder(alerts, (a: Option<Json>) => a.Some? && KeepsAlert(id)(a.value));
    }
  }

  const FREQUENCY_OPTIONS: seq<(string, string)> :=
    [("daily", "Daily"), ("weekly", "Weekly"), ("biweekly", "Bi-Weekly"), ("monthly", "Monthly")]

  /** `frequencyOptions.find(o => o.value === value)?.label || value` */
  function GetFrequencyLabel(value: string): (r: string)
    ensures value == "daily" ==> r == "Daily"
    ensures value == "weekly" ==> r == "Weekly"
    ensures value == "biweekly" ==> r == "Bi-Weekly"
    ensures value == "monthly" ==> r == "Monthly"
  {
    LabelIn(FREQUENCY_OPTIONS, value)
  }

  function LabelIn(options: seq<(string, string)>, value: string): (r: string)
    ensures (forall i :: 0 <= i < |options| ==> options[i].0 != value) ==> r == value
  {
    if |options| == 0 then value
    else if options[0].0 == value then (if options[0].1 != "" then options[0].1 else value)
    else LabelIn(options[1..], value)
  }

  /** A value is shown as it is exactly when it is not one of the four frequencies. */
  lemma UnknownFrequencyShownAsIs(value: string)
    ensures GetFrequencyLabel(value) == value <==> value !in {"daily", "weekly", "biweekly", "monthly"}
  {
    if value !in {"daily", "weekly", "biweekly", "monthly"} {
      assert forall i :: 0 <= i < |FREQUENCY_OPTIONS| ==> FREQUENCY_OPTIONS[i].0 != value;
    }
  }
}
