/**
 * The application tracker of app/dashboard/applications/page.tsx: the list of
 * job applications, its status filter, and the add, edit and delete handlers
 * that replace the list wholesale after the database answers.
 */
module ApplicationsPage {
  import opened Common

  /** An application as the page holds it; `dateApplied` is the parsed date, in milliseconds. */
  datatype Application = Application(
    id: string, company: string, position: string, location: string,
    status: string, dateApplied: int, notes: string, link: string)

  /** A row of the `applications` table, with `date_applied` already parsed. */
  datatype Row = Row(
    id: string, company: string, position: string, location: string,
    status: string, date_applied: int, notes: string, link: string)

  /** The fetched or returned row as the page holds it: `date_applied` becomes `dateApplied`. */
  function FromRow(r: Row): (a: Application)
    ensures a.id == r.id && a.status == r.status && a.dateApplied == r.date_applied
    ensures a.company == r.company && a.position == r.position && a.location == r.location
    ensures a.notes == r.notes && a.link == r.link
  {
    Application(r.id, r.company, r.position, r.location, r.status, r.date_applied, r.notes, r.link)
  }

  /** The fetched list, mapped row by row. */
  function FromRows(rows: seq<Row>): (apps: seq<Application>)
    ensures |apps| == |rows|
    ensures forall i :: 0 <= i < |rows| ==> apps[i] == FromRow(rows[i])
  {
    if |rows| == 0 then [] else [FromRow(rows[0])] + FromRows(rows[1..])
  }

  /** The status options: value, label (`name`) and badge colour. */
  datatype StatusOption = StatusOption(value: string, name: string, color: string)

  const STATUS_OPTIONS := [
    StatusOption("applied", "Applied", "bg-blue-500"),
    StatusOption("interviewing", "Interviewing", "bg-yellow-500"),
    StatusOption("offer", "Offer", "bg-green-500"),
    StatusOption("rejected", "Rejected", "bg-red-500"),
    StatusOption("withdrawn", "Withdrawn", "bg-slate-500")]

  /** `statusOptions.find(o => o.value === status)` */
  function FindStatus(options: seq<StatusOption>, status: string): (r: Option<StatusOption>)
    ensures r.Some? ==> r.value in options && r.value.value == status
    ensures r.None? <==> forall o :: o in options ==> o.value != status
  {
    if |options| == 0 then None
    else if options[0].value == status then Some(options[0])
    else FindStatus(options[1..], status)
  }

  /** Every one of the five statuses has its badge; anything else has none. */
  lemma KnownStatusesHaveBadges(status: string)
    ensures FindStatus(STATUS_OPTIONS, status).Some? <==>
      status in {"applied", "interviewing", "offer", "rejected", "withdrawn"}
  {
    if FindStatus(STATUS_OPTIONS, status).Some? {
      assert FindStatus(STATUS_OPTIONS, status).value in STATUS_OPTIONS;
    } else {
      assert forall o :: o in STATUS_OPTIONS ==> o.value != status;
      assert STATUS_OPTIONS[0] in STATUS_OPTIONS && STATUS_OPTIONS[1] in STATUS_OPTIONS;
      assert STATUS_OPTIONS[2] in STATUS_OPTIONS && STATUS_OPTIONS[3] in STATUS_OPTIONS;
      assert STATUS_OPTIONS[4] in STATUS_OPTIONS;
    }
  }

  function HasStatus(status: string): Application -> bool { (a: Application) => a.status == status }

  /** `filteredApplications`: everything under "all", otherwise the applications with that status. */
  function FilterByStatus(apps: seq<Application>, filter: string): (r: seq<Application>)
    ensures filter == "all" ==> r == apps
    ensures filter != "all" ==> forall a :: a in r <==> a in apps && a.status == filter
  {
    if filter == "all" then apps
    else
      var r := Filter(apps, HasStatus(filter));
      assert forall a :: a in r <==> a in apps && a.status == filter by {
        forall a ensures a in r <==> a in apps && a.status == filter {
          FilterMembers(apps, HasStatus(filter), a);
        }
      }
      r
  }

  /** The filter keeps the order of the list. */
  lemma FilterKeepsOrder(apps: seq<Application>, filter: string)
    ensures SubsequenceOf(FilterByStatus(apps, filter), apps)
  {
    if filter == "all" {
      Common.FilterKeepsAll(apps, (a: Application) => true);
      FilterInOrder(apps, (a: Application) => true);
    } else {
      FilterInOrder(apps, HasStatus(filter));
    }
  }

  /** `applications.map(app => app.id === updated.id ? updated : app)` */
  function EditById(apps: seq<Application>, updated: Application): (r: seq<Application>)
    ensures |r| == |apps|
    ensures forall i :: 0 <= i < |apps| ==> r[i] == if apps[i].id == updated.id then updated else apps[i]
  {
    if |apps| == 0 then [] else [if apps[0].id == updated.id then updated else apps[0]] + EditById(apps[1..], updated)
  }

  function Keeps(id: string): Application -> bool { (a: Application) => a.id != id }

  /** `applications.filter(app => app.id !== id)` */
  function DeleteById(apps: seq<Application>, id: string): (r: seq<Application>)
    ensures forall a :: a in r <==> a in apps && a.id != id
  {
    var r := Filter(apps, Keeps(id));
    assert forall a :: a in r <==> a in apps && a.id != id by {
      forall a ensures a in r <==> a in apps && a.id != id {
        FilterMembers(apps, Keeps(id), a);
      }
    }
    r
  }

  /** Deleting keeps the remaining applications in their order. */
  lemma DeleteKeepsOrder(apps: seq<Application>, id: string)
    ensures SubsequenceOf(DeleteById(apps, id), apps)
  {
    FilterInOrder(apps, Keeps(id));
  }

  /** Deleting twice is deleting once. */
  lemma DeleteIdempotent(apps: seq<Application>, id: string)
    ensures DeleteById(DeleteById(apps, id), id) == DeleteById(apps, id)
  {
    var once := DeleteById(apps, id);
    FilterKeepsAll(once, Keeps(id));
    assert forall i :: 0 <= i < |once| ==> Keeps(id)(once[i]) by {
      forall i | 0 <= i < |once| ensures Keeps(id)(once[i]) {
        assert once[i] in once;
      }
    }
  }

  /** An edit is lost once the edited application is deleted: editing then deleting is deleting. */
  lemma {:induction false} DeleteAfterEdit(apps: seq<Application>, updated: Application)
    ensures DeleteById(EditById(apps, updated), updated.id) == DeleteById(apps, updated.id)
    decreases |apps|
  {
    if |apps| > 0 {
      DeleteAfterEdit(apps[1..], updated);
      var e := EditById(apps, updated);
      assert e[1..] == EditById(apps[1..], updated);
      assert DeleteById(e, updated.id) == Filter(e, Keeps(updated.id));
      assert DeleteById(apps, updated.id) == Filter(apps, Keeps(updated.id));
    }
  }

  /** The add/edit form. */
  datatype Form = Form(
    company: string, position: string, location: string,
    status: string, dateApplied: int, notes: string, link: string)

  /** The page state the handlers replace. */
  datatype Page = Page(
    applications: seq<Application>, form: Form, current: Option<Application>,
    addOpen: bool, editOpen: bool)

  /** `resetForm`: empty fields, status "applied", today's date, and no application being edited. */
  function ResetForm(p: Page, today: int): (q: Page)
    ensures q.form == Form("", "", "", "applied", today, "", "") && q.current.None?
    ensures q.applications == p.applications && q.addOpen == p.addOpen && q.editOpen == p.editOpen
  {
    p.(form := Form("", "", "", "applied", today, "", ""), current := None)
  }

  /**
   * `handleAddApplication`, given whether someone is signed in and what
   * `addApplication` answered (its error, or the inserted rows). The first
   * row returned is put in front of the list; an error, or no row, changes
   * nothing.
   */
  function HandleAddApplication(p: Page, signedIn: bool, reply: Result<seq<Row>>, today: int): (q: Page)
    ensures !signedIn || reply.Err? || reply.value == [] ==> q == p
    ensures signedIn && reply.Ok? && reply.value != [] ==>
      && q.applications == [FromRow(reply.value[0])] + p.applications
      && !q.addOpen && q.form.status == "applied" && q.current.None?
  {
    if !signedIn then p
    else match reply
      case Err(_) => p
      case Ok(rows) =>
        if rows == [] then p
        else ResetForm(p.(applications := [FromRow(rows[0])] + p.applications, addOpen := false), today)
  }

  /** `openEditDialog`: the form is filled from the application, which becomes the current one. */
  function OpenEditDialog(p: Page, a: Application): (q: Page)
    ensures q.current == Some(a) && q.editOpen && q.applications == p.applications
    ensures q.form == Form(a.company, a.position, a.location, a.status, a.dateApplied, a.notes, a.link)
  {
    p.(current := Some(a), editOpen := true,
       form := Form(a.company, a.position, a.location, a.status, a.dateApplied, a.notes, a.link))
  }

  /**
   * `handleEditApplication`: with an application being edited, the returned
   * row replaces every application with its id.
   */
  function HandleEditApplication(p: Page, reply: Result<seq<Row>>, today: int): (q: Page)
    ensures p.current.None? || reply.Err? || reply.value == [] ==> q == p
    ensures p.current.Some? && reply.Ok? && reply.value != [] ==>
      && q.applications == EditById(p.applications, FromRow(reply.value[0]))
      && !q.editOpen && q.current.None?
  {
    if p.current.None? then p
    else match reply
      case Err(_) => p
      case Ok(rows) =>
        if rows == [] then p
        else ResetForm(p.(applications := EditById(p.applications, FromRow(rows[0])), editOpen := false), today)
  }

  /** `handleDeleteApplication`: a failed delete changes nothing. */
  function HandleDeleteApplication(p: Page, id: string, failed: bool): (q: Page)
    ensures failed ==> q == p
    ensures !failed ==> q == p.(applications := DeleteById(p.applications, id))
  {
    if failed then p else p.(applications := DeleteById(p.applications, id))
  }

  /** A newly added application heads both the full list and the list filtered by its status. */
  lemma AddedShowsFirst(p: Page, row: Row, today: int)
    ensures
      var q := HandleAddApplication(p, true, Ok([row]), today);
      && FilterByStatus(q.applications, "all")[0] == FromRow(row)
      && FilterByStatus(q.applications, row.status)[0] == FromRow(row)
  {
    var q := HandleAddApplication(p, true, Ok([row]), today);
    if row.status != "all" {
      assert q.applications == [FromRow(row)] + p.applications;
      assert Filter(q.applications, HasStatus(row.status))
        == [FromRow(row)] + Filter(p.applications, HasStatus(row.status));
    }
  }
}
