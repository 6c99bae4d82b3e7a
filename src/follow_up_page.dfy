/**
 * The follow-up list of app/dashboard/follow-up/page.tsx: marking a follow-up
 * as sent, and the badges shown for it.
 */
module FollowUpPage {
  /** A follow-up as listed; `status` is its application's status. */
  datatype FollowUp = FollowUp(id: string, sent: bool, content: string, scheduledDate: string, status: string)

  /** `followUps.map(f => f.id === id ? {...f, sent: true} : f)` */
  function MarkSent(followUps: seq<FollowUp>, id: string): (r: seq<FollowUp>)
    ensures |r| == |followUps|
    ensures forall i :: 0 <= i < |followUps| ==>
      r[i] == if followUps[i].id == id then followUps[i].(sent := true) else followUps[i]
  {
    if |followUps| == 0 then []
    else [if followUps[0].id == id then followUps[0].(sent := true) else followUps[0]] + MarkSent(followUps[1..], id)
  }

  /** `handleMarkAsSent`: when the server reports an error the list stays as it was. */
  function HandleMarkAsSent(followUps: seq<FollowUp>, id: string, failed: bool): (r: seq<FollowUp>)
    ensures failed ==> r == followUps
    ensures !failed ==> r == MarkSent(followUps, id)
  {
    if failed then followUps else MarkSent(followUps, id)
  }

  /** Marking is idempotent, and afterwards every follow-up with that id reads "Sent". */
  lemma MarkSentSettles(followUps: seq<FollowUp>, id: string)
    ensures MarkSent(MarkSent(followUps, id), id) == MarkSent(followUps, id)
    ensures forall f :: f in MarkSent(followUps, id) && f.id == id ==> SentBadge(f) == "Sent"
  {
    var once := MarkSent(followUps, id);
    assert MarkSent(once, id) == once by {
      assert |MarkSent(once, id)| == |once|;
      forall i | 0 <= i < |once| ensures MarkSent(once, id)[i] == once[i] {
      }
    }
  }

  /** Marking changes no follow-up except in its `sent` flag. */
  lemma MarkSentOnlyFlag(followUps: seq<FollowUp>, id: string, i: nat)
    requires i < |followUps|
    ensures MarkSent(followUps, id)[i].(sent := followUps[i].sent) == followUps[i]
    ensures MarkSent(followUps, id)[i].sent <==> followUps[i].sent || followUps[i].id == id
  {
  }

  const SLATE := "bg-slate-500"

  /** The colour lookup table of `getStatusBadge`. */
  const STATUS_COLORS: map<string, string> := map[
    "applied" := "bg-blue-500", "interviewing" := "bg-yellow-500", "offer" := "bg-green-500",
    "rejected" := "bg-red-500", "withdrawn" := SLATE]

  /** `statusColors[status] || "bg-slate-500"` */
  function StatusColor(status: string): (c: string)
    ensures status in STATUS_COLORS ==> c == STATUS_COLORS[status]
    ensures status !in STATUS_COLORS ==> c == SLATE
  {
    if status in STATUS_COLORS && STATUS_COLORS[status] != "" then STATUS_COLORS[status] else SLATE
  }

  /** Only "withdrawn" shares the slate colour of an unknown status; the other four are told apart. */
  lemma SlateMeansWithdrawnOrUnknown(status: string)
    ensures StatusColor(status) == SLATE <==> status == "withdrawn" || status !in STATUS_COLORS
  {
  }

  /** The right-hand badge: "Sent" or "Pending". */
  function SentBadge(f: FollowUp): (badge: string)
    ensures badge == "Sent" <==> f.sent
    ensures badge == "Pending" <==> !f.sent
  {
    if f.sent then "Sent" else "Pending"
  }
}
