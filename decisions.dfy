/**
 * The decisions page over its fixed list: status icon and colour, the counters, the tabs and
 * what each decision card offers.
 */
module Decisions {
  import opened Common
  import opened Seqs

  /** A decision. `decidedDate` is null until the decision is taken. */
  datatype Decision = Decision(id: string, status: string, decidedDate: Option<string>, impact: string)

  const AllDecisions: seq<Decision> := [
    Decision("DEC-001", "pending", None, "Will accelerate delivery by 2 weeks"),
    Decision("DEC-002", "approved", Some("2025-01-10"), "Ensures continuity of service delivery"),
    Decision("DEC-003", "overdue", None, "Critical for project timeline")
  ]

  datatype StatusIcon = CheckCircleIcon | ClockIcon | XCircleIcon | AlertCircleIcon

  datatype StatusTone = GreenTone | GoldTone | DestructiveTone | MutedTone

  /** `getStatusIcon` and `getStatusColor`: three statuses and one default for the rest. */
  function IconFor(status: string): (icon: StatusIcon)
    ensures icon == AlertCircleIcon <==> status != "approved" && status != "pending" && status != "overdue"
  {
    if status == "approved" then CheckCircleIcon
    else if status == "pending" then ClockIcon
    else if status == "overdue" then XCircleIcon
    else AlertCircleIcon
  }

  function ColorFor(status: string): (tone: StatusTone)
    ensures tone == MutedTone <==> status != "approved" && status != "pending" && status != "overdue"
  {
    if status == "approved" then GreenTone
    else if status == "pending" then GoldTone
    else if status == "overdue" then DestructiveTone
    else MutedTone
  }

  /** Icon and colour tell the status apart in the same way. */
  lemma IconAndColorAgree(s1: string, s2: string)
    ensures IconFor(s1) == IconFor(s2) <==> ColorFor(s1) == ColorFor(s2)
  {
  }

  function WithStatus(decisions: seq<Decision>, status: string): (r: seq<Decision>)
    ensures IsSubsequence(r, decisions)
    ensures forall k :: 0 <= k < |r| ==> r[k].status == status
    ensures forall k :: 0 <= k < |decisions| && decisions[k].status == status ==> decisions[k] in r
    ensures multiset(r) <= multiset(decisions)
    ensures forall i :: 0 <= i < |decisions| && decisions[i].status == status ==> multiset(r)[decisions[i]] == multiset(decisions)[decisions[i]]
    ensures |r| == |Positions(decisions, (d: Decision) => d.status == status)|
  {
    var keep := (d: Decision) => d.status == status;
    FilterIsSubsequence(decisions, keep);
    FilterMultiset(decisions, keep);
    FilterCount(decisions, keep);
    Filter(decisions, keep)
  }

  /** The counters (`stats`) and the lists of the three status tabs. */
  datatype View = View(pending: nat, approved: nat, overdue: nat,
    pendingTab: seq<Decision>, approvedTab: seq<Decision>, overdueTab: seq<Decision>, allTab: seq<Decision>)

  /** The page; `searchQuery` is held by the search box but no list consults it. */
  function ViewOf(decisions: seq<Decision>, searchQuery: string): (v: View)
    ensures v.pending == |v.pendingTab| && v.approved == |v.approvedTab| && v.overdue == |v.overdueTab|
    ensures v.pending + v.approved + v.overdue <= |v.allTab| == |decisions|
    ensures v.allTab == decisions
  {
    ExclusiveCounts3(decisions, (d: Decision) => d.status == "pending", (d: Decision) => d.status == "approved",
      (d: Decision) => d.status == "overdue");
    View(|WithStatus(decisions, "pending")|, |WithStatus(decisions, "approved")|, |WithStatus(decisions, "overdue")|,
      WithStatus(decisions, "pending"), WithStatus(decisions, "approved"), WithStatus(decisions, "overdue"), decisions)
  }

  /** The search box changes nothing the page shows. */
  lemma SearchIsIgnored(decisions: seq<Decision>, q1: string, q2: string)
    ensures ViewOf(decisions, q1) == ViewOf(decisions, q2)
  {
  }

  /** What a card of the main list shows besides its text. */
  datatype CardParts = CardParts(decidedLine: bool, impactBox: bool, sendReminder: bool)

  function CardOf(d: Decision): (c: CardParts)
    ensures c.sendReminder <==> d.status == "pending"
    ensures c.decidedLine <==> d.decidedDate.Some? && d.decidedDate.value != ""
    ensures c.impactBox <==> d.impact != ""
  {
    CardParts(d.decidedDate.Some? && d.decidedDate.value != "", d.impact != "", d.status == "pending")
  }

  /** The cards that offer a reminder are exactly those of the pending tab. */
  lemma RemindersArePendingTab(decisions: seq<Decision>)
    ensures forall k :: 0 <= k < |decisions| ==> (CardOf(decisions[k]).sendReminder <==> decisions[k] in WithStatus(decisions, "pending"))
  {
  }

  /** The counters of any three decisions with one of each status. */
  lemma ShapeCounts(s: seq<Decision>)
    requires |s| == 3 && s[0].status == "pending" && s[1].status == "approved" && s[2].status == "overdue"
    ensures var v := ViewOf(s, ""); v.pending == 1 && v.approved == 1 && v.overdue == 1
  {
    FilterOfThree(s, (d: Decision) => d.status == "pending");
    FilterOfThree(s, (d: Decision) => d.status == "approved");
    FilterOfThree(s, (d: Decision) => d.status == "overdue");
  }

  /** The fixed list: one pending, one approved, one overdue. */
  lemma FixedListCounts()
    ensures var v := ViewOf(AllDecisions, ""); v.pending == 1 && v.approved == 1 && v.overdue == 1
  {
    ShapeCounts(AllDecisions);
  }

  /** On the fixed list only the approved decision shows when it was decided. */
  lemma FixedListDates()
    ensures forall k :: 0 <= k < |AllDecisions| ==> (CardOf(AllDecisions[k]).decidedLine <==> AllDecisions[k].status == "approved")
  {
  }
}
