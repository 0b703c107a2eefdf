/**
 * The issues page over its fixed list: severity icon and colour, the counters, the tabs and
 * the escalation buttons.
 */
module Issues {
  import opened Common
  import opened Seqs

  /** An issue. `overdue` is absent on an issue that does not set the field. */
  datatype Issue = Issue(id: string, severity: string, status: string, escalated: bool, overdue: Option<bool>)

  /** The fixed list of the page (the fields the page decides on). */
  const AllIssues: seq<Issue> := [
    Issue("ISS-001", "critical", "open", true, None),
    Issue("ISS-002", "high", "in-progress", false, Some(false)),
    Issue("ISS-003", "medium", "open", false, Some(false)),
    Issue("ISS-004", "critical", "open", true, Some(true))
  ]

  datatype SeverityIcon = AlertCircleIcon | AlertTriangleIcon | InfoIcon

  datatype SeverityTone = DestructiveTone | GoldTone | ChartTone

  /** `getSeverityIcon` and `getSeverityColor`: critical, high, and one default for the rest. */
  function IconFor(severity: string): (icon: SeverityIcon)
    ensures icon == AlertCircleIcon <==> severity == "critical"
    ensures icon == AlertTriangleIcon <==> severity == "high"
  {
    if severity == "critical" then AlertCircleIcon else if severity == "high" then AlertTriangleIcon else InfoIcon
  }

  function ColorFor(severity: string): (tone: SeverityTone)
    ensures tone == DestructiveTone <==> severity == "critical"
    ensures tone == GoldTone <==> severity == "high"
  {
    if severity == "critical" then DestructiveTone else if severity == "high" then GoldTone else ChartTone
  }

  /** Icon and colour always tell the same severity class. */
  lemma IconAndColorAgree(severity: string)
    ensures (IconFor(severity) == InfoIcon) <==> (ColorFor(severity) == ChartTone)
  {
  }

  /** A missing `overdue` field is falsy. */
  predicate IsOverdue(i: Issue) { i.overdue == Some(true) }

  predicate IsCritical(i: Issue) { i.severity == "critical" }

  predicate IsEscalated(i: Issue) { i.escalated }

  /** The three tabs with their labels: each label counts exactly the list its tab renders. */
  datatype Tabs = Tabs(
    criticalLabel: nat, escalatedLabel: nat, overdueLabel: nat,
    critical: seq<Issue>, escalated: seq<Issue>, overdue: seq<Issue>)

  function TabsOf(issues: seq<Issue>): (t: Tabs)
    ensures t.criticalLabel == |t.critical| && t.escalatedLabel == |t.escalated| && t.overdueLabel == |t.overdue|
    ensures IsSubsequence(t.critical, issues) && IsSubsequence(t.escalated, issues) && IsSubsequence(t.overdue, issues)
    ensures forall k :: 0 <= k < |t.critical| ==> IsCritical(t.critical[k])
    ensures forall k :: 0 <= k < |t.escalated| ==> IsEscalated(t.escalated[k])
    ensures forall k :: 0 <= k < |t.overdue| ==> IsOverdue(t.overdue[k])
    ensures forall k :: 0 <= k < |issues| && IsCritical(issues[k]) ==> issues[k] in t.critical
    ensures forall k :: 0 <= k < |issues| && IsEscalated(issues[k]) ==> issues[k] in t.escalated
    ensures forall k :: 0 <= k < |issues| && IsOverdue(issues[k]) ==> issues[k] in t.overdue
    ensures multiset(t.critical) <= multiset(issues) && multiset(t.escalated) <= multiset(issues) && multiset(t.overdue) <= multiset(issues)
    ensures forall k :: 0 <= k < |issues| && IsCritical(issues[k]) ==> multiset(t.critical)[issues[k]] == multiset(issues)[issues[k]]
    ensures forall k :: 0 <= k < |issues| && IsEscalated(issues[k]) ==> multiset(t.escalated)[issues[k]] == multiset(issues)[issues[k]]
    ensures forall k :: 0 <= k < |issues| && IsOverdue(issues[k]) ==> multiset(t.overdue)[issues[k]] == multiset(issues)[issues[k]]
  {
    var critical := TabWhere(issues, (i: Issue) => IsCritical(i));
    var escalated := TabWhere(issues, (i: Issue) => IsEscalated(i));
    var overdue := TabWhere(issues, (i: Issue) => IsOverdue(i));
    Tabs(|critical|, |escalated|, |overdue|, critical, escalated, overdue)
  }

  /** The list of one tab: the issues with the tab's property, in order and with their repeats. */
  function TabWhere(issues: seq<Issue>, p: Issue -> bool): (r: seq<Issue>)
    ensures r == Filter(issues, p)
    ensures IsSubsequence(r, issues)
    ensures forall k :: 0 <= k < |r| ==> p(r[k])
    ensures forall k :: 0 <= k < |issues| && p(issues[k]) ==> issues[k] in r
    ensures multiset(r) <= multiset(issues)
    ensures forall k :: 0 <= k < |issues| && p(issues[k]) ==> multiset(r)[issues[k]] == multiset(issues)[issues[k]]
  {
    FilterIsSubsequence(issues, p);
    FilterMultiset(issues, p);
    Filter(issues, p)
  }

  /** Each tab label is the number of issues that belong on that tab. */
  lemma TabLabelsCountMatchingIssues(issues: seq<Issue>)
    ensures TabsOf(issues).criticalLabel == |Positions(issues, (i: Issue) => IsCritical(i))|
    ensures TabsOf(issues).escalatedLabel == |Positions(issues, (i: Issue) => IsEscalated(i))|
    ensures TabsOf(issues).overdueLabel == |Positions(issues, (i: Issue) => IsOverdue(i))|
  {
    FilterCount(issues, (i: Issue) => IsCritical(i));
    FilterCount(issues, (i: Issue) => IsEscalated(i));
    FilterCount(issues, (i: Issue) => IsOverdue(i));
  }

  /** The counters of the page. */
  datatype Stats = Stats(critical: nat, high: nat, inProgress: nat)

  function StatsOf(issues: seq<Issue>): (s: Stats)
    ensures s.critical + s.high <= |issues|
    ensures s.inProgress <= |issues|
    ensures s.critical == TabsOf(issues).criticalLabel
    ensures s.critical == |Positions(issues, (i: Issue) => i.severity == "critical")|
    ensures s.high == |Positions(issues, (i: Issue) => i.severity == "high")|
    ensures s.inProgress == |Positions(issues, (i: Issue) => i.status == "in-progress")|
  {
    var critical := (i: Issue) => i.severity == "critical";
    var high := (i: Issue) => i.severity == "high";
    ExclusiveCounts2(issues, critical, high);
    FilterSame(issues, critical, (i: Issue) => IsCritical(i));
    FilterCount(issues, critical);
    FilterCount(issues, high);
    FilterCount(issues, (i: Issue) => i.status == "in-progress");
    Stats(|Filter(issues, critical)|, |Filter(issues, high)|, |Filter(issues, (i: Issue) => i.status == "in-progress")|)
  }

  /** "Escalate again" is offered on an issue of the main list exactly when it is escalated. */
  predicate OffersEscalateAgain(i: Issue) { i.escalated }

  /** The escalated tab lists exactly the issues of the main list that offer "Escalate again". */
  lemma EscalateAgainMatchesEscalatedTab(issues: seq<Issue>)
    ensures forall k :: 0 <= k < |issues| ==> (OffersEscalateAgain(issues[k]) <==> issues[k] in TabsOf(issues).escalated)
  {
  }

  /** An issue without the field is not on the overdue tab. */
  lemma MissingOverdueIsNotOverdue(i: Issue)
    requires i.overdue.None?
    ensures !IsOverdue(i)
  {
  }

  /** The counts of any four issues shaped like the fixed list. */
  lemma ShapeCounts(s: seq<Issue>)
    requires |s| == 4
    requires s[0].severity == "critical" && s[1].severity == "high" && s[2].severity == "medium" && s[3].severity == "critical"
    requires s[0].status != "in-progress" && s[1].status == "in-progress" && s[2].status != "in-progress" && s[3].status != "in-progress"
    requires s[0].escalated && !s[1].escalated && !s[2].escalated && s[3].escalated
    requires !IsOverdue(s[0]) && !IsOverdue(s[1]) && !IsOverdue(s[2]) && IsOverdue(s[3])
    ensures StatsOf(s) == Stats(2, 1, 1)
    ensures TabsOf(s).escalatedLabel == 2 && TabsOf(s).overdueLabel == 1
  {
    FilterOfFour(s, (i: Issue) => i.severity == "critical");
    FilterOfFour(s, (i: Issue) => i.severity == "high");
    FilterOfFour(s, (i: Issue) => i.status == "in-progress");
    FilterOfFour(s, (i: Issue) => IsEscalated(i));
    FilterOfFour(s, (i: Issue) => IsOverdue(i));
  }

  /** The fixed list: two critical, one high, one in progress, two escalated, one overdue. */
  lemma FixedListCounts()
    ensures StatsOf(AllIssues) == Stats(2, 1, 1)
    ensures TabsOf(AllIssues).escalatedLabel == 2 && TabsOf(AllIssues).overdueLabel == 1
  {
    ShapeCounts(AllIssues);
  }
}
