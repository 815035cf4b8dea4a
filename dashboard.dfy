/**
 * The dashboard statistics: one walk over every project that counts active
 * and completed projects, sums budgets and spending in base units, and
 * collects creation and expense activity, of which the five latest are
 * kept. A failure to load one project, milestone or expense list skips
 * only that item.
 */
module Dashboard {
  import opened Wrappers
  import opened Ether
  import opened ChainModel
  import opened Sorting
  import opened Seqs

  const LOAD_FAILED: string := "Failed to load dashboard statistics. Please try again."

  /** How many activity entries the dashboard keeps. */
  const RECENT: nat := 5

  datatype ActivityKind = ProjectActivity | MilestoneActivity | ExpenseActivity

  /** An activity description, by the values it interpolates. */
  datatype Note =
    | ProjectCreated(projectName: string)
    | MilestoneAdded(description: string, projectName: string)
    | ExpenseAdded(amount: EtherText, projectName: string)
  {
    function Text(): string {
      match this
      case ProjectCreated(p) => "Project \"" + p + "\" created"
      case MilestoneAdded(d, p) => "Milestone \"" + d + "\" added to \"" + p + "\""
      case ExpenseAdded(a, p) => "Expense of " + a.Text() + " USD added to \"" + p + "\""
    }
  }

  datatype Activity = Activity(timestamp: int, kind: ActivityKind, note: Note)

  /** A displayed total: the initial literal '0', or a formatted base-unit sum. */
  datatype Amount = Initial | Total(ether: EtherText) {
    function Text(): string {
      match this
      case Initial => "0"
      case Total(e) => e.Text()
    }
  }

  datatype Stats = Stats(
    totalProjects: nat, activeProjects: nat, completedProjects: nat,
    totalBudget: Amount, totalSpent: Amount, recentActivity: seq<Activity>)

  const INITIAL_STATS: Stats := Stats(0, 0, 0, Initial, Initial, [])

  // ---------------------------------------------------------------------
  // Counters and sums.

  datatype Tally = Tally(active: nat, completed: nat, budget: nat, spent: nat)

  /** One fetched project counted: active or completed, and its budget and spent added when present. */
  function Count(t: Tally, p: Project): Tally {
    Tally(
      if p.isCompleted then t.active else t.active + 1,
      if p.isCompleted then t.completed + 1 else t.completed,
      t.budget + p.budget.GetOr(0),
      t.spent + p.spent.GetOr(0))
  }

  /** The counters after projects 0..n-1. */
  function TallyOf(c: Chain, n: nat): Tally {
    if n == 0 then Tally(0, 0, 0, 0)
    else match GetProject(c, n - 1)
      case None => TallyOf(c, n - 1)
      case Some(p) => Count(TallyOf(c, n - 1), p)
  }

  /** How many of projects 0..n-1 load. */
  function Fetched(c: Chain, n: nat): (r: nat)
    ensures r <= n
  {
    if n == 0 then 0 else Fetched(c, n - 1) + (if GetProject(c, n - 1).Some? then 1 else 0)
  }

  /** Every fetched project is counted once, as active or as completed. */
  lemma {:induction false} ActivePlusCompleted(c: Chain, n: nat)
    ensures TallyOf(c, n).active + TallyOf(c, n).completed == Fetched(c, n)
  {
    if n > 0 {
      ActivePlusCompleted(c, n - 1);
    }
  }

  /** The sum of a field over the fetched projects among 0..n-1 that carry it. */
  function FieldSum(c: Chain, n: nat, field: Project -> Option<nat>): nat {
    if n == 0 then 0
    else FieldSum(c, n - 1, field) + (if GetProject(c, n - 1).Some? then field(GetProject(c, n - 1).value).GetOr(0) else 0)
  }

  function Budget(p: Project): Option<nat> {
    p.budget
  }

  function Spent(p: Project): Option<nat> {
    p.spent
  }

  /** The running totals are the exact base-unit sums of budget and spent. */
  lemma {:induction false} TalliedSums(c: Chain, n: nat)
    ensures TallyOf(c, n).budget == FieldSum(c, n, Budget)
    ensures TallyOf(c, n).spent == FieldSum(c, n, Spent)
  {
    if n > 0 {
      TalliedSums(c, n - 1);
    }
  }

  // ---------------------------------------------------------------------
  // Activity.

  function ProjectNotes(p: Project): seq<Activity> {
    if p.createdAt.Some? then [Activity(p.createdAt.value, ProjectActivity, ProjectCreated(p.name))] else []
  }

  function MilestoneNotes(p: Project, m: Milestone): seq<Activity> {
    if m.createdAt.Some? then [Activity(m.createdAt.value, MilestoneActivity, MilestoneAdded(m.description, p.name))] else []
  }

  /** A dated entry without an amount: formatting its amount throws, which ends its list's loop. */
  predicate Faults(e: Option<Expense>) {
    e.Some? && e.value.timestamp.Some? && e.value.amount.None?
  }

  /** The position of the first faulting entry, or the list's length when none faults. */
  function FirstFault(list: ExpenseList): (r: nat)
    ensures r <= |list|
    ensures forall j :: 0 <= j < r ==> !Faults(list[j])
    ensures r < |list| ==> Faults(list[r])
  {
    if list == [] then 0 else if Faults(list[0]) then 0 else 1 + FirstFault(list[1..])
  }

  /** Entry j's activity: one for a non-null, dated entry with an amount. */
  function ExpenseNotes(p: Project, list: ExpenseList, j: nat): seq<Activity>
    requires j < |list|
  {
    var e := list[j];
    if e.Some? && e.value.timestamp.Some? && e.value.amount.Some? then
      [Activity(e.value.timestamp.value, ExpenseActivity, ExpenseAdded(EtherText(e.value.amount.value), p.name))]
    else []
  }

  /** The activity of the first k entries. */
  function ExpenseFeed(p: Project, list: ExpenseList, k: nat): seq<Activity>
    requires k <= |list|
  {
    if k == 0 then [] else ExpenseFeed(p, list, k - 1) + ExpenseNotes(p, list, k - 1)
  }

  /** A list's activity stops at its first faulting entry; a list that fails to load has none. */
  function ListActivity(c: Chain, p: Project, pid: nat, mid: nat): seq<Activity> {
    match GetExpensesByMilestone(c, pid, mid)
    case None => []
    case Some(list) => ExpenseFeed(p, list, FirstFault(list))
  }

  /** Milestone mid's activity; a milestone that fails to load contributes none, its expenses included. */
  function MilestoneItems(c: Chain, p: Project, pid: nat, mid: nat): seq<Activity> {
    match GetMilestone(c, pid, mid)
    case None => []
    case Some(m) => MilestoneNotes(p, m) + ListActivity(c, p, pid, mid)
  }

  function MilestonesFeed(c: Chain, p: Project, pid: nat, n: nat): seq<Activity> {
    if n == 0 then [] else MilestonesFeed(c, p, pid, n - 1) + MilestoneItems(c, p, pid, n - 1)
  }

  function MilestonesOf(c: Chain, p: Project, pid: nat): seq<Activity> {
    if p.milestoneCount.Some? then MilestonesFeed(c, p, pid, p.milestoneCount.value) else []
  }

  function ProjectItems(c: Chain, pid: nat): seq<Activity> {
    match GetProject(c, pid)
    case None => []
    case Some(p) => ProjectNotes(p) + MilestonesOf(c, p, pid)
  }

  /** All activity of projects 0..n-1, in push order. */
  function AllActivity(c: Chain, n: nat): seq<Activity> {
    if n == 0 then [] else AllActivity(c, n - 1) + ProjectItems(c, n - 1)
  }

  function Timestamp(a: Activity): int {
    a.timestamp
  }

  /** The statistics a successful load shows, for projectCount n. */
  function StatsOf(c: Chain, n: nat): Stats {
    var t := TallyOf(c, n);
    Stats(n, t.active, t.completed, Total(EtherText(t.budget)), Total(EtherText(t.spent)),
          Take(SortDesc(AllActivity(c, n), Timestamp), RECENT))
  }

  // ---------------------------------------------------------------------
  // The walk itself, one method per level of nesting.

  method PushExpenses(acc: seq<Activity>, p: Project, list: ExpenseList) returns (out: seq<Activity>)
    ensures out == acc + ExpenseFeed(p, list, FirstFault(list))
  {
    out := acc;
    var k := 0;
    while k < |list|
      invariant 0 <= k <= FirstFault(list)
      invariant out == acc + ExpenseFeed(p, list, k)
    {
      var e := list[k];
      if e.Some? && e.value.timestamp.Some? {
        if e.value.amount.None? {
          // formatEther(undefined) throws: the rest of this list is not read
          return;
        }
        out := out + [Activity(e.value.timestamp.value, ExpenseActivity, ExpenseAdded(EtherText(e.value.amount.value), p.name))];
      }
      assert ExpenseFeed(p, list, k + 1) == ExpenseFeed(p, list, k) + ExpenseNotes(p, list, k);
      Associative(acc, ExpenseFeed(p, list, k), ExpenseNotes(p, list, k));
      k := k + 1;
    }
  }

  method PushMilestone(acc: seq<Activity>, c: Chain, p: Project, pid: nat, mid: nat) returns (out: seq<Activity>)
    ensures out == acc + MilestoneItems(c, p, pid, mid)
  {
    out := acc;
    var fetched := GetMilestone(c, pid, mid);
    if fetched.None? {
      assert acc + [] == acc;
      return;
    }
    var m := fetched.value;
    if m.createdAt.Some? {
      out := out + [Activity(m.createdAt.value, MilestoneActivity, MilestoneAdded(m.description, p.name))];
    }
    assert out == acc + MilestoneNotes(p, m);
    ghost var head := out;
    var list := GetExpensesByMilestone(c, pid, mid);
    if list.Some? {
      out := PushExpenses(out, p, list.value);
    } else {
      assert out == out + [];
    }
    assert out == head + ListActivity(c, p, pid, mid);
    Associative(acc, MilestoneNotes(p, m), ListActivity(c, p, pid, mid));
  }

  method PushProject(acc: seq<Activity>, c: Chain, p: Project, pid: nat) returns (out: seq<Activity>)
    ensures out == acc + ProjectNotes(p) + MilestonesOf(c, p, pid)
  {
    out := acc;
    if p.createdAt.Some? {
      out := out + [Activity(p.createdAt.value, ProjectActivity, ProjectCreated(p.name))];
    }
    assert out == acc + ProjectNotes(p);
    ghost var head := out;
    if p.milestoneCount.None? {
      assert out == head + [];
      return;
    }
    var count := p.milestoneCount.value;
    var mid := 0;
    while mid < count
      invariant 0 <= mid <= count
      invariant out == head + MilestonesFeed(c, p, pid, mid)
    {
      out := PushMilestone(out, c, p, pid, mid);
      Associative(head, MilestonesFeed(c, p, pid, mid), MilestoneItems(c, p, pid, mid));
      mid := mid + 1;
    }
  }

  /** The walk over projects 0..projectCount-1: counters, sums and activity together. */
  method CollectStats(c: Chain, projectCount: nat) returns (tally: Tally, activity: seq<Activity>)
    ensures tally == TallyOf(c, projectCount)
    ensures activity == AllActivity(c, projectCount)
  {
    tally := Tally(0, 0, 0, 0);
    activity := [];
    var i := 0;
    while i < projectCount
      invariant 0 <= i <= projectCount
      invariant tally == TallyOf(c, i)
      invariant activity == AllActivity(c, i)
    {
      var fetched := GetProject(c, i);
      if fetched.Some? {
        var p := fetched.value;
        if p.isCompleted {
          tally := tally.(completed := tally.completed + 1);
        } else {
          tally := tally.(active := tally.active + 1);
        }
        if p.budget.Some? {
          tally := tally.(budget := tally.budget + p.budget.value);
        }
        if p.spent.Some? {
          tally := tally.(spent := tally.spent + p.spent.value);
        }
        activity := PushProject(activity, c, p, i);
        Associative(AllActivity(c, i), ProjectNotes(p), MilestonesOf(c, p, i));
      } else {
        assert activity == activity + [];
      }
      i := i + 1;
    }
  }

  class DashboardView {
    var stats: Stats
    var isLoading: bool
    var error: Option<string>

    constructor ()
      ensures stats == INITIAL_STATS && isLoading && error == None
    {
      stats := INITIAL_STATS;
      isLoading := true;
      error := None;
    }

    /** loadStats against the chain c; a failed projectCount leaves the statistics as they were. */
    method LoadStats(hasContract: bool, c: Chain)
      modifies this
      ensures !hasContract ==> stats == old(stats) && isLoading == old(isLoading) && error == old(error)
      ensures hasContract && c.projectCount.None? ==>
        stats == old(stats) && !isLoading && error == Some(LOAD_FAILED)
      ensures hasContract && c.projectCount.Some? ==>
        !isLoading && error == None && stats == StatsOf(c, c.projectCount.value)
    {
      if !hasContract {
        return;
      }
      isLoading := true;
      error := None;
      if c.projectCount.None? {
        error := Some(LOAD_FAILED);
        isLoading := false;
        return;
      }
      var n := c.projectCount.value;
      var tally, activity := CollectStats(c, n);
      var sorted := SortDesc(activity, Timestamp);
      stats := Stats(n, tally.active, tally.completed, Total(EtherText(tally.budget)), Total(EtherText(tally.spent)),
                     Take(sorted, RECENT));
      isLoading := false;
    }
  }

  // ---------------------------------------------------------------------
  // What the statistics promise.

  /** totalProjects is projectCount whatever failed; active plus completed is the number fetched. */
  lemma StatsCounts(c: Chain, n: nat)
    ensures StatsOf(c, n).totalProjects == n
    ensures StatsOf(c, n).activeProjects + StatsOf(c, n).completedProjects == Fetched(c, n) <= n
  {
    ActivePlusCompleted(c, n);
  }

  /** The displayed totals parse back to the exact base-unit sums over the projects that carry the field. */
  lemma StatsTotals(c: Chain, n: nat)
    ensures ParseEther(StatsOf(c, n).totalBudget.Text()) == Some(FieldSum(c, n, Budget))
    ensures ParseEther(StatsOf(c, n).totalSpent.Text()) == Some(FieldSum(c, n, Spent))
  {
    var t := TallyOf(c, n);
    TalliedSums(c, n);
    assert StatsOf(c, n).totalBudget == Total(EtherText(t.budget));
    assert StatsOf(c, n).totalSpent == Total(EtherText(t.spent));
    FormatThenParse(t.budget);
    FormatThenParse(t.spent);
  }

  /** recentActivity is the at most five latest entries, newest first. */
  lemma RecentActivity(c: Chain, n: nat)
    ensures var recent := StatsOf(c, n).recentActivity;
      var all := AllActivity(c, n);
      && |recent| == (if |all| < RECENT then |all| else RECENT)
      && SortedDesc(recent, Timestamp)
      && multiset(recent) <= multiset(all)
      && forall x, y :: x in recent && y in multiset(all) - multiset(recent) ==> x.timestamp >= y.timestamp
  {
    var all := AllActivity(c, n);
    var recent := Take(SortDesc(all, Timestamp), RECENT);
    assert StatsOf(c, n).recentActivity == recent;
    TopOfSorted(all, Timestamp, RECENT);
    forall x, y | x in recent && y in multiset(all) - multiset(recent)
      ensures x.timestamp >= y.timestamp
    {
      assert Timestamp(x) >= Timestamp(y);
    }
  }

  /** x is the activity of entry j of a list, which lies before the first faulting entry. */
  ghost predicate ExpenseSource(p: Project, list: ExpenseList, j: nat, x: Activity) {
    && j < FirstFault(list)
    && list[j].Some? && list[j].value.timestamp.Some?
    && x == Activity(list[j].value.timestamp.value, ExpenseActivity, ExpenseAdded(EtherText(list[j].value.amount.GetOr(0)), p.name))
  }

  lemma {:induction false} ExpenseFeedMembers(p: Project, list: ExpenseList, k: nat, x: Activity)
    requires k <= FirstFault(list)
    ensures x in ExpenseFeed(p, list, k) <==> exists j: nat :: j < k && ExpenseSource(p, list, j, x)
  {
    if k > 0 {
      ExpenseFeedMembers(p, list, k - 1, x);
      if x in ExpenseNotes(p, list, k - 1) {
        assert ExpenseSource(p, list, k - 1, x);
      }
      if exists j: nat :: j < k && ExpenseSource(p, list, j, x) {
        var j: nat :| j < k && ExpenseSource(p, list, j, x);
        if j == k - 1 {
          assert !Faults(list[j]);
          assert x in ExpenseNotes(p, list, k - 1);
        }
      }
    }
  }

  /**
   * A loaded list yields one activity per non-null dated entry before its
   * first faulting entry, and nothing from that entry on.
   */
  lemma ListActivityMembers(c: Chain, p: Project, pid: nat, mid: nat, x: Activity)
    requires GetExpensesByMilestone(c, pid, mid).Some?
    ensures var list := GetExpensesByMilestone(c, pid, mid).value;
      x in ListActivity(c, p, pid, mid) <==> exists j: nat :: ExpenseSource(p, list, j, x)
  {
    var list := GetExpensesByMilestone(c, pid, mid).value;
    ExpenseFeedMembers(p, list, FirstFault(list), x);
  }

  /** A failing expense list does not take its milestone's own activity with it. */
  lemma MilestoneKept(c: Chain, p: Project, pid: nat, mid: nat)
    requires GetMilestone(c, pid, mid).Some? && GetExpensesByMilestone(c, pid, mid).None?
    ensures MilestoneItems(c, p, pid, mid) == MilestoneNotes(p, GetMilestone(c, pid, mid).value)
  {
    assert MilestoneNotes(p, GetMilestone(c, pid, mid).value) + [] == MilestoneNotes(p, GetMilestone(c, pid, mid).value);
  }
}
