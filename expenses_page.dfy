/**
 * The expenses page: one walk over every project, its milestones and their
 * expense lists, flattening every non-null expense into a display record
 * with defaults filled in, then sorting newest first. A failure to load one
 * project or one expense list skips only that item.
 */
module ExpensesPage {
  import opened Wrappers
  import opened Ether
  import opened ChainModel
  import opened Sorting
  import opened Seqs

  const LOAD_FAILED: string := "Failed to load expenses. Please try again."
  const UNTITLED: string := "Untitled Expense"

  datatype DisplayExpense = DisplayExpense(
    id: nat, projectId: nat, amount: EtherText, description: string, timestamp: int,
    isApproved: bool, projectName: string)

  /** The record for entry `id` of a list: `now` stands in for a missing timestamp, 0 for a missing amount. */
  function ExpenseEntry(p: Project, pid: nat, now: nat, id: nat, e: Expense): DisplayExpense {
    DisplayExpense(
      id, pid, EtherText(e.amount.GetOr(0)),
      if e.description != "" then e.description else UNTITLED,
      if e.timestamp.Some? then e.timestamp.value else now,
      e.isApproved, ProjectLabel(p, pid))
  }

  /** Entry j of a list: its record, or nothing for a null entry. */
  function EntryItems(p: Project, pid: nat, now: nat, list: ExpenseList, j: nat): seq<DisplayExpense>
    requires j < |list|
  {
    if list[j].Some? then [ExpenseEntry(p, pid, now, j, list[j].value)] else []
  }

  /** The records for the first k entries of a list. */
  function EntryFeed(p: Project, pid: nat, now: nat, list: ExpenseList, k: nat): seq<DisplayExpense>
    requires k <= |list|
  {
    if k == 0 then [] else EntryFeed(p, pid, now, list, k - 1) + EntryItems(p, pid, now, list, k - 1)
  }

  /** Milestone mid's records; none when its list fails to load. */
  function MilestoneExpenses(c: Chain, p: Project, pid: nat, now: nat, mid: nat): seq<DisplayExpense> {
    match GetExpensesByMilestone(c, pid, mid)
    case None => []
    case Some(list) => EntryFeed(p, pid, now, list, |list|)
  }

  function MilestonesFeed(c: Chain, p: Project, pid: nat, now: nat, n: nat): seq<DisplayExpense> {
    if n == 0 then [] else MilestonesFeed(c, p, pid, now, n - 1) + MilestoneExpenses(c, p, pid, now, n - 1)
  }

  /** Project pid's records; none when it fails to load or has no milestoneCount. */
  function ProjectExpenses(c: Chain, now: nat, pid: nat): seq<DisplayExpense> {
    match GetProject(c, pid)
    case None => []
    case Some(p) => if p.milestoneCount.Some? then MilestonesFeed(c, p, pid, now, p.milestoneCount.value) else []
  }

  /** Everything pushed for projects 0..n-1, in push order. */
  function AllExpenses(c: Chain, now: nat, n: nat): seq<DisplayExpense> {
    if n == 0 then [] else AllExpenses(c, now, n - 1) + ProjectExpenses(c, now, n - 1)
  }

  // ---------------------------------------------------------------------
  // The walk itself, one method per level of nesting.

  method PushEntries(acc: seq<DisplayExpense>, p: Project, pid: nat, now: nat, list: ExpenseList)
    returns (out: seq<DisplayExpense>)
    ensures out == acc + EntryFeed(p, pid, now, list, |list|)
  {
    out := acc;
    var k := 0;
    while k < |list|
      invariant 0 <= k <= |list|
      invariant out == acc + EntryFeed(p, pid, now, list, k)
    {
      ghost var before := out;
      var e := list[k];
      if e.Some? {
        out := out + [ExpenseEntry(p, pid, now, k, e.value)];
      }
      assert out == before + EntryItems(p, pid, now, list, k);
      Associative(acc, EntryFeed(p, pid, now, list, k), EntryItems(p, pid, now, list, k));
      k := k + 1;
    }
  }

  method PushProject(acc: seq<DisplayExpense>, c: Chain, now: nat, pid: nat) returns (out: seq<DisplayExpense>)
    ensures out == acc + ProjectExpenses(c, now, pid)
  {
    out := acc;
    var fetched := GetProject(c, pid);
    if fetched.None? || fetched.value.milestoneCount.None? {
      assert ProjectExpenses(c, now, pid) == [];
      assert acc + [] == acc;
      return;
    }
    var p := fetched.value;
    var count := p.milestoneCount.value;
    var mid := 0;
    while mid < count
      invariant 0 <= mid <= count
      invariant out == acc + MilestonesFeed(c, p, pid, now, mid)
    {
      ghost var before := out;
      var list := GetExpensesByMilestone(c, pid, mid);
      if list.Some? {
        out := PushEntries(out, p, pid, now, list.value);
      } else {
        assert out == out + [];
      }
      assert out == before + MilestoneExpenses(c, p, pid, now, mid);
      Associative(acc, MilestonesFeed(c, p, pid, now, mid), MilestoneExpenses(c, p, pid, now, mid));
      mid := mid + 1;
    }
  }

  /** The walk over projects 0..projectCount-1, with `now` read once before it. */
  method CollectExpenses(c: Chain, now: nat, projectCount: nat) returns (all: seq<DisplayExpense>)
    ensures all == AllExpenses(c, now, projectCount)
  {
    all := [];
    var pid := 0;
    while pid < projectCount
      invariant 0 <= pid <= projectCount
      invariant all == AllExpenses(c, now, pid)
    {
      all := PushProject(all, c, now, pid);
      pid := pid + 1;
    }
  }

  function Timestamp(x: DisplayExpense): int {
    x.timestamp
  }

  class ExpensesPageView {
    var expenses: seq<DisplayExpense>
    var isLoading: bool
    var error: Option<string>

    constructor ()
      ensures expenses == [] && isLoading && error == None
    {
      expenses := [];
      isLoading := true;
      error := None;
    }

    /**
     * loadExpenses against the chain c, with `now` the time in seconds read
     * before the walk. A failed projectCount leaves the list as it was.
     */
    method LoadExpenses(hasContract: bool, c: Chain, now: nat)
      modifies this
      ensures !hasContract ==> expenses == old(expenses) && isLoading == old(isLoading) && error == old(error)
      ensures hasContract && c.projectCount.None? ==>
        expenses == old(expenses) && !isLoading && error == Some(LOAD_FAILED)
      ensures hasContract && c.projectCount.Some? ==>
        var all := AllExpenses(c, now, c.projectCount.value);
        && !isLoading && error == None
        && expenses == SortDesc(all, Timestamp)
        && multiset(expenses) == multiset(all)
        && SortedDesc(expenses, Timestamp)
    {
      if !hasContract {
        return;
      }
      isLoading := true;
      error := None;
      if c.projectCount.None? {
        error := Some(LOAD_FAILED);
        isLoading := false;
        return;
      }
      var all := CollectExpenses(c, now, c.projectCount.value);
      SortDescCorrect(all, Timestamp);
      expenses := SortDesc(all, Timestamp);
      isLoading := false;
    }
  }

  // ---------------------------------------------------------------------
  // Exactly which records the walk produces.

  /** x is the record of entry j of a list: a non-null entry at that position. */
  ghost predicate EntryOf(p: Project, pid: nat, now: nat, list: ExpenseList, j: nat, x: DisplayExpense) {
    j < |list| && list[j].Some? && x == ExpenseEntry(p, pid, now, j, list[j].value)
  }

  /** x is the record of entry j of milestone mid's list, which loaded. */
  ghost predicate MilestoneEntryOf(c: Chain, p: Project, pid: nat, now: nat, mid: nat, j: nat, x: DisplayExpense) {
    GetExpensesByMilestone(c, pid, mid).Some? && EntryOf(p, pid, now, GetExpensesByMilestone(c, pid, mid).value, j, x)
  }

  /**
   * x is the record of entry j of milestone mid of project pid: the project
   * loaded with a milestoneCount above mid, and that milestone's list loaded.
   */
  ghost predicate Source(c: Chain, now: nat, pid: nat, mid: nat, j: nat, x: DisplayExpense) {
    && GetProject(c, pid).Some?
    && GetProject(c, pid).value.milestoneCount.Some?
    && mid < GetProject(c, pid).value.milestoneCount.value
    && MilestoneEntryOf(c, GetProject(c, pid).value, pid, now, mid, j, x)
  }

  lemma {:induction false} EntryFeedMembers(p: Project, pid: nat, now: nat, list: ExpenseList, k: nat, x: DisplayExpense)
    requires k <= |list|
    ensures x in EntryFeed(p, pid, now, list, k) <==> exists j: nat :: j < k && EntryOf(p, pid, now, list, j, x)
  {
    if k > 0 {
      EntryFeedMembers(p, pid, now, list, k - 1, x);
      if x in EntryItems(p, pid, now, list, k - 1) {
        assert EntryOf(p, pid, now, list, k - 1, x);
      }
      if exists j: nat :: j < k && EntryOf(p, pid, now, list, j, x) {
        var j: nat :| j < k && EntryOf(p, pid, now, list, j, x);
        if j == k - 1 {
          assert x in EntryItems(p, pid, now, list, k - 1);
        }
      }
    }
  }

  lemma MilestoneExpensesMembers(c: Chain, p: Project, pid: nat, now: nat, mid: nat, x: DisplayExpense)
    ensures x in MilestoneExpenses(c, p, pid, now, mid) <==> exists j: nat :: MilestoneEntryOf(c, p, pid, now, mid, j, x)
  {
    match GetExpensesByMilestone(c, pid, mid)
    case None =>
    case Some(list) =>
      EntryFeedMembers(p, pid, now, list, |list|, x);
      if x in EntryFeed(p, pid, now, list, |list|) {
        var j: nat :| j < |list| && EntryOf(p, pid, now, list, j, x);
        assert MilestoneEntryOf(c, p, pid, now, mid, j, x);
      }
      if exists j: nat :: MilestoneEntryOf(c, p, pid, now, mid, j, x) {
        var j: nat :| MilestoneEntryOf(c, p, pid, now, mid, j, x);
        assert j < |list| && EntryOf(p, pid, now, list, j, x);
      }
  }

  lemma {:induction false} MilestonesFeedPieces(c: Chain, p: Project, pid: nat, now: nat, n: nat, x: DisplayExpense)
    ensures x in MilestonesFeed(c, p, pid, now, n) <==> exists mid: nat :: mid < n && x in MilestoneExpenses(c, p, pid, now, mid)
  {
    if n > 0 {
      MilestonesFeedPieces(c, p, pid, now, n - 1, x);
    }
  }

  lemma MilestonesFeedMembers(c: Chain, p: Project, pid: nat, now: nat, n: nat, x: DisplayExpense)
    ensures x in MilestonesFeed(c, p, pid, now, n) <==> exists mid: nat, j: nat :: mid < n && MilestoneEntryOf(c, p, pid, now, mid, j, x)
  {
    MilestonesFeedPieces(c, p, pid, now, n, x);
    if x in MilestonesFeed(c, p, pid, now, n) {
      var mid: nat :| mid < n && x in MilestoneExpenses(c, p, pid, now, mid);
      MilestoneExpensesMembers(c, p, pid, now, mid, x);
    }
    if exists mid: nat, j: nat :: mid < n && MilestoneEntryOf(c, p, pid, now, mid, j, x) {
      var mid: nat, j: nat :| mid < n && MilestoneEntryOf(c, p, pid, now, mid, j, x);
      MilestoneExpensesMembers(c, p, pid, now, mid, x);
    }
  }

  lemma ProjectExpensesMembers(c: Chain, now: nat, pid: nat, x: DisplayExpense)
    ensures x in ProjectExpenses(c, now, pid) <==> exists mid: nat, j: nat :: Source(c, now, pid, mid, j, x)
  {
    match GetProject(c, pid)
    case None =>
    case Some(p) =>
      if p.milestoneCount.Some? {
        var count := p.milestoneCount.value;
        MilestonesFeedMembers(c, p, pid, now, count, x);
        if x in MilestonesFeed(c, p, pid, now, count) {
          var mid: nat, j: nat :| mid < count && MilestoneEntryOf(c, p, pid, now, mid, j, x);
          assert Source(c, now, pid, mid, j, x);
        }
        if exists mid: nat, j: nat :: Source(c, now, pid, mid, j, x) {
          var mid: nat, j: nat :| Source(c, now, pid, mid, j, x);
          assert mid < count && MilestoneEntryOf(c, p, pid, now, mid, j, x);
        }
      }
  }

  lemma {:induction false} AllExpensesPieces(c: Chain, now: nat, n: nat, x: DisplayExpense)
    ensures x in AllExpenses(c, now, n) <==> exists pid: nat :: pid < n && x in ProjectExpenses(c, now, pid)
  {
    if n > 0 {
      AllExpensesPieces(c, now, n - 1, x);
    }
  }

  /**
   * The walk lists a record for exactly each non-null entry j of a loaded list
   * of milestone mid < milestoneCount of a loaded project pid < n: its id is
   * j, its projectId pid, and its fields carry the documented defaults.
   */
  lemma AllExpensesMembers(c: Chain, now: nat, n: nat, x: DisplayExpense)
    ensures x in AllExpenses(c, now, n) <==> exists pid: nat, mid: nat, j: nat :: pid < n && Source(c, now, pid, mid, j, x)
  {
    AllExpensesPieces(c, now, n, x);
    if x in AllExpenses(c, now, n) {
      var pid: nat :| pid < n && x in ProjectExpenses(c, now, pid);
      ProjectExpensesMembers(c, now, pid, x);
    }
    if exists pid: nat, mid: nat, j: nat :: pid < n && Source(c, now, pid, mid, j, x) {
      var pid: nat, mid: nat, j: nat :| pid < n && Source(c, now, pid, mid, j, x);
      ProjectExpensesMembers(c, now, pid, x);
    }
  }

  /** What a listed record holds, by the entry it came from. */
  lemma EntryDefaults(p: Project, pid: nat, now: nat, id: nat, e: Expense)
    ensures var x := ExpenseEntry(p, pid, now, id, e);
      && x.id == id && x.projectId == pid
      && x.amount.wei == (if e.amount.Some? then e.amount.value else 0)
      && ParseEther(x.amount.Text()) == Some(x.amount.wei)
      && (e.description == "" ==> x.description == UNTITLED)
      && (e.description != "" ==> x.description == e.description)
      && (e.timestamp.None? ==> x.timestamp == now)
      && (e.timestamp.Some? ==> x.timestamp == e.timestamp.value)
      && x.isApproved == e.isApproved
      && x.projectName == ProjectLabel(p, pid)
  {
    FormatThenParse(ExpenseEntry(p, pid, now, id, e).amount.wei);
  }
}
