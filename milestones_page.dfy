/**
 * The milestones page: one walk over every project and its milestones,
 * flattening every milestone that loads into a display record with
 * defaults filled in, then sorting by deadline, earliest first. A failure
 * to load one project or one milestone skips only that item.
 */
module MilestonesPage {
  import opened Wrappers
  import opened ChainModel
  import opened Sorting
  import opened Seqs

  const LOAD_FAILED: string := "Failed to load milestones. Please try again."
  const UNTITLED: string := "Untitled Milestone"

  datatype DisplayMilestone = DisplayMilestone(
    id: nat, projectId: nat, description: string, deadline: int, isCompleted: bool, projectName: string)

  /** The record for milestone mid: a missing deadline becomes a week after `now`. */
  function MilestoneEntry(p: Project, pid: nat, now: nat, mid: nat, m: Milestone): DisplayMilestone {
    DisplayMilestone(
      mid, pid,
      if m.description != "" then m.description else UNTITLED,
      if m.deadline.Some? then m.deadline.value else now + WEEK,
      m.isCompleted, ProjectLabel(p, pid))
  }

  /** Milestone mid's record; none when it fails to load. */
  function MilestoneItems(c: Chain, p: Project, pid: nat, now: nat, mid: nat): seq<DisplayMilestone> {
    match GetMilestone(c, pid, mid)
    case None => []
    case Some(m) => [MilestoneEntry(p, pid, now, mid, m)]
  }

  function MilestonesFeed(c: Chain, p: Project, pid: nat, now: nat, n: nat): seq<DisplayMilestone> {
    if n == 0 then [] else MilestonesFeed(c, p, pid, now, n - 1) + MilestoneItems(c, p, pid, now, n - 1)
  }

  /** Project pid's records; none when it fails to load or has no milestoneCount. */
  function ProjectMilestones(c: Chain, now: nat, pid: nat): seq<DisplayMilestone> {
    match GetProject(c, pid)
    case None => []
    case Some(p) => if p.milestoneCount.Some? then MilestonesFeed(c, p, pid, now, p.milestoneCount.value) else []
  }

  /** Everything pushed for projects 0..n-1, in push order. */
  function AllMilestones(c: Chain, now: nat, n: nat): seq<DisplayMilestone> {
    if n == 0 then [] else AllMilestones(c, now, n - 1) + ProjectMilestones(c, now, n - 1)
  }

  // ---------------------------------------------------------------------
  // The walk itself, one method per level of nesting.

  method PushProject(acc: seq<DisplayMilestone>, c: Chain, now: nat, pid: nat) returns (out: seq<DisplayMilestone>)
    ensures out == acc + ProjectMilestones(c, now, pid)
  {
    out := acc;
    var fetched := GetProject(c, pid);
    if fetched.None? || fetched.value.milestoneCount.None? {
      assert ProjectMilestones(c, now, pid) == [];
      assert acc + [] == acc;
      return;
    }
    var p := fetched.value;
    var count := p.milestoneCount.value;
    var mid := 0;
    while mid < count
      invariant 0 <= mid <= count
      invariant out == acc + MilestonesFeed(c, p, pid, now, mid)
    {
      ghost var before := out;
      var m := GetMilestone(c, pid, mid);
      if m.Some? {
        out := out + [MilestoneEntry(p, pid, now, mid, m.value)];
      } else {
        assert out == out + [];
      }
      assert out == before + MilestoneItems(c, p, pid, now, mid);
      Associative(acc, MilestonesFeed(c, p, pid, now, mid), MilestoneItems(c, p, pid, now, mid));
      mid := mid + 1;
    }
  }

  /** The walk over projects 0..projectCount-1, with `now` read once before it. */
  method CollectMilestones(c: Chain, now: nat, projectCount: nat) returns (all: seq<DisplayMilestone>)
    ensures all == AllMilestones(c, now, projectCount)
  {
    all := [];
    var pid := 0;
    while pid < projectCount
      invariant 0 <= pid <= projectCount
      invariant all == AllMilestones(c, now, pid)
    {
      all := PushProject(all, c, now, pid);
      pid := pid + 1;
    }
  }

  function Deadline(x: DisplayMilestone): int {
    x.deadline
  }

  class MilestonesPageView {
    var milestones: seq<DisplayMilestone>
    var isLoading: bool
    var error: Option<string>

    constructor ()
      ensures milestones == [] && isLoading && error == None
    {
      milestones := [];
      isLoading := true;
      error := None;
    }

    /**
     * loadMilestones against the chain c, with `now` the time in seconds read
     * before the walk. A failed projectCount leaves the list as it was.
     */
    method LoadMilestones(hasContract: bool, c: Chain, now: nat)
      modifies this
      ensures !hasContract ==> milestones == old(milestones) && isLoading == old(isLoading) && error == old(error)
      ensures hasContract && c.projectCount.None? ==>
        milestones == old(milestones) && !isLoading && error == Some(LOAD_FAILED)
      ensures hasContract && c.projectCount.Some? ==>
        var all := AllMilestones(c, now, c.projectCount.value);
        && !isLoading && error == None
        && milestones == SortAsc(all, Deadline)
        && multiset(milestones) == multiset(all)
        && forall i, j :: 0 <= i < j < |milestones| ==> milestones[i].deadline <= milestones[j].deadline
    {
      if !hasContract {
        return;
      }
      isLoading := true;
      error := None;
      if c.projectCount.None? {
        error := Some(LOAD_FAILED);
        isLoading := false;
        return;
      }
      var all := CollectMilestones(c, now, c.projectCount.value);
      SortAscCorrect(all, Deadline);
      milestones := SortAsc(all, Deadline);
      isLoading := false;
    }
  }

  // ---------------------------------------------------------------------
  // Exactly which records the walk produces.

  /**
   * x is the record of milestone mid of project pid: the project loaded with
   * a milestoneCount above mid, and the milestone loaded.
   */
  ghost predicate Source(c: Chain, now: nat, pid: nat, mid: nat, x: DisplayMilestone) {
    && GetProject(c, pid).Some?
    && GetProject(c, pid).value.milestoneCount.Some?
    && mid < GetProject(c, pid).value.milestoneCount.value
    && GetMilestone(c, pid, mid).Some?
    && x == MilestoneEntry(GetProject(c, pid).value, pid, now, mid, GetMilestone(c, pid, mid).value)
  }

  lemma {:induction false} MilestonesFeedMembers(c: Chain, p: Project, pid: nat, now: nat, n: nat, x: DisplayMilestone)
    ensures x in MilestonesFeed(c, p, pid, now, n) <==>
      exists mid: nat :: mid < n && GetMilestone(c, pid, mid).Some? && x == MilestoneEntry(p, pid, now, mid, GetMilestone(c, pid, mid).value)
  {
    if n > 0 {
      MilestonesFeedMembers(c, p, pid, now, n - 1, x);
      if x in MilestoneItems(c, p, pid, now, n - 1) {
        assert GetMilestone(c, pid, n - 1).Some? && x == MilestoneEntry(p, pid, now, n - 1, GetMilestone(c, pid, n - 1).value);
      }
    }
  }

  lemma AllMilestonesPieces(c: Chain, now: nat, n: nat, x: DisplayMilestone)
    ensures x in AllMilestones(c, now, n) <==> exists pid: nat :: pid < n && x in ProjectMilestones(c, now, pid)
  {
    if n > 0 {
      AllMilestonesPieces(c, now, n - 1, x);
    }
  }

  lemma ProjectMilestonesMembers(c: Chain, now: nat, pid: nat, x: DisplayMilestone)
    ensures x in ProjectMilestones(c, now, pid) <==> exists mid: nat :: Source(c, now, pid, mid, x)
  {
    match GetProject(c, pid)
    case None =>
    case Some(p) =>
      if p.milestoneCount.Some? {
        MilestonesFeedMembers(c, p, pid, now, p.milestoneCount.value, x);
        if x in ProjectMilestones(c, now, pid) {
          var mid: nat :| mid < p.milestoneCount.value && GetMilestone(c, pid, mid).Some?
                          && x == MilestoneEntry(p, pid, now, mid, GetMilestone(c, pid, mid).value);
          assert Source(c, now, pid, mid, x);
        }
      }
  }

  /**
   * The walk lists a record for exactly each milestone mid < milestoneCount
   * of a loaded project pid < n that loads: its id is mid, its projectId
   * pid, and its fields carry the documented defaults.
   */
  lemma AllMilestonesMembers(c: Chain, now: nat, n: nat, x: DisplayMilestone)
    ensures x in AllMilestones(c, now, n) <==> exists pid: nat, mid: nat :: pid < n && Source(c, now, pid, mid, x)
  {
    AllMilestonesPieces(c, now, n, x);
    if x in AllMilestones(c, now, n) {
      var pid: nat :| pid < n && x in ProjectMilestones(c, now, pid);
      ProjectMilestonesMembers(c, now, pid, x);
    }
    if exists pid: nat, mid: nat :: pid < n && Source(c, now, pid, mid, x) {
      var pid: nat, mid: nat :| pid < n && Source(c, now, pid, mid, x);
      ProjectMilestonesMembers(c, now, pid, x);
    }
  }

  /** One record per loaded milestone of a project: never more than its milestoneCount. */
  lemma {:induction false} MilestonesFeedLength(c: Chain, p: Project, pid: nat, now: nat, n: nat)
    ensures |MilestonesFeed(c, p, pid, now, n)| <= n
  {
    if n > 0 {
      MilestonesFeedLength(c, p, pid, now, n - 1);
    }
  }

  /** What a listed record holds, by the milestone it came from. */
  lemma EntryDefaults(p: Project, pid: nat, now: nat, mid: nat, m: Milestone)
    ensures var x := MilestoneEntry(p, pid, now, mid, m);
      && x.id == mid && x.projectId == pid
      && (m.description == "" ==> x.description == UNTITLED)
      && (m.description != "" ==> x.description == m.description)
      && (m.deadline.None? ==> x.deadline == now + 604800)
      && (m.deadline.Some? ==> x.deadline == m.deadline.value)
      && x.isCompleted == m.isCompleted
      && x.projectName == ProjectLabel(p, pid)
  {
  }
}
