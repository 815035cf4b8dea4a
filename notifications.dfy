/**
 * The notification feed: one walk over every project, its milestones and
 * their expenses, pushing a notification per creation, per upcoming
 * deadline and per recorded expense, numbered in push order, then sorted
 * newest first.
 */
module Notifications {
  import opened Wrappers
  import opened Ether
  import opened ChainModel
  import opened Sorting
  import opened Seqs

  const LOAD_FAILED: string := "Failed to load notifications. Please try again."

  datatype Kind = MilestoneKind | ExpenseKind | ProjectKind | DeadlineKind

  function Title(k: Kind): string {
    match k
    case ProjectKind => "New Project Created"
    case MilestoneKind => "New Milestone Added"
    case DeadlineKind => "Upcoming Deadline"
    case ExpenseKind => "New Expense Added"
  }

  /** The message, by the values it interpolates. */
  datatype Message =
    | ProjectCreated(projectName: string)
    | MilestoneAdded(description: string, projectName: string)
    | DeadlineSoon(description: string, projectName: string)
    | ExpenseAdded(amount: EtherText, projectName: string)
  {
    function Text(): string {
      match this
      case ProjectCreated(p) => "Project \"" + p + "\" has been created"
      case MilestoneAdded(d, p) => "New milestone \"" + d + "\" added to project \"" + p + "\""
      case DeadlineSoon(d, p) => "Milestone \"" + d + "\" in project \"" + p + "\" is due soon"
      case ExpenseAdded(a, p) => "New expense of " + a.Text() + " USD added to project \"" + p + "\""
    }
  }

  /** A notification before it is numbered. */
  datatype Body = Body(kind: Kind, message: Message, timestamp: int, isRead: bool, projectId: nat, projectName: string)

  datatype Notification = Notification(
    id: nat, kind: Kind, title: string, message: Message, timestamp: int, isRead: bool,
    projectId: nat, projectName: string)

  function WithId(b: Body, id: nat): Notification {
    Notification(id, b.kind, Title(b.kind), b.message, b.timestamp, b.isRead, b.projectId, b.projectName)
  }

  /** Each pushed notification's id is the number pushed before it. */
  function Numbered(bodies: seq<Body>): (r: seq<Notification>)
    ensures |r| == |bodies|
    ensures forall k :: 0 <= k < |r| ==> r[k] == WithId(bodies[k], k)
  {
    seq(|bodies|, k requires 0 <= k < |bodies| => WithId(bodies[k], k))
  }

  lemma NumberedSnoc(bodies: seq<Body>, b: Body)
    ensures Numbered(bodies + [b]) == Numbered(bodies) + [WithId(b, |bodies|)]
  {
  }

  /** The project's creation notice, present exactly when createdAt is. */
  function ProjectCreatedItems(p: Project, pid: nat): seq<Body> {
    if p.createdAt.Some? then [Body(ProjectKind, ProjectCreated(p.name), p.createdAt.value, true, pid, p.name)] else []
  }

  /** The milestone's creation notice, present exactly when its createdAt is. */
  function MilestoneCreatedItems(p: Project, pid: nat, m: Milestone): seq<Body> {
    if m.createdAt.Some? then [Body(MilestoneKind, MilestoneAdded(m.description, p.name), m.createdAt.value, true, pid, p.name)]
    else []
  }

  /** An incomplete milestone due within the coming week: a deadline closer than WEEK is "upcoming". */
  predicate DueSoon(m: Milestone, now: nat) {
    m.deadline.Some? && !m.isCompleted && m.deadline.value > now && m.deadline.value - now < WEEK
  }

  /** The deadline reminder: stamped with the time of the read, and unread. */
  function DeadlineItems(p: Project, pid: nat, m: Milestone, now: nat): seq<Body> {
    if DueSoon(m, now) then [Body(DeadlineKind, DeadlineSoon(m.description, p.name), now, false, pid, p.name)] else []
  }

  /** An expense notice needs a non-null entry with an amount and a timestamp. */
  function ExpenseItems(p: Project, pid: nat, e: Option<Expense>): seq<Body> {
    if e.Some? && e.value.amount.Some? && e.value.timestamp.Some? then
      [Body(ExpenseKind, ExpenseAdded(EtherText(e.value.amount.value), p.name), e.value.timestamp.value, true, pid, p.name)]
    else []
  }

  /** The notices for the first k entries of an expense list. */
  function ExpenseFeed(p: Project, pid: nat, list: ExpenseList, k: nat): (r: seq<Body>)
    requires k <= |list|
    ensures forall b :: b in r ==> b.kind == ExpenseKind && b.isRead && b.projectId == pid
  {
    if k == 0 then [] else ExpenseFeed(p, pid, list, k - 1) + ExpenseItems(p, pid, list[k - 1])
  }

  /** Milestone mid's notices: none when it fails to load; its expenses' only when their list loads. */
  function MilestoneItems(c: Chain, p: Project, pid: nat, now: nat, mid: nat): (r: seq<Body>)
    ensures Inner(r, pid, now)
  {
    match GetMilestone(c, pid, mid)
    case None => []
    case Some(m) => MilestoneCreatedItems(p, pid, m) + DeadlineItems(p, pid, m, now) + ExpenseNotices(c, p, pid, mid)
  }

  /** The notices for milestone mid's expense list; none when the list fails to load. */
  function ExpenseNotices(c: Chain, p: Project, pid: nat, mid: nat): (r: seq<Body>)
    ensures forall b :: b in r ==> b.kind == ExpenseKind && b.isRead && b.projectId == pid
  {
    match GetExpensesByMilestone(c, pid, mid)
    case None => []
    case Some(list) => ExpenseFeed(p, pid, list, |list|)
  }

  function MilestoneFeed(c: Chain, p: Project, pid: nat, now: nat, n: nat): (r: seq<Body>)
    ensures Inner(r, pid, now)
  {
    if n == 0 then [] else MilestoneFeed(c, p, pid, now, n - 1) + MilestoneItems(c, p, pid, now, n - 1)
  }

  /** Project pid's notices, with `now` read once for the project. */
  function ProjectItems(c: Chain, clock: nat -> nat, pid: nat): seq<Body> {
    match GetProject(c, pid)
    case None => []
    case Some(p) => ProjectCreatedItems(p, pid) + MilestoneNotices(c, p, pid, clock(pid))
  }

  /** The notices for a project's milestones; none when it has no milestoneCount. */
  function MilestoneNotices(c: Chain, p: Project, pid: nat, now: nat): (r: seq<Body>)
    ensures Inner(r, pid, now)
  {
    if p.milestoneCount.Some? then MilestoneFeed(c, p, pid, now, p.milestoneCount.value) else []
  }

  /** Everything pushed for projects 0..n-1, in push order. */
  function Feed(c: Chain, clock: nat -> nat, n: nat): seq<Body> {
    if n == 0 then [] else Feed(c, clock, n - 1) + ProjectItems(c, clock, n - 1)
  }

  // ---------------------------------------------------------------------
  // The walk itself, one method per level of nesting.

  method PushExpenses(pushed: seq<Notification>, ghost bodies: seq<Body>, p: Project, pid: nat, list: ExpenseList)
    returns (out: seq<Notification>)
    requires pushed == Numbered(bodies)
    ensures out == Numbered(bodies + ExpenseFeed(p, pid, list, |list|))
  {
    out := pushed;
    ghost var acc := bodies;
    var k := 0;
    while k < |list|
      invariant 0 <= k <= |list|
      invariant acc == bodies + ExpenseFeed(p, pid, list, k)
      invariant out == Numbered(acc)
    {
      var e := list[k];
      ghost var items := ExpenseItems(p, pid, e);
      ghost var prev := acc;
      if e.Some? && e.value.amount.Some? && e.value.timestamp.Some? {
        var b := Body(ExpenseKind, ExpenseAdded(EtherText(e.value.amount.value), p.name), e.value.timestamp.value, true, pid, p.name);
        NumberedSnoc(acc, b);
        out := out + [WithId(b, |out|)];
        acc := acc + [b];
      }
      assert acc == prev + items;
      assert ExpenseFeed(p, pid, list, k + 1) == ExpenseFeed(p, pid, list, k) + items;
      Associative(bodies, ExpenseFeed(p, pid, list, k), items);
      k := k + 1;
    }
  }

  /** Milestone mid's notices: its creation, its reminder, then its expenses. */
  method PushMilestone(pushed: seq<Notification>, ghost bodies: seq<Body>, c: Chain, p: Project, pid: nat, now: nat, mid: nat)
    returns (out: seq<Notification>)
    requires pushed == Numbered(bodies)
    ensures out == Numbered(bodies + MilestoneItems(c, p, pid, now, mid))
  {
    out := pushed;
    var fetched := GetMilestone(c, pid, mid);
    if fetched.None? {
      assert bodies + [] == bodies;
      return;
    }
    var m := fetched.value;
    ghost var acc := bodies;
    if m.createdAt.Some? {
      var b := Body(MilestoneKind, MilestoneAdded(m.description, p.name), m.createdAt.value, true, pid, p.name);
      NumberedSnoc(acc, b);
      out := out + [WithId(b, |out|)];
      acc := acc + [b];
    }
    assert acc == bodies + MilestoneCreatedItems(p, pid, m);
    if m.deadline.Some? {
      var deadline := m.deadline.value;
      if !m.isCompleted && deadline > now && deadline - now < WEEK {
        var b := Body(DeadlineKind, DeadlineSoon(m.description, p.name), now, false, pid, p.name);
        NumberedSnoc(acc, b);
        out := out + [WithId(b, |out|)];
        acc := acc + [b];
      }
    }
    ghost var items := MilestoneCreatedItems(p, pid, m) + DeadlineItems(p, pid, m, now);
    assert acc == bodies + items;
    var list := GetExpensesByMilestone(c, pid, mid);
    if list.Some? {
      ghost var tail := ExpenseFeed(p, pid, list.value, |list.value|);
      assert MilestoneItems(c, p, pid, now, mid) == items + tail;
      out := PushExpenses(out, acc, p, pid, list.value);
      Associative(bodies, items, tail);
    } else {
      assert MilestoneItems(c, p, pid, now, mid) == items + [];
      assert items + [] == items;
    }
  }

  method PushMilestones(pushed: seq<Notification>, ghost bodies: seq<Body>, c: Chain, p: Project, pid: nat, now: nat, count: nat)
    returns (out: seq<Notification>)
    requires pushed == Numbered(bodies)
    ensures out == Numbered(bodies + MilestoneFeed(c, p, pid, now, count))
  {
    out := pushed;
    var mid := 0;
    while mid < count
      invariant 0 <= mid <= count
      invariant out == Numbered(bodies + MilestoneFeed(c, p, pid, now, mid))
    {
      ghost var init := MilestoneFeed(c, p, pid, now, mid);
      ghost var last := MilestoneItems(c, p, pid, now, mid);
      out := PushMilestone(out, bodies + init, c, p, pid, now, mid);
      assert MilestoneFeed(c, p, pid, now, mid + 1) == init + last;
      Associative(bodies, init, last);
      mid := mid + 1;
    }
  }

  /** Project pid's notices: its creation, then its milestones', with `now` read once. */
  method PushProject(pushed: seq<Notification>, ghost bodies: seq<Body>, c: Chain, clock: nat -> nat, pid: nat)
    returns (out: seq<Notification>)
    requires pushed == Numbered(bodies)
    ensures out == Numbered(bodies + ProjectItems(c, clock, pid))
  {
    out := pushed;
    var fetched := GetProject(c, pid);
    if fetched.None? {
      assert bodies + [] == bodies;
      return;
    }
    var p := fetched.value;
    var now := clock(pid);
    ghost var acc := bodies;
    if p.createdAt.Some? {
      var b := Body(ProjectKind, ProjectCreated(p.name), p.createdAt.value, true, pid, p.name);
      NumberedSnoc(acc, b);
      out := out + [WithId(b, |out|)];
      acc := acc + [b];
    }
    assert acc == bodies + ProjectCreatedItems(p, pid);
    if p.milestoneCount.Some? {
      out := PushMilestones(out, acc, c, p, pid, now, p.milestoneCount.value);
    } else {
      assert acc + [] == acc;
    }
    assert acc + MilestoneNotices(c, p, pid, now) == bodies + ProjectItems(c, clock, pid);
  }

  /**
   * The walk over projects 0..projectCount-1. clock(pid) is the time read
   * (in seconds) once project pid has been fetched.
   */
  method CollectNotifications(c: Chain, clock: nat -> nat, projectCount: nat) returns (pushed: seq<Notification>)
    ensures pushed == Numbered(Feed(c, clock, projectCount))
  {
    pushed := [];
    var pid := 0;
    while pid < projectCount
      invariant 0 <= pid <= projectCount
      invariant pushed == Numbered(Feed(c, clock, pid))
    {
      pushed := PushProject(pushed, Feed(c, clock, pid), c, clock, pid);
      pid := pid + 1;
    }
  }

  function Timestamp(n: Notification): int {
    n.timestamp
  }

  class NotificationsPage {
    var notifications: seq<Notification>
    var isLoading: bool
    var error: Option<string>

    constructor ()
      ensures notifications == [] && isLoading && error == None
    {
      notifications := [];
      isLoading := true;
      error := None;
    }

    /** loadNotifications against the chain c; a failed projectCount leaves the list as it was. */
    method LoadNotifications(hasContract: bool, c: Chain, clock: nat -> nat)
      modifies this
      ensures !hasContract ==> notifications == old(notifications) && isLoading == old(isLoading) && error == old(error)
      ensures hasContract && c.projectCount.None? ==>
        notifications == old(notifications) && !isLoading && error == Some(LOAD_FAILED)
      ensures hasContract && c.projectCount.Some? ==>
        var pushed := Numbered(Feed(c, clock, c.projectCount.value));
        && !isLoading && error == None
        && notifications == SortDesc(pushed, Timestamp)
        && multiset(notifications) == multiset(pushed)
        && SortedDesc(notifications, Timestamp)
    {
      if !hasContract {
        return;
      }
      isLoading := true;
      error := None;
      if c.projectCount.None? {
        error := Some(LOAD_FAILED);
        isLoading := false;
        return;
      }
      var pushed := CollectNotifications(c, clock, c.projectCount.value);
      SortDescCorrect(pushed, Timestamp);
      notifications := SortDesc(pushed, Timestamp);
      isLoading := false;
    }
  }

  // ---------------------------------------------------------------------
  // What the feed promises.

  function Id(n: Notification): int {
    n.id
  }

  /** Ids are 0..n-1 before the sort, and stay pairwise distinct after it. */
  lemma SortedIdsDistinct(bodies: seq<Body>)
    ensures DistinctBy(SortDesc(Numbered(bodies), Timestamp), Id)
    ensures forall x :: x in SortDesc(Numbered(bodies), Timestamp) ==> 0 <= x.id < |bodies|
  {
    var pushed := Numbered(bodies);
    assert DistinctBy(pushed, Id);
    SortDescCorrect(pushed, Timestamp);
    PermutationKeepsDistinct(pushed, SortDesc(pushed, Timestamp), Id);
    forall x | x in SortDesc(pushed, Timestamp) ensures 0 <= x.id < |bodies| {
      assert x in multiset(pushed);
    }
  }

  /** A notice is unread exactly when it is a deadline reminder, which carries its project's read time. */
  ghost predicate BodyShaped(b: Body, clock: nat -> nat) {
    && (b.isRead <==> b.kind != DeadlineKind)
    && (b.kind == DeadlineKind ==> b.timestamp == clock(b.projectId))
  }

  ghost predicate Shaped(s: seq<Body>, clock: nat -> nat) {
    forall i :: 0 <= i < |s| ==> BodyShaped(s[i], clock)
  }

  /**
   * Below the project level every notice belongs to project pid, none is a
   * 'project' notice, and the unread ones are reminders stamped `now`.
   */
  ghost predicate InnerBody(b: Body, pid: nat, now: nat) {
    && b.kind != ProjectKind
    && b.projectId == pid
    && (b.isRead <==> b.kind != DeadlineKind)
    && (b.kind == DeadlineKind ==> b.timestamp == now)
  }

  ghost predicate Inner(s: seq<Body>, pid: nat, now: nat) {
    forall b :: b in s ==> InnerBody(b, pid, now)
  }

  lemma ShapedConcat(a: seq<Body>, b: seq<Body>, clock: nat -> nat)
    requires Shaped(a, clock) && Shaped(b, clock)
    ensures Shaped(a + b, clock)
  {
    forall i | 0 <= i < |a + b| ensures (a + b)[i] == if i < |a| then a[i] else b[i - |a|] {}
  }

  lemma InnerShaped(s: seq<Body>, clock: nat -> nat, pid: nat)
    requires Inner(s, pid, clock(pid))
    ensures Shaped(s, clock)
  {
    forall i | 0 <= i < |s| ensures BodyShaped(s[i], clock) {
      assert InnerBody(s[i], pid, clock(pid));
    }
  }

  lemma ProjectItemsShaped(c: Chain, clock: nat -> nat, pid: nat)
    ensures Shaped(ProjectItems(c, clock, pid), clock)
  {
    match GetProject(c, pid)
    case None =>
    case Some(p) =>
      var tail := MilestoneNotices(c, p, pid, clock(pid));
      InnerShaped(tail, clock, pid);
      ShapedConcat(ProjectCreatedItems(p, pid), tail, clock);
  }

  /** Across the whole feed, a notification is unread iff it is a deadline reminder, stamped with its project's read time. */
  lemma {:induction false} FeedShaped(c: Chain, clock: nat -> nat, n: nat)
    ensures Shaped(Feed(c, clock, n), clock)
  {
    if n > 0 {
      FeedShaped(c, clock, n - 1);
      ProjectItemsShaped(c, clock, n - 1);
      ShapedConcat(Feed(c, clock, n - 1), ProjectItems(c, clock, n - 1), clock);
    }
  }

  /** The item a notice is pushed for: a project, a milestone's creation, its deadline, or entry j of its expense list. */
  datatype Origin =
    | ProjectOrigin(pid: nat)
    | MilestoneOrigin(pid: nat, mid: nat)
    | DeadlineOrigin(pid: nat, mid: nat)
    | ExpenseOrigin(pid: nat, mid: nat, j: nat)

  /**
   * Origin o pushes notice b. Project pid must load; a milestone notice
   * also needs the project's milestoneCount, mid below it and milestone mid
   * to load. Then: a 'project' notice needs the project's createdAt; a
   * 'milestone' notice the milestone's createdAt; a 'deadline' notice an
   * incomplete milestone whose deadline lies strictly after the project's
   * `now` and less than a week after it, stamped `now`; an 'expense' notice
   * a loaded expense list whose entry j is non-null with an amount and a
   * timestamp.
   */
  ghost predicate Yields(c: Chain, clock: nat -> nat, o: Origin, b: Body) {
    GetProject(c, o.pid).Some? &&
    var p := GetProject(c, o.pid).value;
    var now := clock(o.pid);
    if o.ProjectOrigin? then
      p.createdAt.Some? && b == Body(ProjectKind, ProjectCreated(p.name), p.createdAt.value, true, o.pid, p.name)
    else
      p.milestoneCount.Some? && o.mid < p.milestoneCount.value && GetMilestone(c, o.pid, o.mid).Some? &&
      var m := GetMilestone(c, o.pid, o.mid).value;
      match o
      case ProjectOrigin(_) => false
      case MilestoneOrigin(pid, _) =>
        m.createdAt.Some? && b == Body(MilestoneKind, MilestoneAdded(m.description, p.name), m.createdAt.value, true, pid, p.name)
      case DeadlineOrigin(pid, _) =>
        && m.deadline.Some? && !m.isCompleted && m.deadline.value > now && m.deadline.value - now < WEEK
        && b == Body(DeadlineKind, DeadlineSoon(m.description, p.name), now, false, pid, p.name)
      case ExpenseOrigin(pid, mid, j) =>
        GetExpensesByMilestone(c, pid, mid).Some? &&
        var list := GetExpensesByMilestone(c, pid, mid).value;
        j < |list| && list[j].Some? && list[j].value.amount.Some? && list[j].value.timestamp.Some? &&
        b == Body(ExpenseKind, ExpenseAdded(EtherText(list[j].value.amount.value), p.name), list[j].value.timestamp.value, true, pid, p.name)
  }

  /** The pieces f(0), ..., f(n-1), one after another. */
  function Join(f: nat -> seq<Body>, n: nat): seq<Body> {
    if n == 0 then [] else Join(f, n - 1) + f(n - 1)
  }

  function Sum(t: nat -> nat, n: nat): nat {
    if n == 0 then 0 else Sum(t, n - 1) + t(n - 1)
  }

  lemma {:induction false} JoinCount(f: nat -> seq<Body>, t: nat -> nat, n: nat, k: Kind)
    requires forall i: nat :: i < n ==> CountKind(f(i), k) == t(i)
    ensures CountKind(Join(f, n), k) == Sum(t, n)
  {
    if n > 0 {
      JoinCount(f, t, n - 1, k);
      CountKindConcat(Join(f, n - 1), f(n - 1), k);
    }
  }

  lemma {:induction false} JoinPieces(f: nat -> seq<Body>, n: nat, b: Body)
    ensures b in Join(f, n) <==> exists i: nat :: i < n && b in f(i)
  {
    if n > 0 {
      JoinPieces(f, n - 1, b);
    }
  }

  lemma {:induction false} FeedJoin(c: Chain, clock: nat -> nat, n: nat)
    ensures Feed(c, clock, n) == Join((pid: nat) => ProjectItems(c, clock, pid), n)
  {
    if n > 0 {
      FeedJoin(c, clock, n - 1);
    }
  }

  lemma {:induction false} MilestoneFeedJoin(c: Chain, p: Project, pid: nat, now: nat, n: nat)
    ensures MilestoneFeed(c, p, pid, now, n) == Join((i: nat) => MilestoneItems(c, p, pid, now, i), n)
  {
    if n > 0 {
      MilestoneFeedJoin(c, p, pid, now, n - 1);
    }
  }

  lemma {:induction false} ExpenseFeedPieces(p: Project, pid: nat, list: ExpenseList, k: nat, b: Body)
    requires k <= |list|
    ensures b in ExpenseFeed(p, pid, list, k) <==> exists j :: 0 <= j < k && b in ExpenseItems(p, pid, list[j])
  {
    if k > 0 {
      ExpenseFeedPieces(p, pid, list, k - 1, b);
    }
  }

  lemma MilestoneFeedPieces(c: Chain, p: Project, pid: nat, now: nat, n: nat, b: Body)
    ensures b in MilestoneFeed(c, p, pid, now, n) <==> exists mid: nat :: mid < n && b in MilestoneItems(c, p, pid, now, mid)
  {
    MilestoneFeedJoin(c, p, pid, now, n);
    JoinPieces((i: nat) => MilestoneItems(c, p, pid, now, i), n, b);
  }

  lemma FeedPieces(c: Chain, clock: nat -> nat, n: nat, b: Body)
    ensures b in Feed(c, clock, n) <==> exists pid: nat :: pid < n && b in ProjectItems(c, clock, pid)
  {
    FeedJoin(c, clock, n);
    JoinPieces((i: nat) => ProjectItems(c, clock, i), n, b);
  }

  /** Milestone mid of a loaded project pid pushes b iff its creation, its deadline or one of its expense entries yields b. */
  lemma MilestoneItemsOrigins(c: Chain, clock: nat -> nat, pid: nat, mid: nat, b: Body)
    requires GetProject(c, pid).Some? && GetProject(c, pid).value.milestoneCount.Some?
    requires mid < GetProject(c, pid).value.milestoneCount.value
    ensures b in MilestoneItems(c, GetProject(c, pid).value, pid, clock(pid), mid) <==>
      || Yields(c, clock, MilestoneOrigin(pid, mid), b)
      || Yields(c, clock, DeadlineOrigin(pid, mid), b)
      || exists j: nat :: Yields(c, clock, ExpenseOrigin(pid, mid, j), b)
  {
    var p := GetProject(c, pid).value;
    match GetMilestone(c, pid, mid)
    case None =>
    case Some(m) =>
      match GetExpensesByMilestone(c, pid, mid)
      case None =>
      case Some(list) =>
        ExpenseFeedPieces(p, pid, list, |list|, b);
        if exists j: nat :: Yields(c, clock, ExpenseOrigin(pid, mid, j), b) {
          var j: nat :| Yields(c, clock, ExpenseOrigin(pid, mid, j), b);
          assert b in ExpenseItems(p, pid, list[j]);
        }
        if exists j :: 0 <= j < |list| && b in ExpenseItems(p, pid, list[j]) {
          var j :| 0 <= j < |list| && b in ExpenseItems(p, pid, list[j]);
          assert Yields(c, clock, ExpenseOrigin(pid, mid, j), b);
        }
  }

  /** Project pid pushes b iff some origin within project pid yields it. */
  lemma ProjectItemsOrigins(c: Chain, clock: nat -> nat, pid: nat, b: Body)
    ensures b in ProjectItems(c, clock, pid) <==> exists o: Origin :: o.pid == pid && Yields(c, clock, o, b)
  {
    match GetProject(c, pid)
    case None =>
    case Some(p) =>
      assert ProjectItems(c, clock, pid) == ProjectCreatedItems(p, pid) + MilestoneNotices(c, p, pid, clock(pid));
      if b in ProjectCreatedItems(p, pid) {
        assert Yields(c, clock, ProjectOrigin(pid), b);
      }
      if Yields(c, clock, ProjectOrigin(pid), b) {
        assert b in ProjectCreatedItems(p, pid);
      }
      if p.milestoneCount.Some? {
        var count := p.milestoneCount.value;
        MilestoneFeedPieces(c, p, pid, clock(pid), count, b);
        if b in MilestoneFeed(c, p, pid, clock(pid), count) {
          var mid :| 0 <= mid < count && b in MilestoneItems(c, p, pid, clock(pid), mid);
          MilestoneItemsOrigins(c, clock, pid, mid, b);
          if Yields(c, clock, MilestoneOrigin(pid, mid), b) {
          } else if Yields(c, clock, DeadlineOrigin(pid, mid), b) {
          } else {
            var j: nat :| Yields(c, clock, ExpenseOrigin(pid, mid, j), b);
          }
        }
        if exists o: Origin :: o.pid == pid && !o.ProjectOrigin? && Yields(c, clock, o, b) {
          var o: Origin :| o.pid == pid && !o.ProjectOrigin? && Yields(c, clock, o, b);
          MilestoneItemsOrigins(c, clock, pid, o.mid, b);
          assert b in MilestoneItems(c, p, pid, clock(pid), o.mid);
        }
      }
  }

  /**
   * The feed holds exactly the notices pushed for the origins within
   * projects 0..n-1: a project, milestone or expense list that fails to load
   * drops only its own notices, and every other origin still yields its own.
   */
  lemma FeedMembers(c: Chain, clock: nat -> nat, n: nat, b: Body)
    ensures b in Feed(c, clock, n) <==> exists o: Origin :: o.pid < n && Yields(c, clock, o, b)
  {
    FeedPieces(c, clock, n, b);
    if b in Feed(c, clock, n) {
      var pid :| 0 <= pid < n && b in ProjectItems(c, clock, pid);
      ProjectItemsOrigins(c, clock, pid, b);
    }
    if exists o: Origin :: o.pid < n && Yields(c, clock, o, b) {
      var o: Origin :| o.pid < n && Yields(c, clock, o, b);
      ProjectItemsOrigins(c, clock, o.pid, b);
    }
  }

  /**
   * A 'deadline' notice is in the feed iff some milestone of a loaded
   * project below n loads, is incomplete and falls due after the project's
   * `now` and within the week after it.
   */
  lemma DeadlineMembers(c: Chain, clock: nat -> nat, n: nat, b: Body)
    requires b.kind == DeadlineKind
    ensures b in Feed(c, clock, n) <==> exists pid: nat, mid: nat :: pid < n && Yields(c, clock, DeadlineOrigin(pid, mid), b)
  {
    FeedMembers(c, clock, n, b);
    if b in Feed(c, clock, n) {
      var o: Origin :| o.pid < n && Yields(c, clock, o, b);
      assert o == DeadlineOrigin(o.pid, o.mid);
    }
  }

  /** A 'milestone' notice is in the feed iff some loaded milestone below its loaded project's milestoneCount has a createdAt. */
  lemma MilestoneMembers(c: Chain, clock: nat -> nat, n: nat, b: Body)
    requires b.kind == MilestoneKind
    ensures b in Feed(c, clock, n) <==> exists pid: nat, mid: nat :: pid < n && Yields(c, clock, MilestoneOrigin(pid, mid), b)
  {
    FeedMembers(c, clock, n, b);
    if b in Feed(c, clock, n) {
      var o: Origin :| o.pid < n && Yields(c, clock, o, b);
      assert o == MilestoneOrigin(o.pid, o.mid);
    }
  }

  /** An 'expense' notice is in the feed iff some loaded list of a loaded milestone holds a non-null entry with an amount and a timestamp. */
  lemma ExpenseMembers(c: Chain, clock: nat -> nat, n: nat, b: Body)
    requires b.kind == ExpenseKind
    ensures b in Feed(c, clock, n) <==> exists pid: nat, mid: nat, j: nat :: pid < n && Yields(c, clock, ExpenseOrigin(pid, mid, j), b)
  {
    FeedMembers(c, clock, n, b);
    if b in Feed(c, clock, n) {
      var o: Origin :| o.pid < n && Yields(c, clock, o, b);
      assert o == ExpenseOrigin(o.pid, o.mid, o.j);
    }
  }

  /** How many notifications of a kind a list holds. */
  function CountKind(s: seq<Body>, k: Kind): nat {
    if s == [] then 0 else (if s[0].kind == k then 1 else 0) + CountKind(s[1..], k)
  }

  lemma {:induction false} CountKindConcat(a: seq<Body>, b: seq<Body>, k: Kind)
    ensures CountKind(a + b, k) == CountKind(a, k) + CountKind(b, k)
  {
    if a == [] {
      assert a + b == b;
    } else {
      assert (a + b)[1..] == a[1..] + b;
      CountKindConcat(a[1..], b, k);
    }
  }

  lemma {:induction false} CountAbsent(s: seq<Body>, k: Kind)
    requires forall b :: b in s ==> b.kind != k
    ensures CountKind(s, k) == 0
  {
    if s != [] {
      assert s[0] in s;
      CountAbsent(s[1..], k);
    }
  }

  lemma CountSingle(s: seq<Body>, k: Kind)
    requires |s| <= 1
    ensures CountKind(s, k) == if s != [] && s[0].kind == k then 1 else 0
  {
    if s != [] {
      assert s[1..] == [];
    }
  }

  /** How many of projects 0..n-1 load and carry a createdAt. */
  function CreatedProjects(c: Chain, n: nat): nat {
    if n == 0 then 0
    else CreatedProjects(c, n - 1) + (if GetProject(c, n - 1).Some? && GetProject(c, n - 1).value.createdAt.Some? then 1 else 0)
  }

  lemma ProjectItemsCount(c: Chain, clock: nat -> nat, pid: nat)
    ensures CountKind(ProjectItems(c, clock, pid), ProjectKind)
         == if GetProject(c, pid).Some? && GetProject(c, pid).value.createdAt.Some? then 1 else 0
  {
    match GetProject(c, pid)
    case None =>
    case Some(p) =>
      var head := ProjectCreatedItems(p, pid);
      var tail := MilestoneNotices(c, p, pid, clock(pid));
      CountAbsent(tail, ProjectKind);
      CountKindConcat(head, tail, ProjectKind);
      CountSingle(head, ProjectKind);
  }

  /** One 'project' notification per loaded project with a createdAt, and no other. */
  lemma {:induction false} CreatedProjectsSum(c: Chain, n: nat)
    ensures CreatedProjects(c, n)
         == Sum((pid: nat) => if GetProject(c, pid).Some? && GetProject(c, pid).value.createdAt.Some? then 1 else 0, n)
  {
    if n > 0 {
      CreatedProjectsSum(c, n - 1);
    }
  }

  lemma ProjectNoticeCount(c: Chain, clock: nat -> nat, n: nat)
    ensures CountKind(Feed(c, clock, n), ProjectKind) == CreatedProjects(c, n)
  {
    var f: nat -> seq<Body> := (pid: nat) => ProjectItems(c, clock, pid);
    var t: nat -> nat := (pid: nat) => if GetProject(c, pid).Some? && GetProject(c, pid).value.createdAt.Some? then 1 else 0;
    forall pid: nat | pid < n ensures CountKind(f(pid), ProjectKind) == t(pid) {
      ProjectItemsCount(c, clock, pid);
    }
    JoinCount(f, t, n, ProjectKind);
    FeedJoin(c, clock, n);
    CreatedProjectsSum(c, n);
  }

  /** Whether milestone m pushes a 'milestone' or a 'deadline' notice when read at `now`. */
  predicate Pushes(m: Milestone, now: nat, k: Kind) {
    match k
    case MilestoneKind => m.createdAt.Some?
    case DeadlineKind => m.deadline.Some? && !m.isCompleted && m.deadline.value > now && m.deadline.value - now < WEEK
    case _ => false
  }

  /** How many of milestones 0..n-1 of project pid load and push a notice of kind k. */
  function MilestoneTally(c: Chain, pid: nat, now: nat, n: nat, k: Kind): nat {
    if n == 0 then 0 else
      var here := GetMilestone(c, pid, n - 1).Some? && Pushes(GetMilestone(c, pid, n - 1).value, now, k);
      MilestoneTally(c, pid, now, n - 1, k) + (if here then 1 else 0)
  }

  /** The same over the milestones of every loaded project 0..n-1 that has a milestoneCount. */
  function FeedTally(c: Chain, clock: nat -> nat, n: nat, k: Kind): nat {
    if n == 0 then 0 else
      var here :=
        match GetProject(c, n - 1)
        case None => 0
        case Some(p) => if p.milestoneCount.Some? then MilestoneTally(c, n - 1, clock(n - 1), p.milestoneCount.value, k) else 0;
      FeedTally(c, clock, n - 1, k) + here
  }

  lemma MilestoneItemsCount(c: Chain, p: Project, pid: nat, now: nat, mid: nat, k: Kind)
    requires k == MilestoneKind || k == DeadlineKind
    ensures CountKind(MilestoneItems(c, p, pid, now, mid), k)
         == if GetMilestone(c, pid, mid).Some? && Pushes(GetMilestone(c, pid, mid).value, now, k) then 1 else 0
  {
    match GetMilestone(c, pid, mid)
    case None =>
    case Some(m) =>
      var created := MilestoneCreatedItems(p, pid, m);
      var reminder := DeadlineItems(p, pid, m, now);
      var tail := ExpenseNotices(c, p, pid, mid);
      CountSingle(created, k);
      CountSingle(reminder, k);
      CountAbsent(tail, k);
      CountKindConcat(created, reminder, k);
      CountKindConcat(created + reminder, tail, k);
  }

  lemma {:induction false} MilestoneTallySum(c: Chain, pid: nat, now: nat, n: nat, k: Kind)
    ensures MilestoneTally(c, pid, now, n, k)
         == Sum((i: nat) => if GetMilestone(c, pid, i).Some? && Pushes(GetMilestone(c, pid, i).value, now, k) then 1 else 0, n)
  {
    if n > 0 {
      MilestoneTallySum(c, pid, now, n - 1, k);
    }
  }

  lemma MilestoneFeedCount(c: Chain, p: Project, pid: nat, now: nat, n: nat, k: Kind)
    requires k == MilestoneKind || k == DeadlineKind
    ensures CountKind(MilestoneFeed(c, p, pid, now, n), k) == MilestoneTally(c, pid, now, n, k)
  {
    var f: nat -> seq<Body> := (i: nat) => MilestoneItems(c, p, pid, now, i);
    var t: nat -> nat := (i: nat) => if GetMilestone(c, pid, i).Some? && Pushes(GetMilestone(c, pid, i).value, now, k) then 1 else 0;
    forall i: nat | i < n ensures CountKind(f(i), k) == t(i) {
      MilestoneItemsCount(c, p, pid, now, i, k);
    }
    JoinCount(f, t, n, k);
    MilestoneFeedJoin(c, p, pid, now, n);
    MilestoneTallySum(c, pid, now, n, k);
  }

  lemma ProjectItemsTally(c: Chain, clock: nat -> nat, pid: nat, k: Kind)
    requires k == MilestoneKind || k == DeadlineKind
    ensures CountKind(ProjectItems(c, clock, pid), k) ==
      match GetProject(c, pid)
      case None => 0
      case Some(p) => if p.milestoneCount.Some? then MilestoneTally(c, pid, clock(pid), p.milestoneCount.value, k) else 0
  {
    match GetProject(c, pid)
    case None =>
    case Some(p) =>
      var head := ProjectCreatedItems(p, pid);
      var tail := MilestoneNotices(c, p, pid, clock(pid));
      CountSingle(head, k);
      CountKindConcat(head, tail, k);
      if p.milestoneCount.Some? {
        MilestoneFeedCount(c, p, pid, clock(pid), p.milestoneCount.value, k);
      }
  }

  /**
   * One 'milestone' notice per loaded milestone with a createdAt, and one
   * 'deadline' notice per loaded milestone due within the week, over the
   * milestones below the milestoneCount of every loaded project.
   */
  function ProjectTally(c: Chain, clock: nat -> nat, pid: nat, k: Kind): nat {
    match GetProject(c, pid)
    case None => 0
    case Some(p) => if p.milestoneCount.Some? then MilestoneTally(c, pid, clock(pid), p.milestoneCount.value, k) else 0
  }

  lemma {:induction false} FeedTallySum(c: Chain, clock: nat -> nat, n: nat, k: Kind)
    ensures FeedTally(c, clock, n, k) == Sum((pid: nat) => ProjectTally(c, clock, pid, k), n)
  {
    if n > 0 {
      FeedTallySum(c, clock, n - 1, k);
    }
  }

  lemma MilestoneNoticeCount(c: Chain, clock: nat -> nat, n: nat, k: Kind)
    requires k == MilestoneKind || k == DeadlineKind
    ensures CountKind(Feed(c, clock, n), k) == FeedTally(c, clock, n, k)
  {
    var f: nat -> seq<Body> := (pid: nat) => ProjectItems(c, clock, pid);
    var t: nat -> nat := (pid: nat) => ProjectTally(c, clock, pid, k);
    forall pid: nat | pid < n ensures CountKind(f(pid), k) == t(pid) {
      ProjectItemsTally(c, clock, pid, k);
    }
    JoinCount(f, t, n, k);
    FeedJoin(c, clock, n);
    FeedTallySum(c, clock, n, k);
  }
}
