/**
 * The projects page: every project 0..projectCount-1 fetched in order into a
 * row, where any failure (a reverted getProject, a missing budget or spent
 * that formatEther throws on) abandons the whole listing; then the rows shown
 * are those passing the status filter and the case-insensitive search.
 */
module ProjectsPage {
  import opened Wrappers
  import opened JsValues
  import opened Text
  import opened Ether
  import opened ChainModel

  const LOAD_FAILED: string := "Error loading projects. Please check console for details."

  datatype ListedProject = ListedProject(
    id: nat, name: string, description: string, budget: EtherText, spent: EtherText,
    government: string, isCompleted: bool, expenseCount: int, milestoneCount: int, lastUpdated: int)

  /**
   * The page's own safeToNumber: a falsy value is 0, a BigNumber converts
   * (0 on overflow), and any other truthy value has no toNumber, so the call
   * throws and the catch answers 0.
   */
  function SafeToNumber(v: JsValue): (n: int)
    ensures !Truthy(v) ==> n == 0
    ensures v.Big? && -(MAX_SAFE as int) < v.v < MAX_SAFE ==> n == v.v
    ensures n != 0 ==> v.Big? && n == v.v
  {
    if !Truthy(v) then 0
    else if v.Big? then BigToNumber(v.v).GetOr(0)
    else 0
  }

  /** A toNumber'd contract field as the page sees it. */
  function FieldNumber(f: Option<Uint53>): (n: int)
    ensures n == if f.Some? then f.value as int else 0
  {
    SafeToNumber(FieldValue(if f.Some? then Some(f.value as nat) else None))
  }

  /** Project i's row; None when getProject reverts or formatEther throws. */
  function Row(c: Chain, i: nat): (r: Option<ListedProject>)
    ensures r.Some? <==> GetProject(c, i).Some? && GetProject(c, i).value.budget.Some? && GetProject(c, i).value.spent.Some?
  {
    match GetProject(c, i)
    case None => None
    case Some(p) =>
      var budget := FormatField(p.budget);
      var spent := FormatField(p.spent);
      if budget.Failure? || spent.Failure? then None
      else Some(ListedProject(
        i, p.name, p.description, budget.value, spent.value, p.government, p.isCompleted,
        FieldNumber(p.expenseCount), FieldNumber(p.milestoneCount), FieldNumber(p.lastUpdated)))
  }

  /**
   * The listing of projects 0..n-1: all rows in id order, or None as soon as
   * one of them fails.
   */
  function Listing(c: Chain, n: nat): (r: Option<seq<ListedProject>>)
    ensures r.Some? <==> forall i :: 0 <= i < n ==> Row(c, i).Some?
    ensures r.Some? ==> |r.value| == n && forall i :: 0 <= i < n ==> r.value[i] == Row(c, i).value
  {
    if n == 0 then Some([])
    else match Listing(c, n - 1)
      case None => None
      case Some(prev) =>
        match Row(c, n - 1)
        case None => None
        case Some(row) => Some(prev + [row])
  }

  /** Which projects the status buttons let through. */
  datatype StatusFilter = All | Active | Completed

  predicate StatusKeeps(f: StatusFilter, p: ListedProject) {
    match f
    case Active => !p.isCompleted
    case Completed => p.isCompleted
    case All => true
  }

  /** The search: the lower-cased term occurs in the lower-cased name or description. */
  predicate Matches(term: string, p: ListedProject) {
    Contains(Lower(p.name), Lower(term)) || Contains(Lower(p.description), Lower(term))
  }

  /** The first filter pass. */
  function ByStatus(ps: seq<ListedProject>, f: StatusFilter): seq<ListedProject> {
    if ps == [] then []
    else (if StatusKeeps(f, ps[0]) then [ps[0]] else []) + ByStatus(ps[1..], f)
  }

  /** The second filter pass. */
  function BySearch(ps: seq<ListedProject>, term: string): seq<ListedProject> {
    if ps == [] then []
    else (if Matches(term, ps[0]) then [ps[0]] else []) + BySearch(ps[1..], term)
  }

  /** filteredProjects: the status filter, then the search. */
  function FilterProjects(ps: seq<ListedProject>, f: StatusFilter, term: string): seq<ListedProject> {
    BySearch(ByStatus(ps, f), term)
  }

  /** The loop of fetchProjects over ids 0..count-1; the first failed row ends it. */
  method CollectRows(c: Chain, count: nat) returns (rows: Option<seq<ListedProject>>)
    ensures rows == Listing(c, count)
  {
    var data: seq<ListedProject> := [];
    var i := 0;
    while i < count
      invariant 0 <= i <= count
      invariant Listing(c, i) == Some(data)
    {
      var fetched := GetProject(c, i);
      if fetched.None? {
        RowFails(c, i, count);
        return None;
      }
      var p := fetched.value;
      var budget := FormatField(p.budget);
      var spent := FormatField(p.spent);
      if budget.Failure? || spent.Failure? {
        RowFails(c, i, count);
        return None;
      }
      var row := ListedProject(
        i, p.name, p.description, budget.value, spent.value, p.government, p.isCompleted,
        FieldNumber(p.expenseCount), FieldNumber(p.milestoneCount), FieldNumber(p.lastUpdated));
      assert Row(c, i) == Some(row);
      data := data + [row];
      i := i + 1;
    }
    rows := Some(data);
  }

  class ProjectsPageView {
    var projects: seq<ListedProject>
    var isLoading: bool
    var error: Option<string>
    var searchTerm: string
    var filter: StatusFilter

    constructor ()
      ensures projects == [] && isLoading && error == None && searchTerm == "" && filter == All
    {
      projects := [];
      isLoading := true;
      error := None;
      searchTerm := "";
      filter := All;
    }

    /** The rows on screen. */
    function Shown(): seq<ListedProject>
      reads this
    {
      FilterProjects(projects, filter, searchTerm)
    }

    /**
     * fetchProjects against the chain c. Without a contract nothing happens;
     * a reverted projectCount or any failed row sets the error and keeps the
     * old list; otherwise the list becomes every row in id order.
     */
    method FetchProjects(hasContract: bool, c: Chain)
      modifies this
      ensures searchTerm == old(searchTerm) && filter == old(filter)
      ensures !hasContract ==> projects == old(projects) && isLoading == old(isLoading) && error == old(error)
      ensures hasContract && (c.projectCount.None? || Listing(c, c.projectCount.value).None?) ==>
        projects == old(projects) && !isLoading && error == Some(LOAD_FAILED)
      ensures hasContract && c.projectCount.Some? && Listing(c, c.projectCount.value).Some? ==>
        projects == Listing(c, c.projectCount.value).value && !isLoading && error == old(error)
    {
      if !hasContract {
        return;
      }
      if c.projectCount.None? {
        error := Some(LOAD_FAILED);
        isLoading := false;
        return;
      }
      var rows := CollectRows(c, c.projectCount.value);
      if rows.None? {
        error := Some(LOAD_FAILED);
        isLoading := false;
        return;
      }
      projects := rows.value;
      isLoading := false;
    }
  }

  // ---------------------------------------------------------------------
  // What the listing and the filters promise.

  /** One failed row abandons the listing of any count beyond it. */
  lemma RowFails(c: Chain, i: nat, n: nat)
    requires i < n && Row(c, i).None?
    ensures Listing(c, n).None?
  {
    assert !(forall j :: 0 <= j < n ==> Row(c, j).Some?) by {
      assert !Row(c, i).Some?;
    }
  }

  /** A row shows project i as fetched: its id is i, its amounts read back as the base units. */
  lemma RowFields(c: Chain, i: nat)
    requires Row(c, i).Some?
    ensures var p := GetProject(c, i).value; var r := Row(c, i).value;
      && r.id == i && r.name == p.name && r.description == p.description
      && ParseEther(r.budget.Text()) == Some(p.budget.value as int)
      && ParseEther(r.spent.Text()) == Some(p.spent.value as int)
      && r.government == p.government && r.isCompleted == p.isCompleted
      && r.expenseCount == (if p.expenseCount.Some? then p.expenseCount.value as int else 0)
      && r.milestoneCount == (if p.milestoneCount.Some? then p.milestoneCount.value as int else 0)
      && r.lastUpdated == (if p.lastUpdated.Some? then p.lastUpdated.value as int else 0)
  {
    var p := GetProject(c, i).value;
    FormatThenParse(p.budget.value);
    FormatThenParse(p.spent.value);
  }

  /** a is b with some elements left out, the rest in their order. */
  ghost predicate Subsequence<T>(a: seq<T>, b: seq<T>)
    decreases |b|
  {
    a == [] || (b != [] && ((a[0] == b[0] && Subsequence(a[1..], b[1..])) || Subsequence(a, b[1..])))
  }

  predicate Visible(f: StatusFilter, term: string, p: ListedProject) {
    StatusKeeps(f, p) && Matches(term, p)
  }

  /** The two passes take or drop each project by the two tests together. */
  lemma {:induction false} FilterStep(ps: seq<ListedProject>, f: StatusFilter, term: string)
    requires ps != []
    ensures FilterProjects(ps, f, term) == (if Visible(f, term, ps[0]) then [ps[0]] else []) + FilterProjects(ps[1..], f, term)
  {
    var rest := ByStatus(ps[1..], f);
    if StatusKeeps(f, ps[0]) {
      var s := [ps[0]] + rest;
      assert ByStatus(ps, f) == s;
      assert s != [] && s[0] == ps[0] && s[1..] == rest;
    } else {
      assert ByStatus(ps, f) == rest;
    }
  }

  /** The shown projects are exactly those passing both tests. */
  lemma {:induction false} FilterMembers(ps: seq<ListedProject>, f: StatusFilter, term: string, x: ListedProject)
    ensures x in FilterProjects(ps, f, term) <==> x in ps && Visible(f, term, x)
  {
    if ps != [] {
      FilterStep(ps, f, term);
      FilterMembers(ps[1..], f, term, x);
      assert ps == [ps[0]] + ps[1..];
    }
  }

  /** Filtering keeps the listing's order. */
  lemma {:induction false} FilterKeepsOrder(ps: seq<ListedProject>, f: StatusFilter, term: string)
    ensures Subsequence(FilterProjects(ps, f, term), ps)
  {
    if ps != [] {
      FilterStep(ps, f, term);
      FilterKeepsOrder(ps[1..], f, term);
      var r := FilterProjects(ps, f, term);
      if Visible(f, term, ps[0]) {
        assert r != [] && r[0] == ps[0] && r[1..] == FilterProjects(ps[1..], f, term);
      } else {
        assert r == FilterProjects(ps[1..], f, term);
      }
    }
  }

  lemma EmptyTermMatches(p: ListedProject)
    ensures Matches("", p)
  {
    assert Lower("") == [];
    assert StartsWith(Lower(p.name), []);
  }

  /** With an empty search the status filter alone decides; 'all' with no search shows everything. */
  lemma {:induction false} EmptySearch(ps: seq<ListedProject>, f: StatusFilter)
    ensures FilterProjects(ps, f, "") == ByStatus(ps, f)
    ensures FilterProjects(ps, All, "") == ps
  {
    if ps != [] {
      FilterStep(ps, f, "");
      FilterStep(ps, All, "");
      EmptySearch(ps[1..], f);
      EmptyTermMatches(ps[0]);
      var s := ByStatus(ps, f);
      if StatusKeeps(f, ps[0]) {
        assert s == [ps[0]] + ByStatus(ps[1..], f);
      }
      assert ps == [ps[0]] + ps[1..];
    }
  }

  /** 'active' and 'completed' split what 'all' shows, whatever the search. */
  lemma {:induction false} StatusSplit(ps: seq<ListedProject>, term: string)
    ensures |FilterProjects(ps, Active, term)| + |FilterProjects(ps, Completed, term)| == |FilterProjects(ps, All, term)|
  {
    if ps != [] {
      FilterStep(ps, Active, term);
      FilterStep(ps, Completed, term);
      FilterStep(ps, All, term);
      StatusSplit(ps[1..], term);
    }
  }
}
