/**
 * The paginated project list: page p (from 1) shows the projects with ids
 * (p-1)*5 up to, not including, min((p-1)*5 + 5, projectCount); any failure
 * while fetching a page keeps the previous page on screen with the error's
 * message. Prev and Next move one page, never below page 1 and forward only
 * while more projects follow.
 */
module ProjectList {
  import opened Wrappers
  import opened JsValues
  import opened Ether
  import opened ChainModel

  const PER_PAGE: nat := 5
  const FETCH_FAILED: string := "Error fetching projects. Please try again."

  /** What `undefined.toNumber()` throws. */
  const TO_NUMBER_FAULT: JsError := JsError(true, "Cannot read properties of undefined (reading 'toNumber')", "")

  datatype PageProject = PageProject(
    id: nat, name: string, description: string, budget: EtherText, spent: EtherText,
    government: string, isCompleted: bool, lastUpdatedMs: int)

  /** The first id on page p. */
  function Start(page: nat): nat
    requires page >= 1
  {
    (page - 1) * PER_PAGE
  }

  /** One past the last id on page p, for a contract holding count projects. */
  function End(page: nat, count: nat): nat
    requires page >= 1
  {
    if Start(page) + PER_PAGE < count then Start(page) + PER_PAGE else count
  }

  /** Project i as the list shows it, or what its fetch threw. */
  function PageRow(c: Chain, i: nat): (r: Result<PageProject, JsError>)
    ensures r.Success? <==> GetProject(c, i).Some? && GetProject(c, i).value.budget.Some?
                            && GetProject(c, i).value.spent.Some? && GetProject(c, i).value.lastUpdated.Some?
    ensures r.Success? ==> r.value.id == i && r.value.lastUpdatedMs == GetProject(c, i).value.lastUpdated.value * 1000
    ensures GetProject(c, i).None? ==> r == Failure(REVERT)
  {
    match GetProject(c, i)
    case None => Failure(REVERT)
    case Some(p) =>
      match FormatField(p.budget)
      case Failure(e) => Failure(e)
      case Success(budget) =>
        match FormatField(p.spent)
        case Failure(e) => Failure(e)
        case Success(spent) =>
          if p.lastUpdated.None? then Failure(TO_NUMBER_FAULT)
          else Success(PageProject(i, p.name, p.description, budget, spent, p.government, p.isCompleted,
                                   p.lastUpdated.value * 1000))
  }

  /** The rows for ids start..end-1, or the first fault among them. */
  function PageRows(c: Chain, start: nat, end: nat): (r: Result<seq<PageProject>, JsError>)
    decreases end
    ensures r.Success? <==> forall i :: start <= i < end ==> PageRow(c, i).Success?
    ensures r.Success? ==> |r.value| == if start <= end then end - start else 0
    ensures r.Success? ==> forall k :: 0 <= k < |r.value| ==> r.value[k] == PageRow(c, start + k).value
  {
    if end <= start then Success([])
    else match PageRows(c, start, end - 1)
      case Failure(e) => Failure(e)
      case Success(prev) =>
        match PageRow(c, end - 1)
        case Failure(e) => Failure(e)
        case Success(row) => Success(prev + [row])
  }

  /** The fetch loop for one page. */
  method FetchRows(c: Chain, start: nat, end: nat) returns (rows: Result<seq<PageProject>, JsError>)
    ensures rows == PageRows(c, start, end)
  {
    var data: seq<PageProject> := [];
    var i := start;
    if end <= start {
      return Success([]);
    }
    while i < end
      invariant start <= i <= end
      invariant PageRows(c, start, i) == Success(data)
    {
      var row := PageRow(c, i);
      if row.Failure? {
        assert PageRows(c, start, i + 1) == Failure(row.error);
        PrefixFailure(c, start, i + 1, end);
        return Failure(row.error);
      }
      assert PageRows(c, start, i + 1) == Success(data + [row.value]);
      data := data + [row.value];
      i := i + 1;
    }
    rows := Success(data);
  }

  /** A fault in the first ids stops every longer page too, with the same fault. */
  lemma {:induction false} PrefixFailure(c: Chain, start: nat, mid: nat, end: nat)
    requires start < mid <= end && PageRows(c, start, mid).Failure?
    ensures PageRows(c, start, end) == PageRows(c, start, mid)
    decreases end
  {
    if end > mid {
      PrefixFailure(c, start, mid, end - 1);
    }
  }

  /** A failed page carries the fault of its first failing id. */
  lemma {:induction false} FirstFault(c: Chain, start: nat, end: nat)
    requires PageRows(c, start, end).Failure?
    ensures exists i :: start <= i < end && PageRow(c, i) == Failure(PageRows(c, start, end).error)
                        && forall j :: start <= j < i ==> PageRow(c, j).Success?
    decreases end
  {
    if PageRows(c, start, end - 1).Failure? {
      FirstFault(c, start, end - 1);
    } else {
      assert PageRow(c, end - 1) == Failure(PageRows(c, start, end).error);
    }
  }

  class ProjectListView {
    var projects: seq<PageProject>
    var loading: bool
    var error: Option<string>
    var page: nat
    var hasMore: bool

    ghost predicate Valid()
      reads this
    {
      page >= 1
    }

    constructor ()
      ensures Valid()
      ensures projects == [] && loading && error == None && page == 1 && hasMore
    {
      projects := [];
      loading := true;
      error := None;
      page := 1;
      hasMore := true;
    }

    /**
     * fetchProjects(pageNumber): the rows of that page and whether more
     * follow, or on a fault its message (the fallback when it has none) with
     * the old rows and the old hasMore kept.
     */
    method FetchProjects(hasContract: bool, c: Chain, pageNumber: nat)
      requires pageNumber >= 1
      modifies this
      ensures page == old(page)
      ensures !hasContract ==>
        projects == old(projects) && loading == old(loading) && error == old(error) && hasMore == old(hasMore)
      ensures hasContract ==> !loading
      ensures hasContract && c.projectCount.None? ==>
        projects == old(projects) && hasMore == old(hasMore) && error == Some(MessageOr(REVERT, FETCH_FAILED))
      ensures hasContract && c.projectCount.Some? ==>
        var count := c.projectCount.value as nat;
        var rows := PageRows(c, Start(pageNumber), End(pageNumber, count));
        if rows.Success? then
          projects == rows.value && hasMore == (End(pageNumber, count) < count) && error == None
        else
          projects == old(projects) && hasMore == old(hasMore) && error == Some(MessageOr(rows.error, FETCH_FAILED))
    {
      if !hasContract {
        return;
      }
      loading := true;
      error := None;
      if c.projectCount.None? {
        error := Some(MessageOr(REVERT, FETCH_FAILED));
        loading := false;
        return;
      }
      var count := c.projectCount.value as nat;
      var startIndex := Start(pageNumber);
      var endIndex := End(pageNumber, count);
      var rows := FetchRows(c, startIndex, endIndex);
      if rows.Failure? {
        error := Some(MessageOr(rows.error, FETCH_FAILED));
      } else {
        projects := rows.value;
        hasMore := endIndex < count;
      }
      loading := false;
    }

    /** handlePrevPage: back one page unless on the first. */
    method PrevPage()
      requires Valid()
      modifies this
      ensures Valid()
      ensures page == if old(page) > 1 then old(page) - 1 else old(page)
      ensures projects == old(projects) && loading == old(loading) && error == old(error) && hasMore == old(hasMore)
    {
      if page > 1 {
        page := page - 1;
      }
    }

    /** handleNextPage: forward one page while more projects follow. */
    method NextPage()
      requires Valid()
      modifies this
      ensures Valid()
      ensures page == if old(hasMore) then old(page) + 1 else old(page)
      ensures projects == old(projects) && loading == old(loading) && error == old(error) && hasMore == old(hasMore)
    {
      if hasMore {
        page := page + 1;
      }
    }
  }

  // ---------------------------------------------------------------------
  // What pagination promises.

  /** A page holds at most five projects, and exactly five unless it is the last. */
  lemma PageSize(c: Chain, page: nat, count: nat)
    requires page >= 1
    requires PageRows(c, Start(page), End(page, count)).Success?
    ensures |PageRows(c, Start(page), End(page, count)).value| <= PER_PAGE
    ensures End(page, count) < count ==> |PageRows(c, Start(page), End(page, count)).value| == PER_PAGE
  {
  }

  /** Each id below the count is on exactly one page: page id/5 + 1. */
  lemma OnExactlyOnePage(id: nat, count: nat, page: nat)
    requires id < count && page >= 1
    ensures Start(page) <= id < End(page, count) <==> page == id / PER_PAGE + 1
  {
    if page == id / PER_PAGE + 1 {
      assert Start(page) == (id / PER_PAGE) * PER_PAGE;
    }
    if Start(page) <= id < End(page, count) {
      assert (page - 1) * PER_PAGE <= id < (page - 1) * PER_PAGE + PER_PAGE;
      DivBetween(id, page - 1);
    }
  }

  lemma DivBetween(id: nat, q: nat)
    requires q * PER_PAGE <= id < q * PER_PAGE + PER_PAGE
    ensures id / PER_PAGE == q
  {
  }

  /** Next is offered exactly while some project lies beyond this page. */
  lemma HasMoreMeansBeyond(page: nat, count: nat)
    requires page >= 1
    ensures End(page, count) < count <==> page * PER_PAGE < count
  {
  }

  /** Consecutive full pages meet: the next page starts where this one ends. */
  lemma PagesMeet(page: nat, count: nat)
    requires page >= 1 && End(page, count) < count
    ensures Start(page + 1) == End(page, count)
  {
  }
}
