/**
 * The project detail panel: the defensive number conversion, the tree of a
 * project with its milestones and their expenses, the classification of load
 * errors, and the completion actions that reload the panel.
 */
module ProjectDetails {
  import opened Wrappers
  import opened JsValues
  import opened Ether
  import opened ChainModel
  import opened Seqs
  import ContractHook

  /**
   * safeToNumber: 0 for a falsy value, NaN or a thrown conversion; the value
   * of a BigNumber in range; Number(x) otherwise.
   */
  function SafeToNumber(v: JsValue): (n: int)
    ensures !Truthy(v) ==> n == 0
    ensures v.Big? && -(MAX_SAFE as int) < v.v < MAX_SAFE ==> n == v.v
    ensures v.Big? && !(-(MAX_SAFE as int) < v.v < MAX_SAFE) ==> n == 0
    ensures Truthy(v) && !v.Big? && NumberOf(v).Some? ==> n == NumberOf(v).value
    ensures Truthy(v) && NumberOf(v).None? ==> n == 0
  {
    if !Truthy(v) then 0
    else if v.Big? then BigToNumber(v.v).GetOr(0)
    else NumberOf(v).GetOr(0)
  }

  /** On a contract field, safeToNumber is the value when present and 0 when left out. */
  lemma SafeToNumberField(f: Option<Uint53>)
    ensures SafeToNumber(FieldValue(if f.Some? then Some(f.value as nat) else None)) == if f.Some? then f.value as int else 0
  {
  }

  function Count(f: Option<Uint53>): nat {
    if f.Some? then f.value as nat else 0
  }

  datatype DisplayExpense = DisplayExpense(
    description: string, amount: EtherText, timestamp: int, proofIPFSHash: string, milestoneId: int)

  datatype DisplayMilestone = DisplayMilestone(
    description: string, targetDate: int, isCompleted: bool, budget: EtherText, spent: EtherText,
    expenses: seq<DisplayExpense>)

  datatype DisplayProject = DisplayProject(
    name: string, description: string, budget: EtherText, spent: EtherText, government: string,
    isCompleted: bool, expenseCount: int, milestoneCount: int, lastUpdated: int,
    milestones: seq<DisplayMilestone>)

  /** One expense as shown: missing text is '', a missing amount is 0, missing numbers are 0. */
  function ExpenseRow(e: Expense): (d: DisplayExpense)
    ensures d.timestamp == Count(e.timestamp) && d.milestoneId == Count(e.milestoneId)
    ensures d.description == e.description && d.proofIPFSHash == e.proofIPFSHash
  {
    var amount := e.amount.GetOr(0);
    DisplayExpense(e.description, EtherText(amount),
                   SafeToNumber(FieldValue(if e.timestamp.Some? then Some(e.timestamp.value as nat) else None)),
                   e.proofIPFSHash,
                   SafeToNumber(FieldValue(if e.milestoneId.Some? then Some(e.milestoneId.value as nat) else None)))
  }

  /** Amounts are shown in ether, a missing one as 0: the text reads back as the base units. */
  lemma RowAmounts(e: Expense, m: Milestone, expenses: seq<DisplayExpense>)
    ensures ParseEther(ExpenseRow(e).amount.Text()) == Some(if e.amount.Some? then e.amount.value as int else 0)
    ensures ParseEther(MilestoneRow(m, expenses).budget.Text()) == Some(if m.budget.Some? then m.budget.value as int else 0)
    ensures ParseEther(MilestoneRow(m, expenses).spent.Text()) == Some(if m.spent.Some? then m.spent.value as int else 0)
  {
    FormatThenParse(e.amount.GetOr(0));
    FormatThenParse(m.budget.GetOr(0));
    FormatThenParse(m.spent.GetOr(0));
  }

  /** The expense list's map: a null entry throws, so the whole list fails. */
  function ExpenseRows(list: ExpenseList): (r: Option<seq<DisplayExpense>>)
    ensures r.Some? <==> forall i :: 0 <= i < |list| ==> list[i].Some?
    ensures r.Some? ==> |r.value| == |list| && forall i :: 0 <= i < |list| ==> r.value[i] == ExpenseRow(list[i].value)
  {
    if forall i :: 0 <= i < |list| ==> list[i].Some? then
      Some(seq(|list|, i requires 0 <= i < |list| && list[i].Some? => ExpenseRow(list[i].value)))
    else None
  }

  /** One milestone as shown, with its expenses. */
  function MilestoneRow(m: Milestone, expenses: seq<DisplayExpense>): (d: DisplayMilestone)
    ensures d.targetDate == Count(m.targetDate) && d.isCompleted == m.isCompleted
    ensures d.description == m.description && d.expenses == expenses
  {
    DisplayMilestone(m.description,
                     SafeToNumber(FieldValue(if m.targetDate.Some? then Some(m.targetDate.value as nat) else None)),
                     m.isCompleted, EtherText(m.budget.GetOr(0)), EtherText(m.spent.GetOr(0)), expenses)
  }

  /** Milestone i loads: its fetch and its expense list succeed and the list holds no null. */
  predicate Loads(c: Chain, projectId: nat, i: nat) {
    && GetMilestone(c, projectId, i).Some?
    && GetExpensesByMilestone(c, projectId, i).Some?
    && ExpenseRows(GetExpensesByMilestone(c, projectId, i).value).Some?
  }

  /** Milestone i's entry: none when its fetch, its expense list or the list's map fails. */
  function MilestoneEntry(c: Chain, projectId: nat, i: nat): (r: seq<DisplayMilestone>)
    ensures r == [] <==> !Loads(c, projectId, i)
    ensures Loads(c, projectId, i) ==>
      r == [MilestoneRow(GetMilestone(c, projectId, i).value,
                         ExpenseRows(GetExpensesByMilestone(c, projectId, i).value).value)]
  {
    match GetMilestone(c, projectId, i)
    case None => []
    case Some(m) =>
      match GetExpensesByMilestone(c, projectId, i)
      case None => []
      case Some(list) =>
        match ExpenseRows(list)
        case None => []
        case Some(rows) => [MilestoneRow(m, rows)]
  }

  /** The milestones for indices 0..n-1, in index order, failures skipped. */
  function DetailMilestones(c: Chain, projectId: nat, n: nat): seq<DisplayMilestone> {
    if n == 0 then [] else DetailMilestones(c, projectId, n - 1) + MilestoneEntry(c, projectId, n - 1)
  }

  /** The panel's project, or what stopped it loading. */
  function LoadDetails(c: Chain, projectId: nat): Result<DisplayProject, JsError> {
    match GetProject(c, projectId)
    case None => Failure(REVERT)
    case Some(p) =>
      match FormatField(p.budget)
      case Failure(e) => Failure(e)
      case Success(budget) =>
        match FormatField(p.spent)
        case Failure(e) => Failure(e)
        case Success(spent) =>
          Success(DisplayProject(p.name, p.description, budget, spent, p.government, p.isCompleted,
                                 Count(p.expenseCount), Count(p.milestoneCount), Count(p.lastUpdated),
                                 DetailMilestones(c, projectId, Count(p.milestoneCount))))
  }

  /** Never more milestones than the count. */
  lemma {:induction false} DetailMilestonesBound(c: Chain, projectId: nat, n: nat)
    ensures |DetailMilestones(c, projectId, n)| <= n
  {
    if n > 0 {
      DetailMilestonesBound(c, projectId, n - 1);
    }
  }

  /** Every milestone 0..n-1 and its expense list are fetched, and no list holds a null. */
  ghost predicate AllFetched(c: Chain, projectId: nat, n: nat) {
    forall i :: 0 <= i < n ==>
      && (projectId, i) in c.milestones
      && (projectId, i) in c.expenseLists
      && ExpenseRows(c.expenseLists[(projectId, i)]).Some?
  }

  /** When nothing fails, milestone i is shown at position i, with its full expense list. */
  lemma {:induction false} DetailMilestonesComplete(c: Chain, projectId: nat, n: nat)
    requires AllFetched(c, projectId, n)
    ensures |DetailMilestones(c, projectId, n)| == n
    ensures forall i :: 0 <= i < n ==>
      DetailMilestones(c, projectId, n)[i]
        == MilestoneRow(c.milestones[(projectId, i)], ExpenseRows(c.expenseLists[(projectId, i)]).value)
  {
    if n > 0 {
      assert AllFetched(c, projectId, n - 1);
      DetailMilestonesComplete(c, projectId, n - 1);
      var last := MilestoneRow(c.milestones[(projectId, n - 1)], ExpenseRows(c.expenseLists[(projectId, n - 1)]).value);
      assert MilestoneEntry(c, projectId, n - 1) == [last];
      var prev := DetailMilestones(c, projectId, n - 1);
      assert DetailMilestones(c, projectId, n) == prev + [last];
      forall i | 0 <= i < n
        ensures DetailMilestones(c, projectId, n)[i]
          == MilestoneRow(c.milestones[(projectId, i)], ExpenseRows(c.expenseLists[(projectId, i)]).value)
      {
        if i < n - 1 {
          assert (prev + [last])[i] == prev[i];
        }
      }
    }
  }

  /** The contract indices of the milestones shown, in the order shown. */
  function ShownIds(c: Chain, projectId: nat, n: nat): seq<nat> {
    if n == 0 then [] else ShownIds(c, projectId, n - 1) + (if Loads(c, projectId, n - 1) then [n - 1] else [])
  }

  /** Position k of the panel shows milestone ShownIds[k], built from its own fetch and expense list. */
  lemma {:induction false} ShownLineUp(c: Chain, projectId: nat, n: nat)
    ensures |ShownIds(c, projectId, n)| == |DetailMilestones(c, projectId, n)|
    ensures forall k :: 0 <= k < |ShownIds(c, projectId, n)| ==>
      var i := ShownIds(c, projectId, n)[k];
      && i < n && Loads(c, projectId, i)
      && DetailMilestones(c, projectId, n)[k]
         == MilestoneRow(GetMilestone(c, projectId, i).value, ExpenseRows(GetExpensesByMilestone(c, projectId, i).value).value)
  {
    if n > 0 {
      ShownLineUp(c, projectId, n - 1);
      var prev, ids := DetailMilestones(c, projectId, n - 1), ShownIds(c, projectId, n - 1);
      assert DetailMilestones(c, projectId, n) == prev + MilestoneEntry(c, projectId, n - 1);
      forall k | 0 <= k < |ids|
        ensures ShownIds(c, projectId, n)[k] == ids[k] && DetailMilestones(c, projectId, n)[k] == prev[k]
      {
      }
    }
  }

  /** The panel keeps index order. */
  lemma {:induction false} ShownIncrease(c: Chain, projectId: nat, n: nat)
    ensures Increasing(ShownIds(c, projectId, n))
    ensures forall k :: 0 <= k < |ShownIds(c, projectId, n)| ==> ShownIds(c, projectId, n)[k] < n
  {
    if n > 0 {
      ShownIncrease(c, projectId, n - 1);
    }
  }

  /** Milestone i below the count is shown exactly when it loads; a failure anywhere drops only that milestone. */
  lemma {:induction false} ShownMembers(c: Chain, projectId: nat, n: nat, i: nat)
    ensures i in ShownIds(c, projectId, n) <==> i < n && Loads(c, projectId, i)
  {
    if n > 0 {
      ShownMembers(c, projectId, n - 1, i);
    }
  }

  /** A milestone that fails to load, at any index below the count, is missing and leaves the panel shorter than the count. */
  lemma {:induction false} SkippedMilestone(c: Chain, projectId: nat, n: nat, i: nat)
    requires i < n && !Loads(c, projectId, i)
    ensures i !in ShownIds(c, projectId, n)
    ensures |DetailMilestones(c, projectId, n)| < n
  {
    ShownMembers(c, projectId, n, i);
    if i < n - 1 {
      SkippedMilestone(c, projectId, n - 1, i);
    } else {
      DetailMilestonesBound(c, projectId, n - 1);
    }
  }

  const NOT_INITIALIZED: string := "Contract not initialized"
  const NOT_FOUND: string := "Project not found or contract error. Please check if the project exists and you have the right permissions."
  const NETWORK: string := "Network error. Please check your connection and try again."
  const LOAD_FALLBACK: string := "Error loading project details. Please try again."

  /** The message shown for what stopped the load. */
  function ClassifyLoadError(e: JsError): (m: string)
    ensures e.code == "CALL_EXCEPTION" ==> m == NOT_FOUND
    ensures e.code == "NETWORK_ERROR" ==> m == NETWORK
    ensures e.code != "CALL_EXCEPTION" && e.code != "NETWORK_ERROR" ==> m == MessageOr(e, LOAD_FALLBACK)
  {
    if e.code == "CALL_EXCEPTION" then NOT_FOUND
    else if e.code == "NETWORK_ERROR" then NETWORK
    else MessageOr(e, LOAD_FALLBACK)
  }

  /** A project whose fetch reverts reads as not found. */
  lemma MissingProjectNotFound(c: Chain, projectId: nat)
    requires projectId !in c.projects
    ensures LoadDetails(c, projectId).Failure?
    ensures ClassifyLoadError(LoadDetails(c, projectId).error) == NOT_FOUND
  {
  }

  /** Completion controls show only for an incomplete item viewed by exactly the project's government account. */
  function ShowCompleteControls(isCompleted: bool, account: Option<string>, government: string): (show: bool)
    ensures show <==> !isCompleted && account == Some(government)
  {
    !isCompleted && account.Some? && account.value == government
  }

  /**
   * The milestone loop: getMilestone(projectId, i) for i = 0..count-1 in
   * order, skipping a milestone whose fetch, expense list or expense map
   * fails. Returns the milestones kept and the indices requested.
   */
  method FetchMilestones(c: Chain, projectId: nat, count: nat) returns (milestones: seq<DisplayMilestone>, requested: seq<nat>)
    ensures milestones == DetailMilestones(c, projectId, count)
    ensures requested == seq(count, i => i)
  {
    milestones, requested := [], [];
    var i := 0;
    while i < count
      invariant 0 <= i <= count
      invariant milestones == DetailMilestones(c, projectId, i)
      invariant requested == seq(i, k => k)
    {
      assert DetailMilestones(c, projectId, i + 1) == milestones + MilestoneEntry(c, projectId, i);
      assert requested + [i] == seq(i + 1, k => k);
      requested := requested + [i];
      var m := GetMilestone(c, projectId, i);
      if m.Some? {
        var list := GetExpensesByMilestone(c, projectId, i);
        if list.Some? {
          var rows := ExpenseRows(list.value);
          if rows.Some? {
            milestones := milestones + [MilestoneRow(m.value, rows.value)];
          }
        }
      }
      i := i + 1;
    }
  }

  class ProjectDetailsView {
    var project: Option<DisplayProject>
    var loading: bool
    var error: Option<string>
    var isSubmitting: bool

    constructor ()
      ensures project == None && loading && error == None && !isSubmitting
    {
      project := None;
      loading := true;
      error := None;
      isSubmitting := false;
    }

    /**
     * loadProjectDetails for projectId against the chain c. Returns the
     * milestone indices it requested, in order.
     */
    method LoadProjectDetails(hasContract: bool, c: Chain, projectId: nat) returns (requested: seq<nat>)
      modifies this`project, this`loading, this`error
      ensures !loading
      ensures !hasContract ==> error == Some(NOT_INITIALIZED) && project == old(project) && requested == []
      ensures hasContract && LoadDetails(c, projectId).Success? ==>
        && project == Some(LoadDetails(c, projectId).value) && error == None
        && requested == seq(LoadDetails(c, projectId).value.milestoneCount, i => i)
      ensures hasContract && LoadDetails(c, projectId).Failure? ==>
        && project == old(project) && error == Some(ClassifyLoadError(LoadDetails(c, projectId).error))
        && requested == []
    {
      requested := [];
      if !hasContract {
        error := Some(NOT_INITIALIZED);
        loading := false;
        return;
      }
      loading := true;
      error := None;

      var fetched := GetProject(c, projectId);
      if fetched.None? {
        error := Some(ClassifyLoadError(REVERT));
        loading := false;
        return;
      }
      var p := fetched.value;
      var count := SafeToNumber(FieldValue(if p.milestoneCount.Some? then Some(p.milestoneCount.value as nat) else None));
      var budget := FormatField(p.budget);
      var spent := FormatField(p.spent);
      if budget.Failure? || spent.Failure? {
        error := Some(ClassifyLoadError(if budget.Failure? then budget.error else spent.error));
        loading := false;
        return;
      }

      var milestones;
      milestones, requested := FetchMilestones(c, projectId, count);
      var shown := DisplayProject(p.name, p.description, budget.value, spent.value, p.government, p.isCompleted,
                                  Count(p.expenseCount), count, Count(p.lastUpdated), milestones);
      assert LoadDetails(c, projectId) == Success(shown);
      project := Some(shown);
      loading := false;
    }

    /**
     * handleComplete (target WholeProject) / handleCompleteMilestone
     * (target MilestoneAt(index), with index the milestone's position in the
     * panel): send the completion, wait, then reload from the chain as it now
     * stands. Returns the contract call made and whether it reloaded.
     */
    method Complete(hasContract: bool, target: Target, tx: ContractHook.TxOutcome, after: Chain, projectId: nat)
      returns (call: Option<ContractHook.WriteOp>, reloaded: bool)
      modifies this
      ensures !hasContract ==> call == None && !reloaded && project == old(project) && loading == old(loading)
                               && error == old(error) && isSubmitting == old(isSubmitting)
      ensures hasContract ==> call == Some(CompletionCall(target, projectId))
      ensures hasContract ==> !isSubmitting
      ensures hasContract ==> (reloaded <==> tx.sent.Success? && tx.mined.Success?)
      ensures reloaded ==> !loading
      ensures reloaded ==>
        (if LoadDetails(after, projectId).Success? then
           project == Some(LoadDetails(after, projectId).value) && error == None
         else
           project == old(project) && error == Some(ClassifyLoadError(LoadDetails(after, projectId).error)))
      ensures hasContract && !reloaded ==>
        var e := if tx.sent.Failure? then tx.sent.error else tx.mined.error;
        project == old(project) && loading == old(loading)
        && error == Some(MessageOr(e, CompletionFallback(target)))
    {
      call, reloaded := None, false;
      if !hasContract {
        return;
      }
      isSubmitting := true;
      error := None;
      call := Some(CompletionCall(target, projectId));
      if tx.sent.Failure? {
        error := Some(MessageOr(tx.sent.error, CompletionFallback(target)));
      } else if tx.mined.Failure? {
        error := Some(MessageOr(tx.mined.error, CompletionFallback(target)));
      } else {
        var _ := LoadProjectDetails(true, after, projectId);
        reloaded := true;
      }
      isSubmitting := false;
    }
  }

  /** What a completion button completes: the project, or the milestone at a position of the panel. */
  datatype Target = WholeProject | MilestoneAt(index: nat)

  /** The contract call: the milestone's panel position goes out as its milestone id. */
  function CompletionCall(target: Target, projectId: nat): ContractHook.WriteOp {
    match target
    case WholeProject => ContractHook.CompleteProject(projectId)
    case MilestoneAt(index) => ContractHook.CompleteMilestone(projectId, index)
  }

  function CompletionFallback(target: Target): string {
    if target.WholeProject? then "Error completing project. Please try again."
    else "Error completing milestone. Please try again."
  }

  /**
   * The milestone id sent for the milestone at panel position k is k, never
   * above its contract index, and equal to it exactly when every milestone
   * before it loaded.
   */
  lemma PositionAtMostIndex(c: Chain, projectId: nat, n: nat, k: nat)
    requires k < |ShownIds(c, projectId, n)|
    ensures CompletionCall(MilestoneAt(k), projectId).milestoneId == k <= ShownIds(c, projectId, n)[k]
    ensures k == ShownIds(c, projectId, n)[k] <==> forall i :: 0 <= i < ShownIds(c, projectId, n)[k] ==> Loads(c, projectId, i)
  {
    var ids := ShownIds(c, projectId, n);
    ShownIncrease(c, projectId, n);
    PositionAtMostValue(ids, k);
    forall i | 0 <= i < ids[k] ensures i in ids <==> Loads(c, projectId, i) {
      ShownMembers(c, projectId, n, i);
    }
  }

  /** Milestone 0's expense list reverts: milestone 1 is shown first, and completing it sends id 0. */
  lemma CompletedIdCanDiffer()
    ensures var m := Milestone("build", None, None, false, Some(10), Some(0), None);
            var c := Chain(Some(1), map[], map[(0, 0) := m, (0, 1) := m], map[(0, 1) := []]);
            && ShownIds(c, 0, 2) == [1]
            && |DetailMilestones(c, 0, 2)| == 1
            && CompletionCall(MilestoneAt(0), 0) == ContractHook.CompleteMilestone(0, 0)
  {
    var m := Milestone("build", None, None, false, Some(10), Some(0), None);
    var c := Chain(Some(1), map[], map[(0, 0) := m, (0, 1) := m], map[(0, 1) := []]);
    assert !Loads(c, 0, 0);
    assert Loads(c, 0, 1);
    assert ShownIds(c, 0, 1) == [];
    ShownLineUp(c, 0, 2);
  }
}
