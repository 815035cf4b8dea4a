/**
 * The add-expense form of one project: the open (not completed) milestones
 * to choose from, the proof-file check, and the submission, which checks the
 * amount against the chosen milestone's remaining budget before sending
 * addExpense. The milestone id sent is the choice's position in the list of
 * open milestones, not the milestone's index in the contract.
 */
module AddExpense {
  import opened Wrappers
  import opened JsValues
  import opened Ether
  import opened ChainModel
  import opened Seqs
  import ContractHook

  const MAX_FILE_SIZE: nat := 10 * 1024 * 1024
  const ALLOWED_FILE_TYPES: seq<string> := ["application/pdf", "image/jpeg", "image/png"]
  const BAD_TYPE: string := "Invalid file type. Please upload a PDF, JPEG, or PNG file."
  const TOO_LARGE: string := "File size too large. Maximum size is 10MB."
  const LOAD_FAILED: string := "Error loading milestones. Please try again."
  const NOT_POSITIVE: string := "Amount must be greater than 0"
  const OVER_BUDGET: string := "Expense amount exceeds milestone remaining budget"
  const PROCESSING: string := "Processing transaction..."
  const ADDED: string := "Expense added successfully!"
  const ADD_FAILED: string := "Error adding expense. Please try again."
  const PROOF_PLACEHOLDER: string := "proof-placeholder"

  /** What `undefined.sub(...)` throws when a milestone has no budget. */
  const SUB_FAULT: JsError := JsError(true, "Cannot read properties of undefined (reading 'sub')", "")

  /** An open milestone as the form keeps it. */
  datatype OpenMilestone = OpenMilestone(
    description: string, targetDate: Option<Uint53>, isCompleted: bool, budget: Option<nat>, spent: Option<nat>)

  /** The chosen proof file: its MIME type and size in bytes. */
  datatype ProofFile = ProofFile(mimeType: string, size: nat)

  /** The addExpense call: project, description, amount in wei, proof, milestone id. */
  datatype AddExpenseCall = AddExpenseCall(
    projectId: nat, description: string, wei: int, proof: string, milestoneId: nat)

  function Keep(m: Milestone): OpenMilestone {
    OpenMilestone(m.description, m.targetDate, m.isCompleted, m.budget, m.spent)
  }

  /** Milestone i when it loads and is not completed. */
  function OpenItems(c: Chain, pid: nat, i: nat): seq<OpenMilestone> {
    match GetMilestone(c, pid, i)
    case None => []
    case Some(m) => if m.isCompleted then [] else [Keep(m)]
  }

  /** The open milestones among 0..n-1, in index order. */
  function OpenMilestones(c: Chain, pid: nat, n: nat): seq<OpenMilestone> {
    if n == 0 then [] else OpenMilestones(c, pid, n - 1) + OpenItems(c, pid, n - 1)
  }

  /** The contract indices of those milestones, in the same order. */
  function OpenIds(c: Chain, pid: nat, n: nat): seq<nat> {
    if n == 0 then []
    else OpenIds(c, pid, n - 1) + (if |OpenItems(c, pid, n - 1)| == 1 then [n - 1] else [])
  }

  /** The loop of loadMilestones: a milestone that fails to load is skipped. */
  method CollectOpen(c: Chain, pid: nat, count: nat) returns (list: seq<OpenMilestone>)
    ensures list == OpenMilestones(c, pid, count)
  {
    list := [];
    var i := 0;
    while i < count
      invariant 0 <= i <= count
      invariant list == OpenMilestones(c, pid, i)
    {
      var m := GetMilestone(c, pid, i);
      if m.Some? && !m.value.isCompleted {
        list := list + [Keep(m.value)];
      } else {
        assert OpenItems(c, pid, i) == [];
      }
      i := i + 1;
    }
  }

  /** validateFile: None when the file is accepted, else the message; the type is checked first. */
  function FileCheck(f: ProofFile): (r: Option<string>)
    ensures r.None? <==> f.mimeType in ALLOWED_FILE_TYPES && f.size <= MAX_FILE_SIZE
    ensures f.mimeType !in ALLOWED_FILE_TYPES ==> r == Some(BAD_TYPE)
    ensures f.mimeType in ALLOWED_FILE_TYPES && f.size > MAX_FILE_SIZE ==> r == Some(TOO_LARGE)
  {
    if f.mimeType !in ALLOWED_FILE_TYPES then Some(BAD_TYPE)
    else if f.size > MAX_FILE_SIZE then Some(TOO_LARGE)
    else None
  }

  /**
   * The checks of handleSubmit before the call, in their order: the amount
   * must not read as a number <= 0; budget.sub(spent) throws on a missing
   * field; parseEther must accept the amount; the amount must not exceed
   * the remaining budget. The result is the amount in wei, or what was thrown.
   */
  function SubmitCheck(amount: string, m: OpenMilestone): Result<int, JsError> {
    if ParsesNonPositive(amount) then Failure(JsError(true, NOT_POSITIVE, ""))
    else if m.budget.None? then Failure(SUB_FAULT)
    else if m.spent.None? then Failure(FORMAT_FAULT)
    else match ParseEther(amount)
      case None => Failure(DECIMAL_FAULT)
      case Some(wei) =>
        if wei > m.budget.value - m.spent.value then Failure(JsError(true, OVER_BUDGET, ""))
        else Success(wei)
  }

  class AddExpenseForm {
    const projectId: nat
    var description: string
    var amount: string
    var file: Option<ProofFile>
    var loading: bool
    var error: Option<string>
    var fileError: Option<string>
    var milestones: seq<OpenMilestone>
    var selected: nat
    var loadingMilestones: bool

    /** The selection always names a listed milestone once there is one. */
    ghost predicate Valid()
      reads this
    {
      milestones != [] ==> selected < |milestones|
    }

    constructor (projectId: nat)
      ensures Valid()
      ensures this.projectId == projectId && description == "" && amount == "" && file == None
      ensures !loading && error == None && fileError == None && milestones == [] && selected == 0 && !loadingMilestones
    {
      this.projectId := projectId;
      description := "";
      amount := "";
      file := None;
      loading := false;
      error := None;
      fileError := None;
      milestones := [];
      selected := 0;
      loadingMilestones := false;
    }

    /**
     * loadMilestones: the open milestones of the project, the first one
     * selected; a failed getProject or a missing milestoneCount sets the
     * error and keeps the list.
     */
    method LoadMilestones(hasContract: bool, c: Chain)
      requires Valid()
      modifies this
      ensures Valid()
      ensures description == old(description) && amount == old(amount) && file == old(file)
      ensures loading == old(loading) && fileError == old(fileError)
      ensures !hasContract ==> milestones == old(milestones) && selected == old(selected)
                               && error == old(error) && loadingMilestones == old(loadingMilestones)
      ensures hasContract ==> !loadingMilestones
      ensures hasContract && (GetProject(c, projectId).None? || GetProject(c, projectId).value.milestoneCount.None?) ==>
        milestones == old(milestones) && selected == old(selected) && error == Some(LOAD_FAILED)
      ensures hasContract && GetProject(c, projectId).Some? && GetProject(c, projectId).value.milestoneCount.Some? ==>
        var open := OpenMilestones(c, projectId, GetProject(c, projectId).value.milestoneCount.value);
        && milestones == open && error == old(error)
        && selected == if open != [] then 0 else old(selected)
    {
      if !hasContract {
        return;
      }
      loadingMilestones := true;
      var project := GetProject(c, projectId);
      if project.None? || project.value.milestoneCount.None? {
        error := Some(LOAD_FAILED);
        loadingMilestones := false;
        return;
      }
      var loaded := CollectOpen(c, projectId, project.value.milestoneCount.value);
      milestones := loaded;
      if |loaded| > 0 {
        selected := 0;
      }
      loadingMilestones := false;
    }

    /** The milestone dropdown: picks a listed milestone by its position. */
    method Select(index: nat)
      requires Valid() && index < |milestones|
      modifies this
      ensures Valid() && selected == index
      ensures milestones == old(milestones) && error == old(error) && file == old(file) && amount == old(amount)
    {
      selected := index;
    }

    /** handleFileChange: an accepted file is kept, a refused one clears the file and says why. */
    method FileChange(chosen: Option<ProofFile>)
      requires Valid()
      modifies this
      ensures Valid()
      ensures milestones == old(milestones) && selected == old(selected) && error == old(error)
      ensures amount == old(amount) && description == old(description)
      ensures chosen.None? ==> file == old(file) && fileError == None
      ensures chosen.Some? ==> fileError == FileCheck(chosen.value)
      ensures chosen.Some? ==> file == if FileCheck(chosen.value).None? then chosen else None
    {
      fileError := None;
      if chosen.Some? {
        var check := FileCheck(chosen.value);
        fileError := check;
        if check.None? {
          file := chosen;
        } else {
          file := None;
        }
      }
    }

    /**
     * handleSubmit, with tx the fate of the addExpense transaction. Returns
     * the call made, if any, and whether onExpenseAdded ran.
     */
    method HandleSubmit(hasContract: bool, tx: ContractHook.TxOutcome) returns (call: Option<AddExpenseCall>, notified: bool)
      requires Valid()
      modifies this
      ensures Valid()
      ensures milestones == old(milestones) && selected == old(selected) && fileError == old(fileError)
      ensures !hasContract || old(file).None? || old(milestones) == [] ==>
        call == None && !notified && loading == old(loading) && error == old(error)
        && description == old(description) && amount == old(amount) && file == old(file)
      ensures hasContract && old(file).Some? && old(milestones) != [] ==>
        var check := SubmitCheck(old(amount), old(milestones)[old(selected)]);
        && !loading
        && (call.Some? <==> check.Success?)
        && (check.Success? ==>
              call == Some(AddExpenseCall(projectId, old(description), check.value, PROOF_PLACEHOLDER, old(selected))))
        && (check.Failure? ==> error == Some(MessageOr(check.error, ADD_FAILED)))
        && (notified <==> call.Some? && tx.sent.Success? && tx.mined.Success?)
        && (notified ==> error == Some(ADDED) && description == "" && amount == "" && file == None)
        && (!notified ==> description == old(description) && amount == old(amount) && file == old(file))
        && (call.Some? && tx.sent.Failure? ==> error == Some(MessageOr(tx.sent.error, ADD_FAILED)))
        && (call.Some? && tx.sent.Success? && tx.mined.Failure? ==> error == Some(MessageOr(tx.mined.error, ADD_FAILED)))
    {
      call := None;
      notified := false;
      if !hasContract || file.None? || |milestones| == 0 {
        return;
      }
      loading := true;
      error := None;
      var check := SubmitCheck(amount, milestones[selected]);
      if check.Failure? {
        error := Some(MessageOr(check.error, ADD_FAILED));
        loading := false;
        return;
      }
      error := Some(PROCESSING);
      call := Some(AddExpenseCall(projectId, description, check.value, PROOF_PLACEHOLDER, selected));
      if tx.sent.Failure? {
        error := Some(MessageOr(tx.sent.error, ADD_FAILED));
        loading := false;
        return;
      }
      if tx.mined.Failure? {
        error := Some(MessageOr(tx.mined.error, ADD_FAILED));
        loading := false;
        return;
      }
      description := "";
      amount := "";
      file := None;
      notified := true;
      error := Some(ADDED);
      loading := false;
    }
  }

  // ---------------------------------------------------------------------
  // What the form promises.

  /** An amount passes exactly when it reads as positive or not at all, parses, and fits the remaining budget. */
  lemma SubmitCheckMeans(amount: string, m: OpenMilestone)
    ensures SubmitCheck(amount, m).Success? <==>
      && !ParsesNonPositive(amount)
      && m.budget.Some? && m.spent.Some?
      && ParseEther(amount).Some?
      && ParseEther(amount).value <= m.budget.value - m.spent.value
    ensures SubmitCheck(amount, m).Success? ==> SubmitCheck(amount, m).value == ParseEther(amount).value
  {
  }

  /** The positions and the contract indices of the open milestones line up, one for one. */
  lemma {:induction false} OpenIdsLineUp(c: Chain, pid: nat, n: nat)
    ensures |OpenIds(c, pid, n)| == |OpenMilestones(c, pid, n)|
    ensures forall k :: 0 <= k < |OpenIds(c, pid, n)| ==>
      && OpenIds(c, pid, n)[k] < n
      && GetMilestone(c, pid, OpenIds(c, pid, n)[k]).Some?
      && !GetMilestone(c, pid, OpenIds(c, pid, n)[k]).value.isCompleted
      && OpenMilestones(c, pid, n)[k] == Keep(GetMilestone(c, pid, OpenIds(c, pid, n)[k]).value)
  {
    if n > 0 {
      OpenIdsLineUp(c, pid, n - 1);
    }
  }

  /** The contract indices are listed in increasing order. */
  lemma {:induction false} OpenIdsIncrease(c: Chain, pid: nat, n: nat)
    ensures forall k, l :: 0 <= k < l < |OpenIds(c, pid, n)| ==> OpenIds(c, pid, n)[k] < OpenIds(c, pid, n)[l]
    ensures forall k :: 0 <= k < |OpenIds(c, pid, n)| ==> OpenIds(c, pid, n)[k] < n
  {
    if n > 0 {
      OpenIdsIncrease(c, pid, n - 1);
    }
  }

  /** Every loaded, open milestone below n is listed. */
  lemma {:induction false} OpenIdsComplete(c: Chain, pid: nat, n: nat, i: nat)
    requires i < n && GetMilestone(c, pid, i).Some? && !GetMilestone(c, pid, i).value.isCompleted
    ensures i in OpenIds(c, pid, n)
  {
    if i < n - 1 {
      OpenIdsComplete(c, pid, n - 1, i);
    }
  }

  /**
   * The position sent as the milestone id is never above the contract index
   * of the milestone chosen, and equals it exactly when every milestone
   * before that one is listed, that is, loaded and open.
   */
  lemma PositionAtMostIndex(c: Chain, pid: nat, n: nat, k: nat)
    requires k < |OpenIds(c, pid, n)|
    ensures k <= OpenIds(c, pid, n)[k]
    ensures k == OpenIds(c, pid, n)[k] <==> forall i :: 0 <= i < OpenIds(c, pid, n)[k] ==> i in OpenIds(c, pid, n)
  {
    OpenIdsIncrease(c, pid, n);
    PositionAtMostValue(OpenIds(c, pid, n), k);
  }

  /** A completed first milestone: choosing the second sends id 0, which is not its contract index 1. */
  lemma SentIdCanDiffer()
    ensures var done := Milestone("design", None, None, true, Some(10), Some(10), None);
            var open := Milestone("build", None, None, false, Some(10), Some(0), None);
            var c := Chain(Some(1), map[], map[(0, 0) := done, (0, 1) := open], map[]);
            OpenMilestones(c, 0, 2) == [Keep(open)] && OpenIds(c, 0, 2) == [1]
  {
    var done := Milestone("design", None, None, true, Some(10), Some(10), None);
    var open := Milestone("build", None, None, false, Some(10), Some(0), None);
    var c := Chain(Some(1), map[], map[(0, 0) := done, (0, 1) := open], map[]);
    assert GetMilestone(c, 0, 0) == Some(done);
    assert GetMilestone(c, 0, 1) == Some(open);
    assert OpenItems(c, 0, 0) == [] && OpenItems(c, 0, 1) == [Keep(open)];
    assert OpenIds(c, 0, 0) == [] && |OpenItems(c, 0, 0)| == 0;
    assert OpenMilestones(c, 0, 1) == [];
    assert OpenIds(c, 0, 1) == OpenIds(c, 0, 0) + [];
  }
}
