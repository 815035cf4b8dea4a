/**
 * The contract hook: the contract handle rebuilt from the signer, the
 * guarded write operations and the shape of their results, and the guarded
 * reads. Transaction submission, mining and the contract's answers are
 * parameters.
 */
module ContractHook {
  import opened Wrappers
  import opened JsValues
  import opened Ether
  import Session

  const NOT_INITIALIZED: string := "Contract not initialized"
  const NO_CONTRACT_OR_ACCOUNT: string := "Contract not initialized or no account"
  const CHECK_ROLES_FALLBACK: string := "Error checking roles"
  const NOTIFICATIONS_FALLBACK: string := "Error getting notifications"
  const MARK_READ_FALLBACK: string := "Error marking notification as read"
  const EXPENSES_FALLBACK: string := "Error getting expenses by milestone"
  /** The message parseEther throws on text it cannot read (its exact wording is the library's). */
  const INVALID_DECIMAL: string := "invalid decimal value"
  /** The message BigNumber.toNumber throws past 2^53 (its exact wording is the library's). */
  const NUMERIC_OVERFLOW: string := "overflow"

  /** A contract object for the configured address, bound to a signer. */
  datatype HookContract = HookContract(signer: nat, address: string)

  class ContractHandleState {
    var contract: Option<HookContract>

    /** The handle exists only on a signer, and is bound to that signer. */
    predicate BoundTo(signer: Option<nat>)
      reads this
    {
      contract.Some? ==> signer.Some? && contract.value.signer == signer.value
    }

    constructor ()
      ensures contract == None
    {
      contract := None;
    }

    /**
     * The effect run whenever the signer changes. constructorThrows says
     * whether building the contract object threw.
     */
    method OnSignerChange(signer: Option<nat>, address: string, constructorThrows: bool)
      modifies this
      ensures BoundTo(signer)
      ensures contract.Some? <==> signer.Some? && address != "" && !constructorThrows
      ensures contract.Some? ==> contract.value.address == address
    {
      if signer.Some? && address != "" {
        if constructorThrows {
          contract := None;
        } else {
          contract := Some(HookContract(signer.value, address));
        }
      } else {
        contract := None;
      }
    }
  }

  /** The hook's own role record (hasAdmin..hasAuditor). */
  datatype UserRoles = UserRoles(hasAdmin: bool, hasDefaultAdmin: bool, hasGovernment: bool, hasAuditor: bool)

  /** checkRoles: no contract is an error, and a failed query is rethrown rather than read as no roles. */
  function CheckRoles(hasContract: bool, answer: Session.RoleAnswer): (r: Result<UserRoles, string>)
    ensures !hasContract ==> r == Failure(NOT_INITIALIZED)
    ensures hasContract && answer.Failure? ==> r == Failure(MessageOr(answer.error, CHECK_ROLES_FALLBACK))
    ensures r.Success? <==> hasContract && answer.Success?
    ensures r.Success? ==>
      var res := answer.value;
      r.value == UserRoles(res.0, res.1, res.2, res.3)
  {
    if !hasContract then Failure(NOT_INITIALIZED)
    else match answer
      case Failure(e) => Failure(MessageOr(e, CHECK_ROLES_FALLBACK))
      case Success(res) => Success(UserRoles(res.0, res.1, res.2, res.3))
  }

  /** The hook and the session store read the same answer the same way; only failure differs. */
  lemma CheckRolesAgreesWithSession(answer: Session.RoleAnswer)
    ensures answer.Success? ==>
      var s := Session.RolesAfter(answer);
      CheckRoles(true, answer) == Success(UserRoles(s.isAdmin, s.isDefaultAdmin, s.isGovernment, s.isAuditor))
    ensures answer.Failure? ==> CheckRoles(true, answer).Failure? && Session.RolesAfter(answer) == Session.NO_ROLES
  {
  }

  /** The five write operations with their arguments; amounts are decimal ether text. */
  datatype WriteOp =
    | CreateProject(name: string, description: string, budget: string)
    | AddMilestone(projectId: int, description: string, targetDate: int, budget: string)
    | AddExpense(projectId: int, description: string, amount: string, proofIPFSHash: string, milestoneId: int)
    | CompleteMilestone(projectId: int, milestoneId: int)
    | CompleteProject(projectId: int)

  function GuardMessage(op: WriteOp): string {
    match op
    case CreateProject(_, _, _) => "Only government role can create projects"
    case AddMilestone(_, _, _, _) => "Only government role can add milestones"
    case AddExpense(_, _, _, _, _) => "Only government role can add expenses"
    case CompleteMilestone(_, _) => "Only government role can complete milestones"
    case CompleteProject(_) => "Only government role can complete projects"
  }

  function FailureFallback(op: WriteOp): string {
    match op
    case CreateProject(_, _, _) => "Error creating project"
    case AddMilestone(_, _, _, _) => "Error adding milestone"
    case AddExpense(_, _, _, _, _) => "Error adding expense"
    case CompleteMilestone(_, _) => "Error completing milestone"
    case CompleteProject(_) => "Error completing project"
  }

  function EventName(op: WriteOp): string {
    match op
    case CreateProject(_, _, _) => "ProjectCreated"
    case AddMilestone(_, _, _, _) => "MilestoneAdded"
    case AddExpense(_, _, _, _, _) => "ExpenseAdded"
    case CompleteMilestone(_, _) => "MilestoneCompleted"
    case CompleteProject(_) => "ProjectCompleted"
  }

  /** Which event argument carries the new id; completions return none. */
  function IdArgument(op: WriteOp): Option<nat> {
    match op
    case CreateProject(_, _, _) => Some(0)
    case AddMilestone(_, _, _, _) => Some(1)
    case AddExpense(_, _, _, _, _) => Some(1)
    case CompleteMilestone(_, _) => None
    case CompleteProject(_) => None
  }

  /** The ether text an operation converts with parseEther, if any. */
  function AmountText(op: WriteOp): Option<string> {
    match op
    case CreateProject(_, _, budget) => Some(budget)
    case AddMilestone(_, _, _, budget) => Some(budget)
    case AddExpense(_, _, amount, _, _) => Some(amount)
    case CompleteMilestone(_, _) => None
    case CompleteProject(_) => None
  }

  /** An emitted event: its name and its (BigNumber) arguments. */
  datatype Event = Event(name: string, args: seq<int>)

  /**
   * A transaction's fate: the hash, or what sending threw; then the
   * receipt's events (None when the receipt has no events), or what
   * waiting threw.
   */
  datatype TxOutcome = TxOutcome(sent: Result<string, JsError>, mined: Result<Option<seq<Event>>, JsError>)

  /** The contract call made: the operation and its amount in wei. */
  datatype WriteCall = WriteCall(op: WriteOp, wei: Option<int>)

  datatype WriteResult = WriteResult(hash: string, id: Option<int>)

  /** What an operation returned or threw, and the contract call it made, if any. */
  datatype Attempt<T> = Attempt(result: Result<T, string>, call: Option<WriteCall>)

  /** `receipt.events?.find(e => e.event === name)` */
  function FindEvent(events: seq<Event>, name: string): (r: Option<Event>)
    ensures r.None? <==> forall i :: 0 <= i < |events| ==> events[i].name != name
    ensures r.Some? ==> exists i :: 0 <= i < |events| && events[i] == r.value && r.value.name == name
                                   && forall j :: 0 <= j < i ==> events[j].name != name
  {
    if |events| == 0 then None
    else if events[0].name == name then Some(events[0])
    else
      var r := FindEvent(events[1..], name);
      assert forall i :: 1 <= i < |events| ==> events[i] == events[1..][i - 1];
      if r.Some? then
        ghost var k :| 0 <= k < |events| - 1 && events[1..][k] == r.value && r.value.name == name
                       && forall j :: 0 <= j < k ==> events[1..][j].name != name;
        assert events[k + 1] == r.value;
        r
      else r
  }

  /** The id the receipt carries for op, when its event and argument are present. */
  function EventArgument(op: WriteOp, events: Option<seq<Event>>): Option<int> {
    if IdArgument(op).None? || events.None? then None
    else match FindEvent(events.value, EventName(op))
      case None => None
      case Some(ev) => if IdArgument(op).value < |ev.args| then Some(ev.args[IdArgument(op).value]) else None
  }

  /**
   * From sending the transaction to the shaped result, inside the operation's
   * try/catch: whatever sending or waiting throws comes back as its message or
   * the operation's fallback; a mined receipt gives the hash, with the id when
   * the event argument is there and toNumber can convert it.
   */
  function Settle(op: WriteOp, tx: TxOutcome): (r: Result<WriteResult, string>)
    ensures tx.sent.Failure? ==> r == Failure(MessageOr(tx.sent.error, FailureFallback(op)))
    ensures tx.sent.Success? && tx.mined.Failure? ==> r == Failure(MessageOr(tx.mined.error, FailureFallback(op)))
    ensures tx.sent.Success? && tx.mined.Success? ==>
      var arg := EventArgument(op, tx.mined.value);
      && (arg.None? ==> r == Success(WriteResult(tx.sent.value, None)))
      && (arg.Some? && -(MAX_SAFE as int) < arg.value < MAX_SAFE ==> r == Success(WriteResult(tx.sent.value, Some(arg.value))))
      && (arg.Some? && !(-(MAX_SAFE as int) < arg.value < MAX_SAFE) ==> r == Failure(NUMERIC_OVERFLOW))
  {
    match tx.sent
    case Failure(e) => Failure(MessageOr(e, FailureFallback(op)))
    case Success(hash) =>
      match tx.mined
      case Failure(e) => Failure(MessageOr(e, FailureFallback(op)))
      case Success(events) =>
        match EventArgument(op, events)
        case None => Success(WriteResult(hash, None))
        case Some(arg) =>
          match BigToNumber(arg)
          case None => Failure(NUMERIC_OVERFLOW)
          case Some(n) => Success(WriteResult(hash, Some(n)))
  }

  /** A write operation: contract check, then role check, then the call and its receipt. */
  function Write(op: WriteOp, hasContract: bool, isGovernment: bool, tx: TxOutcome): (a: Attempt<WriteResult>)
    // the two guards come first, in this order, and no call is made past a failed one
    ensures !hasContract ==> a == Attempt(Failure(NOT_INITIALIZED), None)
    ensures hasContract && !isGovernment ==> a == Attempt(Failure(GuardMessage(op)), None)
    ensures a.call.Some? ==> hasContract && isGovernment && a.call.value.op == op
    // the amount is sent in wei
    ensures a.call.Some? && AmountText(op).Some? ==> a.call.value.wei == ParseEther(AmountText(op).value)
    ensures hasContract && isGovernment && AmountText(op).Some? && ParseEther(AmountText(op).value).None? ==>
      a == Attempt(Failure(INVALID_DECIMAL), None)
    // success carries the transaction hash
    ensures a.result.Success? ==> a.call.Some? && tx.sent == Success(a.result.value.hash) && tx.mined.Success?
    // completions never return an id; creations return the event's argument when present
    ensures a.result.Success? && IdArgument(op).None? ==> a.result.value.id == None
    ensures a.result.Success? ==> a.result.value.id == EventArgument(op, tx.mined.value)
    ensures a.call.Some? && tx.sent.Failure? ==> a.result == Failure(MessageOr(tx.sent.error, FailureFallback(op)))
    // past the guards and a readable amount, the call is made and settled
    ensures hasContract && isGovernment && (AmountText(op).None? || ParseEther(AmountText(op).value).Some?) ==>
      && a.call == Some(WriteCall(op, if AmountText(op).Some? then ParseEther(AmountText(op).value) else None))
      && a.result == Settle(op, tx)
  {
    if !hasContract then Attempt(Failure(NOT_INITIALIZED), None)
    else if !isGovernment then Attempt(Failure(GuardMessage(op)), None)
    else if AmountText(op).Some? && ParseEther(AmountText(op).value).None? then
      Attempt(Failure(INVALID_DECIMAL), None)
    else
      var wei := if AmountText(op).Some? then ParseEther(AmountText(op).value) else None;
      Attempt(Settle(op, tx), Some(WriteCall(op, wei)))
  }

  /**
   * createProject returns args[0] of the first ProjectCreated event in the
   * receipt, wherever it stands among the events, as projectId.
   */
  lemma CreateProjectId(name: string, description: string, budget: string, hash: string, events: seq<Event>, k: nat)
    requires ParseEther(budget).Some?
    requires k < |events| && events[k].name == "ProjectCreated" && |events[k].args| > 0
    requires forall j :: 0 <= j < k ==> events[j].name != "ProjectCreated"
    requires 0 <= events[k].args[0] < MAX_SAFE
    ensures Write(CreateProject(name, description, budget), true, true, TxOutcome(Success(hash), Success(Some(events))))
      == Attempt(Success(WriteResult(hash, Some(events[k].args[0]))),
                 Some(WriteCall(CreateProject(name, description, budget), ParseEther(budget))))
  {
    FirstMatch(events, "ProjectCreated", k);
  }

  /** An id argument at or past 2^53 makes toNumber throw, and the write fails with that after mining. */
  lemma CreateProjectOverflow(name: string, description: string, budget: string, hash: string, events: seq<Event>, k: nat)
    requires ParseEther(budget).Some?
    requires k < |events| && events[k].name == "ProjectCreated" && |events[k].args| > 0
    requires forall j :: 0 <= j < k ==> events[j].name != "ProjectCreated"
    requires events[k].args[0] >= MAX_SAFE
    ensures Write(CreateProject(name, description, budget), true, true, TxOutcome(Success(hash), Success(Some(events))))
      == Attempt(Failure(NUMERIC_OVERFLOW), Some(WriteCall(CreateProject(name, description, budget), ParseEther(budget))))
  {
    FirstMatch(events, "ProjectCreated", k);
  }

  /** The find returns the first event with the name. */
  lemma FirstMatch(events: seq<Event>, name: string, k: nat)
    requires k < |events| && events[k].name == name
    requires forall j :: 0 <= j < k ==> events[j].name != name
    ensures FindEvent(events, name) == Some(events[k])
  {
    var r := FindEvent(events, name);
    assert r.Some?;
    var i :| 0 <= i < |events| && events[i] == r.value && r.value.name == name
             && forall j :: 0 <= j < i ==> events[j].name != name;
    // neither i < k (events[i] matches) nor k < i (events[k] matches) can hold
    assert i == k;
  }

  /** getNotifications: needs the contract and an account; no role is checked. */
  function GetNotifications<T>(hasContract: bool, account: Option<string>, answer: Result<T, JsError>): (r: Result<T, string>)
    ensures !hasContract || account.None? || account.value == "" ==> r == Failure(NO_CONTRACT_OR_ACCOUNT)
    ensures r.Success? <==> hasContract && account.Some? && account.value != "" && answer.Success?
    ensures r.Success? ==> r.value == answer.value
    ensures hasContract && account.Some? && account.value != "" && answer.Failure? ==>
      r == Failure(MessageOr(answer.error, NOTIFICATIONS_FALLBACK))
  {
    if !hasContract || account.None? || account.value == "" then Failure(NO_CONTRACT_OR_ACCOUNT)
    else match answer
      case Failure(e) => Failure(MessageOr(e, NOTIFICATIONS_FALLBACK))
      case Success(v) => Success(v)
  }

  /** markNotificationAsRead: needs only the contract; returns the hash once mined. */
  function MarkNotificationAsRead(hasContract: bool, tx: TxOutcome): (r: Result<string, string>)
    ensures !hasContract ==> r == Failure(NOT_INITIALIZED)
    ensures r.Success? <==> hasContract && tx.sent.Success? && tx.mined.Success?
    ensures r.Success? ==> r.value == tx.sent.value
  {
    if !hasContract then Failure(NOT_INITIALIZED)
    else match tx.sent
      case Failure(e) => Failure(MessageOr(e, MARK_READ_FALLBACK))
      case Success(hash) =>
        match tx.mined
        case Failure(e) => Failure(MessageOr(e, MARK_READ_FALLBACK))
        case Success(_) => Success(hash)
  }

  /** getExpensesByMilestone: needs only the contract; a failed query is rethrown. */
  function GetExpensesByMilestone<T>(hasContract: bool, answer: Result<T, JsError>): (r: Result<T, string>)
    ensures !hasContract ==> r == Failure(NOT_INITIALIZED)
    ensures r.Success? <==> hasContract && answer.Success?
    ensures r.Success? ==> r.value == answer.value
    ensures hasContract && answer.Failure? ==> r == Failure(MessageOr(answer.error, EXPENSES_FALLBACK))
  {
    if !hasContract then Failure(NOT_INITIALIZED)
    else match answer
      case Failure(e) => Failure(MessageOr(e, EXPENSES_FALLBACK))
      case Success(v) => Success(v)
  }
}
