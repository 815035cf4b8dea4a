/**
 * The create-project page: who may stay on it, the form's fields, and the
 * submission, which checks name, description and budget in that order before
 * sending createProject with the budget in wei, then moves to the project list.
 */
module CreateProject {
  import opened Wrappers
  import opened JsValues
  import opened Text
  import opened Ether
  import ContractHook

  const NAME_REQUIRED: string := "Project name is required"
  const DESCRIPTION_REQUIRED: string := "Project description is required"
  const BUDGET_NOT_POSITIVE: string := "Budget must be greater than 0"
  const CREATE_FAILED: string := "Error creating project. Please try again."
  const HOME: string := "/"
  const DASHBOARD: string := "/dashboard"
  const PROJECTS: string := "/projects"

  datatype Form = Form(name: string, description: string, budget: string)

  /** The inputs of the form, by their `name` attribute. */
  datatype Field = Name | Description | Budget

  /** The createProject call: name, description and budget in wei. */
  datatype CreateCall = CreateCall(name: string, description: string, wei: int)

  /** The account is falsy when it is missing or the empty string. */
  predicate NoAccount(account: Option<string>) {
    account.None? || account.value == ""
  }

  /** The redirect effect: home without a (truthy) account, the dashboard for a non-government account. */
  function Redirect(account: Option<string>, isGovernment: bool): (r: Option<string>)
    ensures r.None? <==> account.Some? && account.value != "" && isGovernment
    ensures account.None? || account.value == "" ==> r == Some(HOME)
    ensures account.Some? && account.value != "" && !isGovernment ==> r == Some(DASHBOARD)
  {
    if NoAccount(account) then Some(HOME)
    else if !isGovernment then Some(DASHBOARD)
    else None
  }

  /** handleChange: the named field takes the typed value. */
  function Change(f: Form, field: Field, value: string): Form {
    match field
    case Name => f.(name := value)
    case Description => f.(description := value)
    case Budget => f.(budget := value)
  }

  function Get(f: Form, field: Field): string {
    match field
    case Name => f.name
    case Description => f.description
    case Budget => f.budget
  }

  /**
   * The checks of handleSubmit before the call, in their order, then
   * parseEther on the budget inside the call's arguments. The result is the
   * budget in wei, or what was thrown.
   */
  function CreateCheck(f: Form): Result<int, JsError> {
    if IsBlank(f.name) then Failure(JsError(true, NAME_REQUIRED, ""))
    else if IsBlank(f.description) then Failure(JsError(true, DESCRIPTION_REQUIRED, ""))
    else if f.budget == "" || ParsesNonPositive(f.budget) then Failure(JsError(true, BUDGET_NOT_POSITIVE, ""))
    else match ParseEther(f.budget)
      case None => Failure(DECIMAL_FAULT)
      case Some(wei) => Success(wei)
  }

  class CreateProjectPage {
    var form: Form
    var isLoading: bool
    var error: Option<string>

    constructor ()
      ensures form == Form("", "", "") && !isLoading && error == None
    {
      form := Form("", "", "");
      isLoading := false;
      error := None;
    }

    method HandleChange(field: Field, value: string)
      modifies this
      ensures form == Change(old(form), field, value)
      ensures isLoading == old(isLoading) && error == old(error)
    {
      match field
      case Name => form := form.(name := value);
      case Description => form := form.(description := value);
      case Budget => form := form.(budget := value);
    }

    /**
     * handleSubmit, with tx the fate of the createProject transaction.
     * Returns the call made, if any, and the page moved to, if any. The
     * name and description are sent as typed, untrimmed.
     */
    method HandleSubmit(hasContract: bool, tx: ContractHook.TxOutcome) returns (call: Option<CreateCall>, moved: Option<string>)
      modifies this
      ensures form == old(form)
      ensures !hasContract ==> call == None && moved == None && isLoading == old(isLoading) && error == old(error)
      ensures hasContract ==> !isLoading
      ensures hasContract ==>
        var check := CreateCheck(old(form));
        && (call.Some? <==> check.Success?)
        && (check.Success? ==> call == Some(CreateCall(old(form).name, old(form).description, check.value)))
        && (check.Failure? ==> error == Some(MessageOr(check.error, CREATE_FAILED)))
        && (moved.Some? <==> call.Some? && tx.sent.Success? && tx.mined.Success?)
        && (moved.Some? ==> moved == Some(PROJECTS) && error == None)
        && (call.Some? && tx.sent.Failure? ==> error == Some(MessageOr(tx.sent.error, CREATE_FAILED)))
        && (call.Some? && tx.sent.Success? && tx.mined.Failure? ==> error == Some(MessageOr(tx.mined.error, CREATE_FAILED)))
    {
      call := None;
      moved := None;
      if !hasContract {
        return;
      }
      isLoading := true;
      error := None;
      var check := CreateCheck(form);
      if check.Failure? {
        error := Some(MessageOr(check.error, CREATE_FAILED));
        isLoading := false;
        return;
      }
      call := Some(CreateCall(form.name, form.description, check.value));
      if tx.sent.Failure? {
        error := Some(MessageOr(tx.sent.error, CREATE_FAILED));
      } else if tx.mined.Failure? {
        error := Some(MessageOr(tx.mined.error, CREATE_FAILED));
      } else {
        moved := Some(PROJECTS);
      }
      isLoading := false;
    }
  }

  // ---------------------------------------------------------------------
  // What the form promises.

  /** A form passes exactly when name and description have non-space text and the budget parses as positive-looking ether. */
  lemma CreateCheckMeans(f: Form)
    ensures CreateCheck(f).Success? <==>
      && !IsBlank(f.name) && !IsBlank(f.description)
      && f.budget != "" && !ParsesNonPositive(f.budget)
      && ParseEther(f.budget).Some?
    ensures CreateCheck(f).Success? ==> CreateCheck(f).value == ParseEther(f.budget).value
  {
  }

  /** The first failed check decides the message: a blank name wins over everything else, and an empty or non-positive budget fails last. */
  lemma CheckOrder(f: Form)
    ensures IsBlank(f.name) ==> CreateCheck(f).Failure? && CreateCheck(f).error.message == NAME_REQUIRED
    ensures !IsBlank(f.name) && IsBlank(f.description) ==>
      CreateCheck(f).Failure? && CreateCheck(f).error.message == DESCRIPTION_REQUIRED
    ensures !IsBlank(f.name) && !IsBlank(f.description) && (f.budget == "" || ParsesNonPositive(f.budget)) ==>
      CreateCheck(f).Failure? && CreateCheck(f).error.message == BUDGET_NOT_POSITIVE
    ensures (!IsBlank(f.name) && !IsBlank(f.description) && f.budget != "" && !ParsesNonPositive(f.budget) &&
             ParseEther(f.budget).None?) ==> CreateCheck(f) == Failure(DECIMAL_FAULT)
  {
  }

  /** "1.5" ether is sent as 1.5 * 10^18 wei once name and description are filled in. */
  lemma OneAndAHalf(name: string, description: string)
    requires !IsBlank(name) && !IsBlank(description)
    ensures CreateCheck(Form(name, description, "1.5")) == Success(1_500_000_000_000_000_000)
  {
    OnePointFive();
    assert ParseFloatSign("1.5") == Positive by {
      assert SkipWhitespace("1.5") == "1.5";
      assert DigitPrefix("1.5") == "1" by {
        assert DigitPrefix(".5") == [];
      }
      assert "1.5"[1..] == ".5";
      assert DigitPrefix("5") == "5";
    }
  }

  /** Changing a field sets it and leaves the other two alone. */
  lemma ChangeOnlyField(f: Form, field: Field, value: string, other: Field)
    ensures Get(Change(f, field, value), field) == value
    ensures other != field ==> Get(Change(f, field, value), other) == Get(f, other)
  {
  }
}
