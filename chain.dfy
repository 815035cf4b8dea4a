/**
 * The abstract read model of the project-tracker contract: what each read call
 * returns, or that it reverted. A key missing from a map is a reverted call.
 * Numeric fields the dashboard converts with toNumber are Uint53; amounts are
 * natural numbers of 18-decimal base units. Fields the dashboard tests for
 * presence are Option.
 */
module ChainModel {
  import opened Wrappers
  import opened JsValues
  import opened Text

  /** Seven days in seconds, the unit of the contract's timestamps. */
  const WEEK: nat := 7 * 24 * 60 * 60

  /** What a reverted read throws. */
  const REVERT: JsError := JsError(true, "call revert exception", "CALL_EXCEPTION")

  datatype Project = Project(
    name: string,
    description: string,
    budget: Option<nat>,
    spent: Option<nat>,
    government: string,
    isCompleted: bool,
    expenseCount: Option<Uint53>,
    milestoneCount: Option<Uint53>,
    lastUpdated: Option<Uint53>,
    createdAt: Option<Uint53>)

  datatype Milestone = Milestone(
    description: string,
    targetDate: Option<Uint53>,
    deadline: Option<Uint53>,
    isCompleted: bool,
    budget: Option<nat>,
    spent: Option<nat>,
    createdAt: Option<Uint53>)

  datatype Expense = Expense(
    description: string,
    amount: Option<nat>,
    timestamp: Option<Uint53>,
    proofIPFSHash: string,
    milestoneId: Option<Uint53>,
    isApproved: bool)

  /** A null entry in a returned expense list is None. */
  type ExpenseList = seq<Option<Expense>>

  datatype Chain = Chain(
    projectCount: Option<Uint53>,
    projects: map<nat, Project>,
    milestones: map<(nat, nat), Milestone>,
    expenseLists: map<(nat, nat), ExpenseList>)

  /** getProject(id) (also the public `projects(id)` getter); None when the call reverts. */
  function GetProject(c: Chain, id: nat): Option<Project> {
    if id in c.projects then Some(c.projects[id]) else None
  }

  /** getMilestone(projectId, milestoneId); None when the call reverts. */
  function GetMilestone(c: Chain, projectId: nat, milestoneId: nat): Option<Milestone> {
    if (projectId, milestoneId) in c.milestones then Some(c.milestones[(projectId, milestoneId)]) else None
  }

  /** getExpensesByMilestone(projectId, milestoneId); None when the call reverts. */
  function GetExpensesByMilestone(c: Chain, projectId: nat, milestoneId: nat): Option<ExpenseList> {
    if (projectId, milestoneId) in c.expenseLists then Some(c.expenseLists[(projectId, milestoneId)]) else None
  }

  /** The pages' label for a project: its name, or "Project <id>" when the name is empty. */
  function ProjectLabel(p: Project, id: nat): string {
    if p.name != "" then p.name else "Project " + NatToDigits(id)
  }
}
