# SafeChain dashboard, modelled in Dafny

SafeChain is a Next.js dashboard over a project-tracker smart contract. A
government account creates projects, adds milestones to them and records
expenses against the milestones. Auditors and administrators hold other roles.
This project models the dashboard's own logic with the contract replaced by an
abstract read model, and proves what that logic promises:

- **The wallet session store** (`Session.Web3Session`): connect, restore,
  account and chain changes, disconnect. Role refresh fails closed to no roles.
- **The contract hook** (`ContractHook`): the handle bound to the signer, the
  guards of the write operations, and how their results are shaped.
- **Guards and small rules**: role gating (`RoleGuard`), admin role
  assignment (`RoleManager`), and the navigation bar (`Navbar`).
- **The aggregation pages**: notifications, expenses, milestones, dashboard
  statistics, the project detail tree, the project listing, and the paginated
  project list. Each walks projects, then milestones, then expense lists. Each
  skips or aborts on failure in its own way, fills in defaults, and sorts.
- **The forms**: adding an expense, creating a project, and the filter bar.

The read model is `ChainModel.Chain`. A key absent from one of its maps is a
call that reverted. Fields the pages test for presence are `Option`. Numbers
the pages convert with `toNumber` are below 2^53. Amounts are natural numbers
of 18-decimal base units. Decimal ether text is `Ether.FormatEther` and
`Ether.ParseEther`, with a proved round trip. `Date.now`, wallet replies,
role-query answers and transaction outcomes are parameters.

The pages are loops that push into lists, so they are modelled as methods
with loop invariants. Each method is proved equal to a recursive
specification function. The properties are then proved about that function:
exactly which items appear, their defaults, their order, counts and sums.

The expense form sends the chosen milestone's position in the list of open
milestones as the milestone id, not the milestone's index in the contract.
The model keeps this as the code does. `AddExpense.PositionAtMostIndex` and
`AddExpense.SentIdCanDiffer` state when the two differ. The project panel's
complete-milestone button does the same with the milestone's position in the
panel, where unloadable milestones are skipped. `ProjectDetails.PositionAtMostIndex`
and `ProjectDetails.CompletedIdCanDiffer` state that case.

## Model

| member | source | states |
|---|---|---|
| Session.RolesOf | safechain/src/context/Web3Context.tsx:67-76 | results[0..3] become isAdmin, isDefaultAdmin, isGovernment, isAuditor in that order |
| Session.DecodeEncodeRoles | safechain/src/context/Web3Context.tsx:77 | the roles JSON stored under 'userRoles' reads back as the roles stored |
| Session.Web3Session.constructor | safechain/src/context/Web3Context.tsx:51-63 | a page load starts with nothing connected, no roles and the persisted storage |
| Session.Web3Session.InitializeContract | safechain/src/context/Web3Context.tsx:91-103 | the contract is set on the given signer unless its constructor throws; a throw is reported and changes nothing |
| Session.Web3Session.Rebind | safechain/src/context/Web3Context.tsx:125-131 | a new provider and signer, then a contract on that signer; when `new ethers.Contract` throws, the throw is reported and nothing is adopted |
| Session.Web3Session.CheckRoles | safechain/src/context/Web3Context.tsx:65-89 | success stores the four flags and their JSON; failure sets all flags false, writes nothing and does not rethrow |
| Session.Web3Session.ClearSession | safechain/src/context/Web3Context.tsx:144-146 | account and roles cleared and exactly the three session keys removed |
| Session.RequestAccounts | safechain/src/context/Web3Context.tsx:112-124 | eth_accounts first; a non-empty answer brings wallet_requestPermissions before eth_requestAccounts; an account is granted iff every request succeeds and accounts[0] is truthy; otherwise the first error thrown, or 'No accounts found' |
| Session.Web3Session.SignIn | safechain/src/context/Web3Context.tsx:125-138 | with the contract built: the account is bound, 'walletConnected' and the account persisted and roles refreshed; a constructor throw changes nothing |
| Session.Web3Session.ConnectWallet | safechain/src/context/Web3Context.tsx:106-157 | no wallet: 'Please install MetaMask!' and a throw, nothing else changes; success iff an account is granted and the contract builds, and then accounts[0] is bound and persisted with one role query for it; any failure (an empty list or a constructor throw included) clears the three keys, records the error, rethrows, adopts no handle and ends with isConnecting false; the contract stays bound to the signer |
| Session.Web3Session.Restore | safechain/src/context/Web3Context.tsx:159-222 | only attempted with flag 'true', a saved account and a wallet; with accounts and a built contract it resumes on accounts[0]; with none, a failed request or a constructor throw it clears the keys, the handles and the roles; the contract stays bound to the signer |
| Session.Web3Session.Resume | safechain/src/context/Web3Context.tsx:174-190 | with the contract built: binds the first account, then adopts decodable saved roles without a query, or queries roles for that account |
| Session.Web3Session.Forget | safechain/src/context/Web3Context.tsx:207-221 | the three keys, the account, provider, signer, contract and roles all cleared |
| Session.Web3Session.Reinitialize | safechain/src/context/Web3Context.tsx:238-249 | the new provider and signer are adopted first; then the contract on them and a role refresh, or on a constructor throw the old contract stays beside the new signer |
| Session.Web3Session.HandleAccountsChanged | safechain/src/context/Web3Context.tsx:230-277 | a first account is persisted and roles refreshed on a rebuilt handle; an empty list or a missing wallet clears account, roles and the three keys; a constructor throw clears them too but leaves the new provider and signer beside the old, unbound contract |
| Session.Web3Session.Reload | safechain/src/context/Web3Context.tsx:280 | a reload resets everything in memory and keeps storage |
| Session.Web3Session.HandleChainChanged | safechain/src/context/Web3Context.tsx:279-281 | chainChanged only reloads |
| Session.Web3Session.HandleDisconnect | safechain/src/context/Web3Context.tsx:283-294 | disconnect clears account and roles and removes the three keys |
| ContractHook.ContractHandleState.OnSignerChange | safechain/src/hooks/useContract.ts:16-32 | the handle exists exactly when a signer exists and the contract could be built, and is bound to that signer |
| ContractHook.CheckRoles | safechain/src/hooks/useContract.ts:34-48 | no contract throws 'Contract not initialized'; a failed query is rethrown, not read as no roles; success maps results[0..3] to hasAdmin..hasAuditor |
| ContractHook.CheckRolesAgreesWithSession | safechain/src/hooks/useContract.ts:34-48 | the hook and the session read one answer alike and differ only on failure |
| ContractHook.FindEvent | safechain/src/hooks/useContract.ts:66-68 | the event found is one of the receipt's with that name, and none is found only when no event has it |
| ContractHook.FirstMatch | safechain/src/hooks/useContract.ts:66-68 | the find returns the first event with the name, wherever it stands |
| ContractHook.Settle | safechain/src/hooks/useContract.ts:58-80 | a failed send or wait gives `message \|\| fallback`; a mined receipt gives the hash, with the event argument when toNumber converts it, and the overflow error when it does not |
| ContractHook.Write | safechain/src/hooks/useContract.ts:50-193 | 'Contract not initialized', then the operation's role message, both before any call; an amount parseEther refuses fails before the call; otherwise the call is made with parseEther of the text and the result is the settled transaction; success carries the hash and the event argument |
| ContractHook.CreateProjectId | safechain/src/hooks/useContract.ts:58-76 | with the first ProjectCreated event at any position and its args[0] below 2^53, createProject returns the hash and args[0] as projectId, after calling with parseEther of the budget |
| ContractHook.CreateProjectOverflow | safechain/src/hooks/useContract.ts:70-79 | an args[0] at or above 2^53 fails the mined write with toNumber's overflow |
| ContractHook.GetNotifications | safechain/src/hooks/useContract.ts:196-206 | needs a contract and an account, no role; returns the answer or rethrows its message |
| ContractHook.MarkNotificationAsRead | safechain/src/hooks/useContract.ts:208-219 | needs only the contract; returns the hash once mined |
| ContractHook.GetExpensesByMilestone | safechain/src/hooks/useContract.ts:221-234 | needs only the contract; returns the answer or rethrows its message |
| RoleGuard.RoleFlag | safechain/src/components/RoleGuard.tsx:13-24 | each role name reads only its own flag; an unknown name is false |
| RoleGuard.HasRequiredRole | safechain/src/components/RoleGuard.tsx:12-25 | access iff some listed role's flag is set |
| RoleGuard.EmptyListDenied | safechain/src/components/RoleGuard.tsx:12 | an empty role list is always denied |
| RoleGuard.AccessMonotone | safechain/src/components/RoleGuard.tsx:12-25 | more roles never lose access |
| RoleGuard.NoRolesDenied | safechain/src/components/RoleGuard.tsx:12-25 | an account with no roles is denied whatever the list |
| RoleGuard.Render | safechain/src/components/RoleGuard.tsx:27-31 | the children render iff access is granted, otherwise the fixed denial message |
| RoleManager.Dispatch | safechain/src/components/RoleManager.tsx:23-32 | assign+auditor calls addAuditor, assign+government calls addGovernmentOfficial, revoke calls revokeRole with the matching role |
| RoleManager.DispatchFaithful | safechain/src/components/RoleManager.tsx:23-32 | the call made determines the action, role and address it came from |
| RoleManager.Visible | safechain/src/components/RoleManager.tsx:46-48 | the panel shows iff the account is an admin |
| RoleManager.RoleManagerView.HandleRoleAction | safechain/src/components/RoleManager.tsx:14-44 | nothing without a contract or an address; success sets the 'Assigned/Revoked … role successfully!' text and clears the address; failure sets the error and keeps it; isLoading ends false |
| Navbar.HandleDisconnect | safechain/src/components/Navbar.tsx:9-14 | removes exactly the three session keys, then the reload resets memory |
| Navbar.DisconnectKeepsOtherKeys | safechain/src/components/Navbar.tsx:9-14 | every other storage key keeps its value |
| Navbar.Abbreviate | safechain/src/components/Navbar.tsx:60 | the first six characters, '...', the last four |
| Navbar.AbbreviateAddress | safechain/src/components/Navbar.tsx:115 | a 42-character address shows as 13 characters: its head and tail |
| Navbar.Badges | safechain/src/components/Navbar.tsx:43-57 | Admin, Government and Auditor badges each iff their flag, and nothing else |
| Navbar.DefaultAdminHasNoBadge | safechain/src/components/Navbar.tsx:98-112 | isDefaultAdmin never changes the badges |
| Navbar.NavLinks | safechain/src/components/Navbar.tsx:24-36 | the links appear only with an account |
| ProjectDetails.SafeToNumber | safechain/src/components/ProjectDetails.tsx:22-34 | 0 for falsy input, NaN or a thrown conversion; a BigNumber's value in range; Number(x) otherwise |
| ProjectDetails.SafeToNumberField | safechain/src/components/ProjectDetails.tsx:22-34 | on a contract field: its value when present, else 0 |
| ProjectDetails.ExpenseRow | safechain/src/components/ProjectDetails.tsx:81-89 | an expense row keeps description, proof and converted numbers |
| ProjectDetails.RowAmounts | safechain/src/components/ProjectDetails.tsx:81-97 | shown amounts read back as the base units, a missing one as 0 |
| ProjectDetails.ExpenseRows | safechain/src/components/ProjectDetails.tsx:80-90 | the list converts iff no entry is null, then row by row in order |
| ProjectDetails.MilestoneRow | safechain/src/components/ProjectDetails.tsx:91-97 | a milestone row keeps description, completion and its expense rows |
| ProjectDetails.MilestoneEntry | safechain/src/components/ProjectDetails.tsx:77-102 | a milestone gives a row iff its fetch, its expense list and every entry load, and then exactly its row |
| ProjectDetails.DetailMilestonesBound | safechain/src/components/ProjectDetails.tsx:77-103 | never more milestones than milestoneCount |
| ProjectDetails.DetailMilestonesComplete | safechain/src/components/ProjectDetails.tsx:77-103 | when every milestone and list loads, all milestones appear, in index order |
| ProjectDetails.SkippedMilestone | safechain/src/components/ProjectDetails.tsx:99-102 | a milestone that fails to load, at any index, is missing and the panel is shorter than milestoneCount |
| ProjectDetails.ShownLineUp | safechain/src/components/ProjectDetails.tsx:77-103 | panel position k shows the row of milestone ShownIds[k], which loads |
| ProjectDetails.ShownIncrease | safechain/src/components/ProjectDetails.tsx:77-103 | the milestones shown are in increasing index order |
| ProjectDetails.ShownMembers | safechain/src/components/ProjectDetails.tsx:77-103 | a milestone below the count is shown iff it loads |
| ProjectDetails.PositionAtMostIndex | safechain/src/components/ProjectDetails.tsx:237-273 | the id sent for panel position k is k, at most the milestone's index, equal iff every milestone before it loaded |
| ProjectDetails.CompletedIdCanDiffer | safechain/src/components/ProjectDetails.tsx:273 | with milestone 0 unloadable, completing milestone 1 sends id 0 |
| ProjectDetails.ClassifyLoadError | safechain/src/components/ProjectDetails.tsx:108-116 | CALL_EXCEPTION and NETWORK_ERROR get their fixed messages, anything else its message or the fallback |
| ProjectDetails.MissingProjectNotFound | safechain/src/components/ProjectDetails.tsx:108-112 | a project that reverts shows the not-found message |
| ProjectDetails.ShowCompleteControls | safechain/src/components/ProjectDetails.tsx:271 | controls show iff the item is incomplete and the account is the project's government |
| ProjectDetails.FetchMilestones | safechain/src/components/ProjectDetails.tsx:72-104 | requests indices 0..count-1 in order and builds the specified tree |
| ProjectDetails.ProjectDetailsView.LoadProjectDetails | safechain/src/components/ProjectDetails.tsx:36-119 | no contract: 'Contract not initialized' and no fetch; otherwise the tree, or the classified error with the old tree kept; loading ends false |
| ProjectDetails.ProjectDetailsView.Complete | safechain/src/components/ProjectDetails.tsx:122-156 | nothing without a contract; otherwise completeProject, or completeMilestone with the panel position as id; reloads iff the send and the wait succeed; otherwise the error message or fallback; isSubmitting ends false |
| Notifications.Numbered | safechain/src/app/notifications/page.tsx:66 | each id is the number of notifications pushed before it |
| Notifications.NumberedSnoc | safechain/src/app/notifications/page.tsx:66 | pushing one more gives it the next id |
| Notifications.PushExpenses | safechain/src/app/notifications/page.tsx:115-135 | the expense loop pushes exactly the specified notices |
| Notifications.PushMilestone | safechain/src/app/notifications/page.tsx:80-138 | one milestone pushes its created notice, deadline notice and expense notices |
| Notifications.PushMilestones | safechain/src/app/notifications/page.tsx:78-140 | the milestone loop pushes the specified feed |
| Notifications.PushProject | safechain/src/app/notifications/page.tsx:57-142 | one project pushes its notice and its milestones' |
| Notifications.CollectNotifications | safechain/src/app/notifications/page.tsx:55-145 | the walk pushes the numbered feed of the specification |
| Notifications.ExpenseFeed | safechain/src/app/notifications/page.tsx:118-130 | every expense notice is an 'expense' notice of this project, already read |
| Notifications.ExpenseNotices | safechain/src/app/notifications/page.tsx:114-135 | a milestone's expense notices, none when the list fails, are read 'expense' notices of this project |
| Notifications.MilestoneItems | safechain/src/app/notifications/page.tsx:82-136 | a milestone's notices belong to this project, none is a 'project' notice, and only the deadline reminder is unread, stamped with the project's `now` |
| Notifications.MilestoneFeed | safechain/src/app/notifications/page.tsx:80-138 | the same holds for all the milestone notices of a project |
| Notifications.MilestoneNotices | safechain/src/app/notifications/page.tsx:78-139 | the same holds when the milestoneCount is missing and nothing is pushed |
| Notifications.NotificationsPage.LoadNotifications | safechain/src/app/notifications/page.tsx:49-155 | a projectCount failure sets the error and keeps the list; otherwise the feed sorted by non-increasing timestamp, a permutation of what was pushed; isLoading ends false |
| Notifications.SortedIdsDistinct | safechain/src/app/notifications/page.tsx:66-147 | after sorting, ids stay distinct and below the number pushed |
| Notifications.FeedShaped | safechain/src/app/notifications/page.tsx:64-130 | across the feed a notification is unread iff it is a deadline reminder, and every reminder is stamped with its project's read time |
| Notifications.ProjectNoticeCount | safechain/src/app/notifications/page.tsx:64-75 | exactly one 'project' notice per fetched project with a BigNumber createdAt |
| Notifications.FeedMembers | safechain/src/app/notifications/page.tsx:58-140 | a notice is in the feed iff a project, milestone, deadline or expense entry of projects 0..n-1 yields it; a failed project, milestone or list drops only its own notices |
| Notifications.DeadlineMembers | safechain/src/app/notifications/page.tsx:97-111 | a 'deadline' notice is in the feed iff some loaded, incomplete milestone of a loaded project is due after `now` and less than a week after it |
| Notifications.MilestoneMembers | safechain/src/app/notifications/page.tsx:84-95 | a 'milestone' notice is in the feed iff some loaded milestone below a loaded project's milestoneCount has a createdAt |
| Notifications.ExpenseMembers | safechain/src/app/notifications/page.tsx:115-135 | an 'expense' notice is in the feed iff some loaded list holds a non-null entry with an amount and a timestamp |
| Notifications.MilestoneNoticeCount | safechain/src/app/notifications/page.tsx:78-112 | one 'milestone' notice per loaded milestone with a createdAt and one 'deadline' notice per loaded milestone due within the week, and no more |
| ExpensesPage.PushEntries | safechain/src/app/expenses/page.tsx:85-103 | the entry loop pushes the specified records, null entries skipped |
| ExpensesPage.PushProject | safechain/src/app/expenses/page.tsx:72-111 | one project pushes the records of its milestones |
| ExpensesPage.CollectExpenses | safechain/src/app/expenses/page.tsx:67-114 | the walk pushes all specified records in order |
| ExpensesPage.ExpensesPageView.LoadExpenses | safechain/src/app/expenses/page.tsx:61-126 | a projectCount failure sets the error; otherwise every record sorted by non-increasing timestamp, a permutation of the walk |
| ExpensesPage.AllExpensesMembers | safechain/src/app/expenses/page.tsx:72-111 | a record is listed iff it comes from a non-null entry of a loaded list of a loaded milestone of a loaded project with a milestoneCount |
| ExpensesPage.EntryDefaults | safechain/src/app/expenses/page.tsx:91-102 | id is the list position; 'Untitled Expense', timestamp now, `Project <id>`; the amount reads back as `amount \|\| 0` |
| MilestonesPage.PushProject | safechain/src/app/milestones/page.tsx:70-98 | one project pushes its loaded milestones |
| MilestonesPage.CollectMilestones | safechain/src/app/milestones/page.tsx:64-100 | the walk pushes all specified records |
| MilestonesPage.MilestonesPageView.LoadMilestones | safechain/src/app/milestones/page.tsx:58-111 | a count failure sets the error; otherwise every record sorted by non-decreasing deadline, a permutation of the walk |
| MilestonesPage.AllMilestonesMembers | safechain/src/app/milestones/page.tsx:70-98 | a record is listed iff it comes from a loaded milestone below milestoneCount of a loaded project |
| MilestonesPage.MilestonesFeedLength | safechain/src/app/milestones/page.tsx:77-97 | at most milestoneCount records per project |
| MilestonesPage.EntryDefaults | safechain/src/app/milestones/page.tsx:79-91 | id is the milestone index; 'Untitled Milestone'; a missing deadline is now + 604800 |
| Dashboard.Fetched | safechain/src/components/ProjectDashboard.tsx:62-74 | never more fetched projects than projectCount |
| Dashboard.ActivePlusCompleted | safechain/src/components/ProjectDashboard.tsx:66-73 | active plus completed is the number of fetched projects |
| Dashboard.TalliedSums | safechain/src/components/ProjectDashboard.tsx:76-82 | the loop's budget and spent totals are the sums over fetched projects whose field is present |
| Dashboard.FirstFault | safechain/src/components/ProjectDashboard.tsx:108-118 | the first dated expense without an amount, where the expense loop stops |
| Dashboard.PushExpenses | safechain/src/components/ProjectDashboard.tsx:107-121 | the expense loop pushes the activity of the entries before the first fault |
| Dashboard.PushMilestone | safechain/src/components/ProjectDashboard.tsx:92-124 | one milestone pushes its activity and its expenses' |
| Dashboard.PushProject | safechain/src/components/ProjectDashboard.tsx:85-128 | one project pushes its activity and its milestones' |
| Dashboard.CollectStats | safechain/src/components/ProjectDashboard.tsx:57-133 | the walk's counters and activity are the specified ones |
| Dashboard.DashboardView.LoadStats | safechain/src/components/ProjectDashboard.tsx:51-153 | a count failure sets the error and keeps the stats; otherwise the specified statistics |
| Dashboard.StatsCounts | safechain/src/components/ProjectDashboard.tsx:139-141 | totalProjects is projectCount; active plus completed is the fetched count, at most projectCount |
| Dashboard.StatsTotals | safechain/src/components/ProjectDashboard.tsx:142-143 | the shown totals read back as the exact base-unit sums |
| Dashboard.RecentActivity | safechain/src/components/ProjectDashboard.tsx:136-144 | at most five entries, sorted by non-increasing timestamp, none older than any left out |
| Dashboard.ExpenseFeedMembers | safechain/src/components/ProjectDashboard.tsx:108-118 | expense activity exactly for entries before the fault with a BigNumber timestamp |
| Dashboard.ListActivityMembers | safechain/src/components/ProjectDashboard.tsx:99-124 | a milestone's expense activity is exactly that of its loaded list |
| Dashboard.MilestoneKept | safechain/src/components/ProjectDashboard.tsx:121-124 | an expense-list failure keeps the milestone's own activity |
| ProjectsPage.SafeToNumber | safechain/src/app/projects/page.tsx:58-65 | 0 for falsy input or a thrown conversion; only a BigNumber in range converts |
| ProjectsPage.FieldNumber | safechain/src/app/projects/page.tsx:75-77 | a contract field converts to its value, or 0 when missing |
| ProjectsPage.Row | safechain/src/app/projects/page.tsx:55-78 | a project row exists iff getProject loads and budget and spent are present |
| ProjectsPage.RowFields | safechain/src/app/projects/page.tsx:67-78 | id is the loop index; the amounts read back as the base units; the counts as present or 0 |
| ProjectsPage.Listing | safechain/src/app/projects/page.tsx:53-79 | the listing exists iff every row does, and is then all rows in index order |
| ProjectsPage.CollectRows | safechain/src/app/projects/page.tsx:51-79 | the loop builds the listing and stops at the first failure |
| ProjectsPage.RowFails | safechain/src/app/projects/page.tsx:84-88 | any failed row aborts the whole listing |
| ProjectsPage.ProjectsPageView.FetchProjects | safechain/src/app/projects/page.tsx:41-92 | nothing without a contract; any failure sets the error and keeps the old list; otherwise the listing; isLoading ends false |
| ProjectsPage.FilterMembers | safechain/src/app/projects/page.tsx:94-103 | a project is shown iff it passes the status filter and the search matches its name or description |
| ProjectsPage.FilterKeepsOrder | safechain/src/app/projects/page.tsx:94-103 | the shown projects are an order-preserving subsequence of the listing |
| ProjectsPage.EmptySearch | safechain/src/app/projects/page.tsx:100-103 | an empty search keeps what the status filter keeps; 'all' with no search keeps everything |
| ProjectsPage.StatusSplit | safechain/src/app/projects/page.tsx:95-99 | 'active' and 'completed' split what 'all' shows |
| ProjectList.PageRow | safechain/src/components/ProjectList.tsx:38-48 | a row exists iff the project record for id i loads and budget, spent and lastUpdated are present; its id is i and lastUpdated is in milliseconds |
| ProjectList.PageRows | safechain/src/components/ProjectList.tsx:37-49 | the page loads iff every id start..end-1 does, and then holds their rows in id order |
| ProjectList.FirstFault | safechain/src/components/ProjectList.tsx:37-53 | a failed page carries the fault of its first failing id |
| ProjectList.FetchRows | safechain/src/components/ProjectList.tsx:37-49 | the loop builds the page's rows and stops at the first fault |
| ProjectList.PrefixFailure | safechain/src/components/ProjectList.tsx:37-53 | a fault at one id ends the page with that fault |
| ProjectList.ProjectListView.FetchProjects | safechain/src/components/ProjectList.tsx:25-59 | the page's rows and hasMore iff end < count; on a fault the old rows stay and the message or fallback is shown; loading ends false |
| ProjectList.ProjectListView.PrevPage | safechain/src/components/ProjectList.tsx:71-75 | back one page only above page 1 |
| ProjectList.ProjectListView.NextPage | safechain/src/components/ProjectList.tsx:77-81 | forward one page only while hasMore |
| ProjectList.PageSize | safechain/src/components/ProjectList.tsx:33-37 | at most five projects, exactly five unless it is the last page |
| ProjectList.OnExactlyOnePage | safechain/src/components/ProjectList.tsx:33-34 | each id below the count is on exactly one page, id/5 + 1 |
| ProjectList.HasMoreMeansBeyond | safechain/src/components/ProjectList.tsx:52 | hasMore iff a project lies beyond this page |
| ProjectList.PagesMeet | safechain/src/components/ProjectList.tsx:33-34 | the next page starts where a full page ends |
| AddExpense.CollectOpen | safechain/src/components/AddExpense.tsx:39-54 | the loop keeps the loaded, incomplete milestones in index order |
| AddExpense.OpenIdsLineUp | safechain/src/components/AddExpense.tsx:39-50 | list position k holds the milestone at contract index ids[k], loaded and incomplete |
| AddExpense.OpenIdsIncrease | safechain/src/components/AddExpense.tsx:39-50 | the kept milestones are in increasing index order |
| AddExpense.OpenIdsComplete | safechain/src/components/AddExpense.tsx:39-50 | every loaded, incomplete milestone is kept |
| AddExpense.FileCheck | safechain/src/components/AddExpense.tsx:68-82 | valid iff pdf, jpeg or png and at most 10 MiB; the type is checked first |
| AddExpense.SubmitCheckMeans | safechain/src/components/AddExpense.tsx:107-118 | an amount passes iff it does not read as <= 0, both fields exist, it parses, and it is at most budget - spent |
| AddExpense.PositionAtMostIndex | safechain/src/components/AddExpense.tsx:112-127 | the id sent is at most the chosen milestone's index, equal iff every milestone before it is listed |
| AddExpense.SentIdCanDiffer | safechain/src/components/AddExpense.tsx:42-43 | with milestone 0 completed, choosing milestone 1 sends id 0 |
| AddExpense.AddExpenseForm.LoadMilestones | safechain/src/components/AddExpense.tsx:30-66 | the open milestones with the first one selected; a failure sets the error and keeps the list |
| AddExpense.AddExpenseForm.Select | safechain/src/components/AddExpense.tsx:212-214 | the dropdown picks a listed milestone by position |
| AddExpense.AddExpenseForm.FileChange | safechain/src/components/AddExpense.tsx:84-96 | an accepted file is kept; a refused one clears the file and shows why |
| AddExpense.AddExpenseForm.HandleSubmit | safechain/src/components/AddExpense.tsx:98-148 | nothing without a contract, a file or a milestone; the call is made iff the checks pass, with the position as milestone id; reset and onExpenseAdded only after the wait succeeds; loading ends false |
| CreateProject.Redirect | safechain/src/app/projects/create/page.tsx:22-28 | a missing or empty account goes to '/', a non-government account to '/dashboard', and only a government account stays |
| CreateProject.CreateCheckMeans | safechain/src/app/projects/create/page.tsx:39-49 | a form passes iff name and description are non-blank and the budget is non-empty, not <= 0, and parses |
| CreateProject.CheckOrder | safechain/src/app/projects/create/page.tsx:39-49 | the first failed check gives the message: name, then description, then an empty budget or one parseFloat reads as <= 0; a budget parseEther refuses fails after them with its decimal error |
| CreateProject.OneAndAHalf | safechain/src/app/projects/create/page.tsx:45-49 | a budget of "1.5" is sent as 1.5 * 10^18 base units |
| CreateProject.ChangeOnlyField | safechain/src/app/projects/create/page.tsx:61-64 | a change sets its field and leaves the others |
| CreateProject.CreateProjectPage.HandleChange | safechain/src/app/projects/create/page.tsx:61-64 | the named field takes the value |
| CreateProject.CreateProjectPage.HandleSubmit | safechain/src/app/projects/create/page.tsx:30-59 | nothing without a contract; createProject only after the checks pass, with the budget in wei; '/projects' only after the wait succeeds, else the error; isLoading ends false |
| ProjectFilters.FilterBar.constructor | safechain/src/components/ProjectFilters.tsx:14-18 | starts at status 'all', sortBy 'recent', search '' |
| ProjectFilters.FilterBar.HandleFilterChange | safechain/src/components/ProjectFilters.tsx:20-27 | stores the updated record and reports that same record exactly once |
| ProjectFilters.UpdateOnlyKey | safechain/src/components/ProjectFilters.tsx:21-24 | a change updates only the named key |
| ProjectFilters.UpdateIdempotent | safechain/src/components/ProjectFilters.tsx:21-24 | setting a key to its value changes nothing, and setting it twice is setting it once |
| ProjectFilters.UpdatesCommute | safechain/src/components/ProjectFilters.tsx:21-24 | changes to different keys commute |
| Ether.FormatThenParse | safechain/src/components/ProjectDashboard.tsx:142-143 | formatEther's text parses back to the same base units |
| Ether.FormatField | safechain/src/app/projects/page.tsx:71-72 | formatEther on a field throws iff the field is missing |
| Ether.FormatFieldParses | safechain/src/app/projects/page.tsx:71-72 | a formatted field reads back as its base units |
| Ether.OnePointFive | safechain/src/app/projects/create/page.tsx:48 | parseEther("1.5") is 1.5 * 10^18 |
| Sorting.SortDescCorrect | safechain/src/app/notifications/page.tsx:147 | the descending sort is sorted, a permutation, of the same length |
| Sorting.SortAscCorrect | safechain/src/app/milestones/page.tsx:103 | the ascending sort is sorted, a permutation, of the same length |
| Sorting.TopOfSorted | safechain/src/components/ProjectDashboard.tsx:136-144 | the first n of a descending sort are at most n, sorted, drawn from the input and none below what was left out |
| JsValues.BigToNumber | safechain/src/components/ProjectDetails.tsx:26 | toNumber succeeds iff the value is below 2^53 in magnitude, and then is exact |
| JsValues.FieldValue | safechain/src/components/ProjectDetails.tsx:25 | a contract field is truthy iff present |
| JsValues.NumberOf | safechain/src/components/ProjectDetails.tsx:28 | Number(text) of a digit string is its decimal value, and NaN for any other text |
| JsValues.MessageOr | safechain/src/components/AddExpense.tsx:144 | `error.message \|\| fallback`: the message when it is non-empty, else the fallback |
| JsValues.ErrorMessageOr | safechain/src/components/RoleManager.tsx:40 | `error instanceof Error ? error.message : fallback` |
| ContractHook.ContractHandleState.constructor | safechain/src/hooks/useContract.ts:14 | the hook starts with no contract |
| RoleManager.RoleManagerView.constructor | safechain/src/components/RoleManager.tsx:8-12 | empty address, not loading, no error or success, action 'assign' |
| ProjectDetails.ProjectDetailsView.constructor | safechain/src/components/ProjectDetails.tsx:16-19 | no project, loading, no error, not submitting |
| Notifications.NotificationsPage.constructor | safechain/src/app/notifications/page.tsx:23-25 | no notifications, loading, no error |
| ExpensesPage.ExpensesPageView.constructor | safechain/src/app/expenses/page.tsx:35-37 | no expenses, loading, no error |
| MilestonesPage.MilestonesPageView.constructor | safechain/src/app/milestones/page.tsx:32-34 | no milestones, loading, no error |
| Dashboard.DashboardView.constructor | safechain/src/components/ProjectDashboard.tsx:34-43 | zero statistics, loading, no error |
| ProjectsPage.ProjectsPageView.constructor | safechain/src/app/projects/page.tsx:27-32 | no projects, loading, empty search, filter 'all', no error |
| ProjectsPage.EmptyTermMatches | safechain/src/app/projects/page.tsx:100-103 | an empty search term matches every project |
| ProjectList.ProjectListView.constructor | safechain/src/components/ProjectList.tsx:18-22 | no projects, loading, no error, page 1, hasMore |
| AddExpense.AddExpenseForm.constructor | safechain/src/components/AddExpense.tsx:16-24 | empty fields, no file, no milestones, position 0, nothing loading |
| CreateProject.CreateProjectPage.constructor | safechain/src/app/projects/create/page.tsx:13-19 | empty name, description and budget, not loading, no error |

## Left out

- Rendering, CSS, icons, loading skeletons and routes are presentation. Only the navigation each page makes is modelled.
- The pages' initial effects (reading the account and connecting the wallet before loading) are not modelled. Each load method takes whether a contract exists.
- Asynchrony and interleaving of effects are not modelled. Each handler runs to completion, and effects that re-run on a dependency change are separate calls.
- The budget-use and completion percentages, `toFixed` and `toLocaleString` are floating-point display and are not modelled.
- `window.ethereum`, the wallet's RPC and its listeners are parameters: the replies each handler sees.
- `localStorage` is a map, and a page reload is a reset of the in-memory state.
- ProjectsPage.Matches: `toLowerCase` is modelled on ASCII letters only. Unicode case mapping is not modelled.
- JsValues.NumberOf: `Number(text)` reads plain decimal digits only. Signs, fractions, exponents, hex and surrounding spaces read as NaN.
- Ether.ParseFloatSign: `parseFloat` is modelled by the sign of its decimal prefix. Exponent forms such as "1e5" are read by their mantissa only.
- Error texts thrown inside ethers (`invalid decimal value`, `invalid BigNumber value`, `call revert exception`) and by JavaScript (`Cannot read properties of undefined`) are stand-ins. Only their role in the `message || fallback` choice matters.
- `formatEther`'s text is `Ether.EtherText`, with `Text()` giving the digits. The pages compare and sum base units, never the text.
- Counts, timestamps and deadlines read from the contract are typed below 2^53, so `toNumber` never overflows on them. Where a page catches an overflow, the conversion functions model it.
- Session.Web3Session.Restore: the saved roles are decoded only in the form `JSON.stringify` writes them. Any other text is re-queried, including valid JSON such as "null", "{}" or other keys, spacing or key order, which the source adopts as the roles object as `JSON.parse` returns it.
- Session.Web3Session.Resume: `saved` is only ever a full roles record. The source can adopt any parsed JSON value as the roles, a record missing flags or `null`, and the model cannot represent that state.
- Whether `new ethers.Contract` throws (an invalid address, say) is a parameter, `contractError` in Session's connect, restore and accountsChanged and `constructorThrows` in ContractHook.ContractHandleState.OnSignerChange. Its cause is not modelled.
- ProjectList.PageRow: `contract.projects(i)`, the public getter, is read as the same record `getProject(i)` returns, `ChainModel.GetProject`. The contract's ABI and source are not part of this model, so a getter that answers for ids `getProject` rejects is not modelled. The page only asks for ids below projectCount.
- The notifications page reads `Date.now` once per project. The model takes a clock, a function from project id to time.
- Notifications.tsx, CreateProject.tsx, the dashboard and about pages, and the project sub-pages under projects/[id] are not part of this model.
- ProjectFilters: the `sortBy` value is stored and reported only. Nothing in these files sorts by it.
