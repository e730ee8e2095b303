# 3D print shop manager, modelled in Dafny

The shop manager is a single-page application over a Firestore database.
Its screens work as follows:

- The project screen keeps the shop's print projects and prices them with a
  fixed per-material table.
- The pricing calculator prices a project from the material inventory and
  writes the budget back.
- The inventory, client and expense screens keep their own collections.
- The dashboard and analytics screens compute figures from those lists.
- The application shell alerts, once per session, on materials whose stock
  is below the reorder threshold.
- Organizations hold a member list and a `memberUIDs` index beside it.
  Invitations add members to one, the team screen edits its member list, and
  two one-off migration scripts create organizations for older users and
  repair the index.

This project models all of that as Dafny modules, one per source file, plus
a few shared ones:

- `Common`: `Option`, document ids and timestamps.
- `Js`: the JavaScript value rules the screens rely on. These are
  truthiness, `Number(x)`, `x || d` and `trim() === ''`. A numeric field is a
  `JsNum`: missing, the empty string, a string that parses, a string that
  does not, a number, or NaN.
- `Seqs` and `Sorting`:
  - `filter`, `reduce` as a sum and `find`;
  - Firestore's `arrayUnion` and `arrayRemove`;
  - a stable insertion sort proved sorted and a permutation;
  - the sort-then-slice that the dashboard uses.
- `DocStore`: a Firestore collection as a class. It holds a map from id to
  document and hands out fresh ids. `Update` fails on a missing document and
  `Delete` never fails.
- `OrgDatabase`: the organizations collection, each organization's
  `projects` subcollection and the legacy `users/{uid}/projects`. It has
  atomic batches.

Each screen is a class whose fields are the component's state variables.
Each handler is a method whose contract gives the new state and the new
database contents, in terms of specification functions. Whether the backend
takes a write is a boolean parameter (`online`, `ok`). The server time is a
parameter (`now`).

Three behaviours of the code are easy to miss, and the model keeps them:

- Sorting a project or client snapshot throws when a document lacks
  `createdAt` and there are at least two documents. The screen then keeps
  its previous list and shows an error.
- Declining an invitation writes the inviting organization first and creates
  the new one second. A failure of the first write means the second is never
  attempted.
- The budget of a project with an unknown material is `NaN.toFixed(2)`, the
  string "NaN". That string is truthy, so it is modelled as an unparsable
  string and not as a falsy value.

## Model

| member | source | states |
|---|---|---|
| Js.Coerce | src/components/ExpenseManagement.jsx:47-50 | `Number(x)` stores a number or NaN that reads back as the same number as the input; it is truthy exactly when that number exists and is not 0 |
| Js.NumberOr | src/components/DashboardOverview.jsx:40 | `Number(x) \|\| d` is the number x reads as, unless that is 0 or NaN, in which case it is d |
| Seqs.ArrayUnion | src/components/InvitationScreen.jsx:14-15 | `arrayUnion` leaves an array that already holds the element exactly as it is, repeats included, and otherwise appends the element; a repeat-free array stays repeat-free |
| Seqs.ArrayRemove | src/components/InvitationScreen.jsx:16 | `arrayRemove` drops every occurrence of the element and keeps everything else; it changes nothing when the element is absent |
| Seqs.Take | migrate.cjs:16 | the first page of `listUsers(1000)`: at most n users, exactly n when there are that many, in order |
| Sorting.SortCorrect | src/components/MaterialManagement.jsx:30 | sorting with a total preorder yields a sorted permutation of the input |
| Sorting.SortDesc | src/components/ExpenseManagement.jsx:28 | sorting by a key, newest or largest first, keeps every element and its multiplicity and orders keys non-increasingly |
| Sorting.TopBy | src/components/DashboardOverview.jsx:43-48 | sort-then-slice keeps min(n, length) elements, all from the input, ordered by non-increasing key |
| Sorting.TopByDominates | src/components/DashboardOverview.jsx:54-55 | no element left out of the slice has a larger key than one kept |
| DocStore.Collection.Add | src/components/ClientManagement.jsx:65-68 | `addDoc` stores the document under an id not used before and changes no other document |
| DocStore.Collection.Update | src/components/ClientManagement.jsx:56-61 | `updateDoc` succeeds exactly when the document exists and then replaces only it with the merged value |
| DocStore.Collection.Delete | src/components/ClientManagement.jsx:101-102 | `deleteDoc` removes that id and nothing else |
| Projects.TablePrice | src/components/ProjectManagement.jsx:10-16 | the per-gram price exists exactly for PLA, ABS, PETG, ASA and Resina, and lies in (0, 0.1] |
| Projects.CalculateProjectBudget | src/components/ProjectManagement.jsx:20-31 | a falsy weight or an empty material returns the stored budget unchanged; otherwise the result is a string, which parses, or, for a material outside the table, is "NaN" |
| Projects.BudgetDefaults | src/components/ProjectManagement.jsx:26-30 | falsy design hours count as 0 and a falsy quantity as 1 |
| Projects.EditBudget | src/components/ProjectManagement.jsx:96-104 | with the edit handler's coercions the budget is the old one for a zero or unreadable weight or an empty material, and for a known material otherwise exactly the formula's value, never unreadable |
| Projects.BudgetExample | src/components/ProjectManagement.jsx:20-31 | 100 g of PLA with 2 hours of design is priced 68.9 |
| Projects.FilteredProjects | src/components/ProjectManagement.jsx:217-222 | `todos` shows every project; any other filter shows exactly the projects with that status |
| Projects.FilteredKeepsOrder | src/components/ProjectManagement.jsx:217-222 | the filter keeps list order: it distributes over concatenation |
| Projects.ProjectScreen.constructor | src/components/ProjectManagement.jsx:34-53 | the initial state: empty list, empty form with status `en_cola`, filter `todos`, nothing selected |
| Projects.ProjectScreen.OnSnapshot | src/components/ProjectManagement.jsx:62-74 | the list becomes the snapshot newest first; when the comparator throws on a missing `createdAt`, the previous list stays and the load error is shown |
| Projects.ProjectScreen.HandleAddOrEdit | src/components/ProjectManagement.jsx:83-132 | a blank name is refused with its message; the save succeeds exactly when the name is not blank, the backend takes the write and an edited project still exists; an edit of a budgeted project recomputes the budget; an edit updates the document, an add creates one with both timestamps; success resets the form, failure keeps it and shows the save error |
| Projects.ProjectScreen.HandleChangeStatus | src/components/ProjectManagement.jsx:134-147 | only `status` and `updatedAt` of that project change; a failure changes nothing and shows the status error |
| Projects.ProjectScreen.HandleEditClick | src/components/ProjectManagement.jsx:149-164 | the form takes the project's fields and the project becomes the one edited |
| Projects.ProjectScreen.HandleCancelEdit | src/components/ProjectManagement.jsx:166-169 | the form is emptied and nothing is edited |
| Projects.ProjectScreen.HandleDeleteClick | src/components/ProjectManagement.jsx:171-174 | the project is selected for deletion and the modal opens |
| Projects.ProjectScreen.ConfirmDelete | src/components/ProjectManagement.jsx:176-190 | with a selection, the document is deleted exactly when the backend takes it; the modal closes either way, and the selection is cleared only on success |
| Projects.ProjectScreen.CancelDelete | src/components/ProjectManagement.jsx:192-195 | the selection is cleared and the modal closes |
| PricingCalculator.EditableProjects | src/components/PricingCalculator.jsx:18-20 | the selector offers exactly the queued and in-progress projects, never a completed one |
| PricingCalculator.FindProject | src/components/PricingCalculator.jsx:104 | `find` by id returns a project with that id, and nothing exactly when no project has it |
| PricingCalculator.FindMaterial | src/components/PricingCalculator.jsx:45 | `find` by type returns the first material of that type, and nothing exactly when the inventory has none |
| PricingCalculator.TypesOf | src/components/PricingCalculator.jsx:110 | the material types, one per material, in inventory order |
| PricingCalculator.AvailableMaterialTypes | src/components/PricingCalculator.jsx:109-112 | `[...new Set(types)]`: each type of the inventory exactly once |
| PricingCalculator.MenuSelectionNeverLocked | src/components/PricingCalculator.jsx:22 | with unique ids, a project picked from the selector is found and is never locked |
| PricingCalculator.PriceOf | src/components/PricingCalculator.jsx:52-60 | the price is a two-decimal string, which parses exactly when weight, hours and (in bulk) quantity do; either way it is truthy |
| PricingCalculator.BulkScalesByQuantity | src/components/PricingCalculator.jsx:58 | a bulk price is the single price times the quantity |
| PricingCalculator.CalculatorAgreesWithProjectBudget | src/components/PricingCalculator.jsx:52-60 | with the project table's price per kilogram, the calculator and the project screen give the same budget |
| PricingCalculator.ZeroPriceIsSaveable | src/components/PricingCalculator.jsx:60 | a computed price of 0 is the string "0.00", which is truthy, unlike the initial number 0 |
| PricingCalculator.WithBudget | src/components/PricingCalculator.jsx:84-91 | the saved project has budget, weight, hours and quantity converted with `Number`, the chosen material and a new `updatedAt`; everything else is kept |
| PricingCalculator.SelectThenSaveKeepsBudget | src/components/PricingCalculator.jsx:31 | saving right after choosing a project writes its own numeric budget back |
| PricingCalculator.Calculator.constructor | src/components/PricingCalculator.jsx:9-16 | the initial inputs: weight 0, PLA, 0 hours, single unit, price 0 |
| PricingCalculator.Calculator.LoadSelection | src/components/PricingCalculator.jsx:24-40 | each input is loaded from the project as `x \|\| default`, and bulk is set when the quantity exceeds 1; with no project the defaults return |
| PricingCalculator.Calculator.HandleProjectSelect | src/components/PricingCalculator.jsx:99-107 | the empty option clears the selection, an id selects the project found; a project's inputs load `x \|\| default` each, with bulk on exactly when the quantity is above 1, and no project loads weight 0, PLA, 0 hours, quantity 1, no bulk and price 0 |
| PricingCalculator.Calculator.HandleCalculate | src/components/PricingCalculator.jsx:44-70 | a locked project or a type missing from the inventory leaves the price as it was; otherwise the price is `PriceOf` with the first material of the type |
| PricingCalculator.Calculator.HandleSaveBudget | src/components/PricingCalculator.jsx:72-97 | nothing without a project or with a falsy price; nothing for a locked project; the budget is saved exactly when neither applies, the backend takes the write and the project still exists, and the project then becomes `WithBudget` |
| Materials.NumberOrZero | src/components/MaterialManagement.jsx:61-63 | `Number(x) \|\| 0` |
| Materials.FromForm | src/components/MaterialManagement.jsx:59-66 | the saved material: text as entered, numbers coerced, the price per gram exactly a thousandth of the price per kilogram |
| Materials.EditRoundTrip | src/components/MaterialManagement.jsx:88-98 | opening a stored material and saving it unchanged writes the same values back, with a new `updatedAt` |
| Materials.BrandThenNameIsTotalPreorder | src/components/MaterialManagement.jsx:30 | brand-then-name ordering is total and transitive |
| Materials.IsLowStock | src/components/MaterialManagement.jsx:131 | a material is low on stock when it holds fewer grams than its reorder threshold |
| Materials.MaterialScreen.constructor | src/components/MaterialManagement.jsx:9-19 | the initial state: empty inventory, loading, the default form |
| Materials.MaterialScreen.OnSnapshot | src/components/MaterialManagement.jsx:28-33 | the inventory is the snapshot sorted by brand, then name, as a permutation |
| Materials.MaterialScreen.ResetFormAndClose | src/components/MaterialManagement.jsx:43-50 | the default form, nothing edited, the form closed |
| Materials.MaterialScreen.HandleAddOrEdit | src/components/MaterialManagement.jsx:52-86 | a missing name, brand or type is refused; the save succeeds exactly when the fields are there, the backend takes the write and an edited material still exists; an edit updates the document keeping `createdAt`, an add creates one; success resets and closes the form |
| Materials.MaterialScreen.HandleEditClick | src/components/MaterialManagement.jsx:88-100 | the form takes the material and opens |
| Materials.MaterialScreen.HandleDeleteClick | src/components/MaterialManagement.jsx:102-104 | the material is selected for deletion |
| Materials.MaterialScreen.ConfirmDelete | src/components/MaterialManagement.jsx:106-117 | the selected material is deleted exactly when the backend takes it; the selection is cleared only then |
| Materials.MaterialScreen.HandleToggleForm | src/components/MaterialManagement.jsx:119-129 | opening the form starts a blank add; closing it keeps the form |
| Clients.NewClient | src/components/ClientManagement.jsx:65-68 | an added client is the form plus `createdAt` |
| Clients.Edited | src/components/ClientManagement.jsx:56-61 | an edit writes name, email and phone and keeps `createdAt` |
| Clients.EditRoundTrip | src/components/ClientManagement.jsx:82-85 | opening a client and saving it unchanged leaves the document as it was |
| Clients.EditLikeAdd | src/components/ClientManagement.jsx:55-68 | an edit and an add of the same form differ only in `createdAt` |
| Clients.ClientScreen.constructor | src/components/ClientManagement.jsx:9-16 | the initial state: empty list, empty form, nothing selected |
| Clients.ClientScreen.OnSnapshot | src/components/ClientManagement.jsx:24-36 | the list becomes the snapshot newest first, or it stays and the load error is shown when the comparator throws |
| Clients.ClientScreen.HandleAddOrEdit | src/components/ClientManagement.jsx:45-80 | a blank name is refused; the save succeeds exactly when the name is not blank, the backend takes the write and an edited client still exists; an edit updates the client, an add creates one; success empties the form, failure keeps it and shows the save error |
| Clients.ClientScreen.HandleEditClick | src/components/ClientManagement.jsx:82-85 | the form takes the client |
| Clients.ClientScreen.HandleCancelEdit | src/components/ClientManagement.jsx:87-90 | the form is emptied |
| Clients.ClientScreen.HandleDeleteClick | src/components/ClientManagement.jsx:92-95 | the client is selected and the modal opens |
| Clients.ClientScreen.ConfirmDelete | src/components/ClientManagement.jsx:97-112 | the client is deleted exactly when the backend takes it; the modal closes either way; a failure shows the delete error |
| Clients.ClientScreen.CancelDelete | src/components/ClientManagement.jsx:114-117 | the selection is cleared and the modal closes |
| Expenses.CanEdit | src/components/ExpenseManagement.jsx:15 | owners, admins and editors may edit; viewers and outsiders may not |
| Expenses.ToSave | src/components/ExpenseManagement.jsx:47-50 | the saved expense keeps the text fields and stores the amount as a number or NaN equal to `Number(amount)` |
| Expenses.EditRoundTrip | src/components/ExpenseManagement.jsx:71-74 | opening a stored expense and saving it unchanged writes the same values back, with a new `updatedAt` |
| Expenses.MissingCreatedAtSortsLast | src/components/ExpenseManagement.jsx:28 | an expense without `createdAt` comes after every dated one |
| Expenses.ExpenseScreen.constructor | src/components/ExpenseManagement.jsx:7-13 | without an organization the screen stops loading at once |
| Expenses.ExpenseScreen.OnSnapshot | src/components/ExpenseManagement.jsx:26-30 | the list is the snapshot newest first and loading ends |
| Expenses.ExpenseScreen.HandleAddOrEdit | src/components/ExpenseManagement.jsx:39-69 | a blank description, a falsy amount or no organization is refused; the save succeeds exactly when none of these applies, the backend takes the write and an edited expense still exists; an edit writes `updatedAt`, an add `createdAt`; success empties the form |
| Expenses.ExpenseScreen.HandleEditClick | src/components/ExpenseManagement.jsx:71-74 | the form takes the expense |
| Expenses.ExpenseScreen.HandleCancelEdit | src/components/ExpenseManagement.jsx:76-79 | the form is emptied with category `Material` |
| Expenses.ExpenseScreen.SelectForDelete | src/components/ExpenseManagement.jsx:140 | the expense is selected for deletion |
| Expenses.ExpenseScreen.ConfirmDelete | src/components/ExpenseManagement.jsx:81-92 | the expense is deleted exactly when one is selected, there is an organization and the backend takes it |
| Dashboard.RevenueStep | src/components/DashboardOverview.jsx:39-40 | a completed project adds its budget to the revenue; any other status adds nothing |
| Dashboard.RevenueOverAllProjects | src/components/DashboardOverview.jsx:39-40 | the revenue equals the sum over all projects with every project that is not completed counted as 0 |
| Dashboard.RevenueNonNegative | src/components/DashboardOverview.jsx:40 | non-negative budgets give a non-negative revenue |
| Dashboard.ComputeOverview | src/components/DashboardOverview.jsx:36-65 | the counts of active and completed projects, the revenue, the stock in kilograms, the four newest projects and the five best-stocked materials (min(5, n) of them), each slice drawn from its input without adding repeats |
| Dashboard.TopMaterialsDominate | src/components/DashboardOverview.jsx:54-55 | no material outside the top five has more stock than one in it |
| Dashboard.RecentProjectsDominate | src/components/DashboardOverview.jsx:43-48 | no project outside the recent four was created later than one in it |
| Analytics.ProjectStatusData | src/components/Analytics.jsx:7-11 | three bars, named and counting the queued, in-progress and completed projects, together at most the number of projects |
| Analytics.StatusCountsBounded | src/components/Analytics.jsx:7-11 | the three status counts add up to at most the number of projects |
| Analytics.UsedMaterials | src/components/Analytics.jsx:15 | the materials the projects name, every project with a material contributing its own: one entry per such project |
| Analytics.UsedMaterialsAppend | src/components/Analytics.jsx:14-15 | the used materials keep project order: they distribute over concatenation |
| Analytics.Tally | src/components/Analytics.jsx:16-21 | one step of the `reduce`: the reference definition that `TallyFound`, `TallyNew` and `FindEntry` state properties of |
| Analytics.MaterialUsage | src/components/Analytics.jsx:14-24 | the chart as a left fold of `Tally`: the reference definition that `MaterialUsageNames`, `MaterialUsageCounts` and `ComputeMaterialUsage` connect to |
| Analytics.FoundIffNamed | src/components/Analytics.jsx:16 | `find` by name succeeds exactly when the name is already on the chart |
| Analytics.TallyFound | src/components/Analytics.jsx:17-18 | a known name bumps its entry by one and leaves the others as they are |
| Analytics.TallyNew | src/components/Analytics.jsx:19-20 | a new name appends an entry with one use |
| Analytics.MaterialUsageNames | src/components/Analytics.jsx:14-24 | one entry per material named by some project, in order of first appearance, without repeats |
| Analytics.MaterialUsageCounts | src/components/Analytics.jsx:14-24 | each entry's value is exactly the number of projects with its material |
| Analytics.MaterialUsageTotal | src/components/Analytics.jsx:14-24 | the values add up to the number of projects that name a material |
| Analytics.FindEntry | src/components/Analytics.jsx:16 | the index of the first entry with the name, or the length when there is none |
| Analytics.ComputeMaterialUsage | src/components/Analytics.jsx:14-24 | the `reduce` loop computes exactly the chart specified above |
| Organizations.MirroredIsMirroredAsSet | src/components/InvitationScreen.jsx:13-17 | an ordered mirror of member uids is also a set mirror |
| Organizations.UnionUid | src/components/InvitationScreen.jsx:15 | `arrayUnion` on `memberUIDs` leaves an array holding the uid, overwriting a missing or malformed field |
| Organizations.Accepted | src/components/InvitationScreen.jsx:13-17 | accept keeps the old members in order and appends the viewer entry exactly when it is not there yet; `memberUIDs` becomes `arrayUnion` of the old array and the uid, or just the uid when the field is not an array; the email leaves the pending invites and nothing else does |
| Organizations.AcceptPreservesMirror | src/components/InvitationScreen.jsx:13-17 | for a uid not yet a member, accept keeps `memberUIDs` an ordered mirror of `members` |
| Organizations.AcceptPreservesMirrorAsSet | src/components/InvitationScreen.jsx:13-17 | accept always keeps the set mirror |
| Organizations.AcceptCanBreakOrderedMirror | src/components/InvitationScreen.jsx:14-15 | a member re-accepting with another role gets a second entry, and the ordered mirror breaks |
| Organizations.AcceptIdempotent | src/components/InvitationScreen.jsx:13-17 | accepting twice is accepting once |
| Organizations.InviteRemoved | src/components/InvitationScreen.jsx:30-32 | decline's first write removes only the email from the pending invites |
| Organizations.LocalPart | src/components/InvitationScreen.jsx:38 | `split('@')[0]`: the prefix before the first '@', or the whole address |
| Organizations.TeamNameBeforeFirstAt | src/components/InvitationScreen.jsx:38 | the team name is exactly the text before the first '@' followed by "'s Team" |
| Organizations.NewTeamOrg | src/components/InvitationScreen.jsx:36-43 | the created organization is owned by the user, who is its only member, with no invites |
| Organizations.NewTeamOrgWellFormed | src/components/InvitationScreen.jsx:39-40 | it mirrors its members and has exactly one owner, its creator |
| InvitationScreen.InvitationScreen.HandleAccept | src/components/InvitationScreen.jsx:9-23 | the decision is taken exactly when the update goes through, and then the organization becomes `Accepted` |
| InvitationScreen.InvitationScreen.HandleDeclineAndCreate | src/components/InvitationScreen.jsx:26-49 | the invite is removed if the first write goes through; only then is a new team created under a fresh id; the decision needs both |
| TeamManagement.RoleOf | src/components/TeamManagement.jsx:100-101 | the role of the first entry with the uid, or '' |
| TeamManagement.CanManage | src/components/TeamManagement.jsx:143 | owners and admins manage the team, nobody else |
| TeamManagement.OutsiderCannotManage | src/components/TeamManagement.jsx:101 | someone without an entry has role '' and cannot manage |
| TeamManagement.WithRole | src/components/TeamManagement.jsx:21-23 | the role change keeps uids, emails and order, and changes the role of exactly the target's entries |
| TeamManagement.WithoutUid | src/components/TeamManagement.jsx:34 | removal drops exactly the target's entries and keeps every other |
| TeamManagement.WithoutUidAppend | src/components/TeamManagement.jsx:34 | removal keeps the survivors in order |
| TeamManagement.WithInvite | src/components/TeamManagement.jsx:118-130 | invite appends one placeholder entry `pending_<email>` without checking for an existing one |
| TeamManagement.RoleChangeKeepsMirror | src/components/TeamManagement.jsx:21-26 | a role change keeps the ordered mirror |
| TeamManagement.RemovalBreaksMirror | src/components/TeamManagement.jsx:34-36 | removal does not touch `memberUIDs`, so even the set mirror breaks |
| TeamManagement.InviteBreaksMirror | src/components/TeamManagement.jsx:127-130 | invite never keeps the ordered mirror |
| TeamManagement.InviteBreaksSetMirror | src/components/TeamManagement.jsx:127-130 | invite breaks the set mirror too |
| TeamManagement.ActorRoleUnchanged | src/components/TeamManagement.jsx:14-37 | a change to someone else's entries leaves the actor's role as it was |
| TeamManagement.RoleChangeAddsNoOwner | src/components/TeamManagement.jsx:21-23 | a change to a non-owner role adds no owner |
| TeamManagement.TeamScreen.constructor | src/components/TeamManagement.jsx:68-73 | the initial state: nothing loaded, role '', invite role editor |
| TeamManagement.TeamScreen.OnSnapshot | src/components/TeamManagement.jsx:96-106 | an existing document is loaded with the actor's role; a missing one changes nothing; loading ends |
| TeamManagement.TeamScreen.HandleRoleChange | src/components/TeamManagement.jsx:14-27 | only an owner acting on another member writes, and then `members` becomes the snapshot's list with the role changed |
| TeamManagement.TeamScreen.HandleRemoveMember | src/components/TeamManagement.jsx:29-37 | only an owner acting on another member writes, and then `members` becomes the snapshot's list without the target |
| TeamManagement.TeamScreen.HandleInvite | src/components/TeamManagement.jsx:111-133 | an empty email, no organization or a role other than owner or admin is rejected; otherwise the placeholder is appended and the email field cleared on success |
| OrgDatabase.Database.AddOrg | migrate.cjs:22-28 | a new organization goes under a fresh id; nothing else changes |
| OrgDatabase.Database.UpdateOrg | src/components/InvitationScreen.jsx:13-17 | an update succeeds exactly when the organization exists, and replaces only it |
| OrgDatabase.Database.CommitMemberUids | migrate.cjs:35-48 | the batch is atomic: it fails as a whole on a missing document, and otherwise sets `memberUIDs` of exactly the batched organizations |
| OrgDatabase.Database.CommitProjectCopies | migrate.js:49-58 | the batch writes each copied project under its own id into the organization's subcollection |
| OrgMigration.MigratedOrg | migrate.cjs:23-28 | part 1's organization mirrors its single owner member |
| OrgMigration.Provision | migrate.cjs:16-31 | part 1 as a left fold over the users: the reference definition that the `Provision*` lemmas and `ProvisionUsers` connect to |
| OrgMigration.ProvisionAppend | migrate.cjs:17-30 | part 1 over two lists of users is part 1 over the first, then over the second |
| OrgMigration.ProvisionKeepsExisting | migrate.cjs:16-31 | part 1 only adds organizations |
| OrgMigration.ProvisionCreatesOnlyMigratedOrgs | migrate.cjs:16-31 | every organization part 1 adds belongs to a listed user who owned none |
| OrgMigration.ProvisionOwnsAll | migrate.cjs:16-31 | after part 1 every listed user owns an organization |
| OrgMigration.ProvisionNoOp | migrate.cjs:19-20 | when every user already owns one, part 1 writes nothing |
| OrgMigration.Repaired | migrate.cjs:40-44 | an organization without an array `memberUIDs` gets the uids of its members, in order; others are untouched |
| OrgMigration.RepairAll | migrate.cjs:37-48 | part 2 repairs each organization and keeps the id set |
| OrgMigration.RepairBatch | migrate.cjs:37-46 | the batch holds an update for exactly the organizations needing one, each the uids of its members, and writing it gives what `RepairAll` gives |
| OrgMigration.RepairEstablishesArrays | migrate.cjs:32-48 | after part 2 every organization has an array, and the repaired ones mirror their members |
| OrgMigration.RepairKeepsWrongArrays | migrate.cjs:40 | an array that disagrees with `members` is left as it is |
| OrgMigration.RepairIdempotent | migrate.cjs:37-48 | a second pass of part 2 has an empty batch and changes nothing |
| OrgMigration.RepairKeepsOwners | migrate.cjs:44 | part 2 changes no owner |
| OrgMigration.Migrate | migrate.cjs:12-50 | the uninterrupted script: part 1 over the first page, then part 2; the reference definition of a full run |
| OrgMigration.MigrateUntil | migrate.cjs:12-52 | the script ended by the first rejected request: the users before it in full, part 2 only when part 1 finished and the commit went through |
| OrgMigration.RerunAfterStop | migrate.cjs:12-52 | running the script again after it stopped at any point gives what one uninterrupted run gives |
| OrgMigration.MigrateTwiceIsOnce | migrate.cjs:12-50 | running the whole script twice is running it once |
| OrgMigration.CollectRepairBatch | migrate.cjs:37-46 | the `forEach` loop builds exactly the specified batch |
| OrgMigration.ProvisionUsers | migrate.cjs:16-31 | the loop of part 1 leaves exactly `Provision` of the page |
| OrgMigration.MigrateData | migrate.cjs:12-52 | the script completes exactly when no request is rejected; it leaves exactly `MigrateUntil` of the table and the stop point, and touches no projects |
| UserMigration.LegacyOrg | migrate.js:35-39 | the earlier script's organization has one owner member and no `memberUIDs` |
| UserMigration.RepairCompletesLegacyOrg | migrate.js:35-39 | the later script's repair turns it into exactly the organization the later script creates |
| UserMigration.StepProperties | migrate.js:26-60 | an owner is skipped; otherwise an organization is created, and a batch copies every old project under its own id only if there are any |
| UserMigration.OrgOnly | migrate.js:35-39 | a failure after the organization write leaves only that write |
| UserMigration.Step | migrate.js:26-60 | one user of the loop: the reference definition that `StepProperties` and `MigrateUser` state properties of |
| UserMigration.RunAll | migrate.js:22-61 | the loop without a failure, as a left fold of `Step` |
| UserMigration.Run | migrate.js:19-65 | the run ended by a failure: the users before it in full, the failing one up to its organization write at most |
| UserMigration.RunAllOwnsAll | migrate.js:22-61 | without a failure every listed user ends up owning an organization, and existing ones are kept |
| UserMigration.RunAllBatchBound | migrate.js:22-61 | each user costs at most one organization and one batch |
| UserMigration.MigrateUser | migrate.js:26-60 | the loop body for one user does exactly one `Step` |
| UserMigration.FailingUser | migrate.js:19-65 | at the failing user only the organization write may have happened |
| UserMigration.MigrateUsers | migrate.js:16-66 | the run leaves exactly `Run` of the page and the failure point, and never deletes old projects |
| App.ScanSnapshot | src/App.jsx:130-137 | the `forEach` over a snapshot as a left fold: the reference definition that `ScanSnapshotProperties` and `OnMaterialsSnapshot` connect to |
| App.ScanStep | src/App.jsx:130-137 | a material raises an alert exactly when it is low on stock and not yet alerted |
| App.ScanSnapshotProperties | src/App.jsx:130-137 | one new id per alert; every low-stock material ends up alerted; ids never repeat |
| App.RescanRaisesNothing | src/App.jsx:130-137 | a second pass over the same snapshot raises nothing |
| App.SessionAlertsOnce | src/App.jsx:86 | within a session each material is alerted at most once |
| App.NotificationCenter.constructor | src/App.jsx:54-75 | the initial state: signed out, loading, the saved notifications |
| App.NotificationCenter.OnAuthChanged | src/App.jsx:81-94 | a sign-in sets the uid and the name, 'Usuario' by default, and starts a new alert session; a sign-out clears the name |
| App.NotificationCenter.AddNotification | src/App.jsx:96-98 | the notification is appended at the end |
| App.NotificationCenter.ClearNotifications | src/App.jsx:151-153 | the list is emptied |
| App.NotificationCenter.OnMaterialsSnapshot | src/App.jsx:122-141 | signed in, the loop raises exactly the alerts of the specified scan and records their ids |

## Left out

- Rendering, routing, sign-in (`src/components/AuthPage.jsx`) and the bell's
  display (`src/components/NotificationBell.jsx`). They hold no logic beyond
  showing state.
- `functions/index.js` and both `firebase.js` configuration files are not
  part of this model: they hold deployment and client setup only.
- The text of notifications and console messages. The model records which
  error message a screen shows, not its wording.
- Real-time propagation, concurrency and the ordering of overlapping
  asynchronous writes. Each handler runs to completion against the store.
- Server timestamps are an integer parameter and `Date.now` ids are not
  modelled. Local storage is modelled only as the saved list handed to
  `App.NotificationCenter.constructor`.
- The project and client subscriptions in `src/App.jsx` only store their
  snapshots, so they are not modelled separately.
- Projects.CalculateProjectBudget: `toFixed(2)` rounding is not modelled.
  The result is the exact value as a parsable string.
- PricingCalculator.PriceOf: the same `toFixed(2)` rounding is not modelled.
- Dashboard.ComputeOverview: `toFixed(2)` on the revenue and the stock is not
  modelled; the figures are exact.
- Materials.BrandThenNameIsTotalPreorder: `localeCompare` is modelled as
  code-point order, because locale collation tables are outside the model.
- Projects.ProjectScreen.HandleEditClick: the `dayjs` reformatting of the
  delivery date is not modelled; the date is taken as stored.
- The project screen's guards on `db` and `userId` are taken to hold, since
  the screens only mount for a signed-in user.
- PricingCalculator.Calculator.HandleSaveBudget: the `!userId` guard is
  taken to hold for the same reason.
- The calculator's plain input setters and its profit margin, which no
  control changes, are not modelled as operations. The select handler is
  modelled as firing on every choice.
- TeamManagement.TeamScreen.constructor: the component looks up its
  organization with a placeholder id and an unused query. The model takes
  the organization id as a parameter.
- The team screen reads `auth.currentUser` in `MemberRow` without importing
  `auth`. The model passes the signed-in identity to the screen instead.
- Organizations.Accepted: a missing `pendingInvites` field is modelled as an
  empty list.
- OrgMigration.Repaired: `members.map` on a document without `members`
  would throw; the model assumes every organization has a member list.
- OrgMigration.MigrateData: a rejected request is modelled as the point where
  the script stops; which request fails is a parameter, not a property of
  the data.
- UserMigration.MigrateUsers: a write error is modelled only as the point
  where the run stops (before or after that user's organization write).
  Errors inside a committed batch are not modelled.
- The `isSubmitting`, `isAddingProject` and `isAddingClient` busy flags
  only disable buttons and are not modelled.
