# Construction project manager: expense, equipment and list-screen logic in Dafny

This project models the logic layer of a construction-project management web
application. Underneath its React screens and Express/Mongoose glue it has five
groups of precise rules, and each group is modelled here, one Dafny module per
source file:

- **Expense record rules** (`ExpenseSchema`, from `backend/models/Expense.js`).
  The Mongoose schema acts as a validator: title, amount, category and date are
  required; category and payment method are closed enumerations; and a missing
  payment method defaults to `cash` before validation. `Save` returns either the
  stored record or every failing path, collected in schema order.
- **Expense aggregation and budget allocation**.
  - `ExpenseTotals` holds the total and per-project spent figures shared by two screens.
  - `ExpenseManagement` covers `frontend/src/components/header.jsx`: the expense
    search, the project budget cards, and the `projectBudgets` map updated by the
    guarded budget submit.
  - `ExpenseReport` covers `frontend/src/components/ExpenseReport.jsx`: the colour
    table, the budget share, the clamped bar and the review flag.
  - `ExpenseEntry` covers `frontend/src/pages/Expenses.jsx`: the fixed 100000
    budget, the multipart body built from the form, and the append and reset after
    a submit.
- **Equipment**.
  - `EquipmentDates` holds `validateDates`, defined once although both screens
    carry a copy.
  - `MachineInventory` covers the inventory screen's filter, remove, and guarded update.
  - `AddMachineForm` covers the add form's field edits, mode buttons, checks and payload.
- **List screens**. `LabourAssignment` (`frontend/src/pages/Assign.jsx`) and
  `UserDashboard` (`frontend/src/pages/UserDashboard.jsx`) are classes that hold
  their lists as sequences. Their methods are the screen's handlers.
- **Navigation** (`frontend/src/components/Header.jsx`): the active-link
  predicate and the scroll threshold.

Shared helpers:

- `Text` provides ASCII lower-casing, `startsWith`, and `includes`. `includes` is
  proved equal to the reference meaning "occurs at some position".
- `Lists` provides `filter`, `map` and the summing `reduce`, with their
  subsequence, membership and partition lemmas.
- `Common` holds `Option` and a server `Result`.

Modelling conventions:

- Amounts are exact `real`s.
- Dates are integer day numbers. An empty date input is `None`.
- A server response is an input parameter of the handler that awaits it: `Result`
  is either the response body or the error's `message`.
- The runtime's number and date formatting functions are function parameters:
  `amount.toString()`, `toLocaleDateString()`, and the ISO day of the assignment
  date. So is the `isNaN`/`parseFloat` reading of the budget text.

Some facts about the code that the model keeps as they are:

- The schema places no sign constraint on `amount`. `NegativeAmountAccepted` and
  `AnyAmountAccepted` prove that zero and negative amounts are stored.
- Nothing trims the title. A required String behaves as it does in Mongoose, so
  an absent title or an empty one is rejected.
- The report's budget share has no zero-budget guard.
- No check is made that a project exists.
- The colour table's keys `transport` and `utilities` are not schema
  categories. The schema's `transportation`, `utility` and `permit` fall back to
  the `other` colour (`ColorTableMismatchesSchema`).

Behaviours of the code kept as lemmas rather than fixed:

- On the assignment screen, a refetch resets `filteredAssignments` to the whole
  list while the search term stays. The shown list is then the whole list until
  the next keystroke (`Fetched`).
- On the user dashboard, adding after a delete can repeat an id
  (`AddAfterDeleteRepeatsId`).

## Model

| member | source | states |
|---|---|---|
| Common.MessageOr | frontend/src/pages/machineInventory.jsx:124 | the server's message when present and non-empty, the fixed fallback otherwise |
| ExpenseSchema.ApplyDefaults | backend/models/Expense.js:22-26 | after defaults a payment method is always present; a supplied one is kept, an absent one becomes `cash` |
| ExpenseSchema.Save | backend/models/Expense.js:3-34 | saved exactly when the schema accepts; a rejection lists the failing paths; a saved record carries the candidate's fields with the default applied |
| ExpenseSchema.AcceptsIff | backend/models/Expense.js:4-26 | accepted iff title present and non-empty, amount present, category in the seven-value enum, date present, and payment method absent or in the five-value enum |
| ExpenseSchema.MissingRequiredNamed | backend/models/Expense.js:4-20 | a missing title, amount, category or date rejects the record with a `required` violation naming that field |
| ExpenseSchema.UnknownCategoryRejected | backend/models/Expense.js:12-16 | a category outside the enum is rejected by the enum validator, never coerced to `other` |
| ExpenseSchema.UnknownPaymentMethodRejected | backend/models/Expense.js:22-26 | a supplied payment method outside its enum is rejected |
| ExpenseSchema.AbsentPaymentMethodIsCash | backend/models/Expense.js:25 | an accepted record with no payment method is stored with `cash` |
| ExpenseSchema.ApplyDefaultsIdempotent | backend/models/Expense.js:25 | applying the default twice is applying it once |
| ExpenseSchema.OptionalFieldsNotRequired | backend/models/Expense.js:21-31 | dropping description, projectId and receipt from an accepted record keeps it accepted |
| ExpenseSchema.AnyAmountAccepted | backend/models/Expense.js:8-11 | replacing the amount of an accepted record by any number keeps it accepted |
| ExpenseSchema.NegativeAmountAccepted | backend/models/Expense.js:8-11 | a record with amount -10 and valid other fields is stored |
| ExpenseSchema.StoredRecordRevalidates | backend/models/Expense.js:3-34 | validating a stored record again stores the same record (normalisation is a fixed point) |
| ExpenseTotals.TotalOfNone | frontend/src/pages/Expenses.jsx:103 | the total of an empty list is 0 |
| ExpenseTotals.TotalAppend | frontend/src/components/header.jsx:110-113 | appending an expense adds exactly its amount to the total |
| ExpenseTotals.SpentAppend | frontend/src/components/header.jsx:319-320 | an appended expense changes a project's spent figure by its amount if and only if its projectId is that project |
| ExpenseTotals.SpentPlusOthers | frontend/src/components/header.jsx:319-320 | a project's spent plus the total of all other expenses is the portfolio total |
| ExpenseTotals.SpentIgnoresOtherProject | frontend/src/components/header.jsx:319-320 | removing another project's expenses does not change a project's spent figure |
| ExpenseTotals.SpentAcrossIgnoresOther | frontend/src/components/header.jsx:318-320 | removing one project's expenses does not change the summed spent figures of a list of projects that leaves it out |
| ExpenseTotals.PortfolioPartition | frontend/src/components/header.jsx:318-320 | for distinct projects, their spent figures plus the unallocated expenses sum to the portfolio total |
| ExpenseManagement.EmptyQueryKeepsAll | frontend/src/components/header.jsx:115-116 | an empty query shows every expense in its original order |
| ExpenseManagement.FilteredIsSubsequence | frontend/src/components/header.jsx:115-126 | the shown expenses are a subsequence of the list |
| ExpenseManagement.FilteredMembership | frontend/src/components/header.jsx:117-125 | an expense is shown iff it is listed and the lower-cased query occurs in its lower-cased title, category or payment method, or in its amount or date text |
| ExpenseManagement.EmptyQueryGuardRedundant | frontend/src/components/header.jsx:116-125 | the empty-query guard changes nothing, since every field contains the empty string |
| ExpenseManagement.CardFigures | frontend/src/components/header.jsx:318-345 | each card: spent sums only its project's expenses, budget is its entry or 0, remaining plus spent is budget, warning iff spent exceeds budget |
| ExpenseManagement.NoExpensesCard | frontend/src/components/header.jsx:319-322 | with no expenses spent is 0 and the whole budget remains |
| ExpenseManagement.UnbudgetedSpendIsOverspent | frontend/src/components/header.jsx:321-345 | a project without a budget entry and positive spend has negative remaining and the warning style |
| ExpenseManagement.OverspentScenario | frontend/src/components/header.jsx:319-345 | budget 1000 against 700 + 500 on the project (and 90 elsewhere) gives spent 1200, remaining -200, warning |
| ExpenseManagement.Allocate | frontend/src/components/header.jsx:95-99 | the keys grow by the project id, that project's budget becomes the value, every other entry is kept |
| ExpenseManagement.AllocateKeepsOtherCards | frontend/src/components/header.jsx:96-99 | allocating one project's budget changes no other project's card |
| ExpenseManagement.ExpenseManagementScreen.constructor | frontend/src/components/header.jsx:12-38 | the initial state: no expenses, empty query, total budget 100000, empty budget map and empty form |
| ExpenseManagement.ExpenseManagementScreen.Loaded | frontend/src/components/header.jsx:46-53 | an array body becomes the list; an object body gives its `expenses` array, or the empty list when it has none; a falsy body leaves the list unchanged |
| ExpenseManagement.ExpenseManagementScreen.LoadFailed | frontend/src/components/header.jsx:54-55 | the error is the server's message when present and non-empty, otherwise `Failed to load expenses` |
| ExpenseManagement.ExpenseManagementScreen.SetSearchQuery | frontend/src/components/header.jsx:176 | the query becomes the input's value, and the table then shows exactly the expenses matching it |
| ExpenseManagement.ExpenseManagementScreen.OpenModal | frontend/src/components/header.jsx:310 | the allocation dialog opens |
| ExpenseManagement.ExpenseManagementScreen.BudgetChange | frontend/src/components/header.jsx:76-86 | the `projectId` input sets the form's project only; any other input sets the budget text only |
| ExpenseManagement.ExpenseManagementScreen.SubmitBudget | frontend/src/components/header.jsx:88-108 | with an empty project id, an empty or a non-numeric amount nothing changes; otherwise the map gets the parsed value for that id only, the texts are cleared, the dialog closes |
| ExpenseReport.CategoryColor | frontend/src/components/ExpenseReport.jsx:6-16 | the colour is always a non-empty value of the table, never undefined |
| ExpenseReport.CategoryColorTable | frontend/src/components/ExpenseReport.jsx:7-14 | the six keys get their table entries |
| ExpenseReport.CategoryColorFallback | frontend/src/components/ExpenseReport.jsx:15 | any key outside the table gets the `other` colour |
| ExpenseReport.ColorTableMismatchesSchema | frontend/src/components/ExpenseReport.jsx:7-15 | transportation, utility and permit are schema categories without a colour of their own; transport and utilities are table keys the schema rejects |
| ExpenseReport.SchemaCategoriesWithOwnColor | frontend/src/components/ExpenseReport.jsx:7-15 | among the schema categories exactly material, labor, equipment and other have their own colour |
| ExpenseReport.BarWidth | frontend/src/components/ExpenseReport.jsx:129 | the bar width is at most 100, equals the percentage up to 100, and is 100 beyond it |
| ExpenseReport.PercentageAtBudget | frontend/src/components/ExpenseReport.jsx:123-129 | for a positive budget the share is at most 100 iff the amount is at most the budget; from the budget on the bar is full |
| ExpenseReport.ReviewBoundary | frontend/src/components/ExpenseReport.jsx:132 | the review warning appears iff the amount exceeds 1000; exactly 1000 is not flagged |
| ExpenseReport.Report | frontend/src/components/ExpenseReport.jsx:3-132 | nothing is rendered without an expense, whatever the budget; otherwise the colour is the category's colour, the share is amount / budget * 100, the bar is that share capped at 100, and the warning appears iff amount > 1000 |
| ExpenseReport.NoExpenseRendersNothing | frontend/src/components/ExpenseReport.jsx:4 | without an expense the dialog renders nothing for every budget, zero included |
| ExpenseEntry.RemainingPlusSpent | frontend/src/pages/Expenses.jsx:177-186 | remaining plus spent is 100000; with no expenses 100000 remains |
| ExpenseEntry.RemainingAfterAdd | frontend/src/pages/Expenses.jsx:181-186 | adding an expense lowers remaining by its amount |
| ExpenseEntry.BuildFormData | frontend/src/pages/Expenses.jsx:65-72 | the loop, with its receipt branch and its general branch, appends exactly the truthy entries in key order |
| ExpenseEntry.SubmittedEntries | frontend/src/pages/Expenses.jsx:66-72 | the body is a subsequence of the form's entries and holds an entry iff its value is truthy |
| ExpenseEntry.ReceiptSentIffSelected | frontend/src/pages/Expenses.jsx:67-70 | a receipt entry is sent iff a file is selected; an empty title is never sent |
| ExpenseEntry.DefaultFormSends | frontend/src/pages/Expenses.jsx:66-91 | a reset form sends exactly category `material`, the date and payment method `cash` |
| ExpenseEntry.ExpenseEntryScreen.constructor | frontend/src/pages/Expenses.jsx:7-23 | the initial state: no expenses and the default form |
| ExpenseEntry.ExpenseEntryScreen.Loaded | frontend/src/pages/Expenses.jsx:25-44 | the expense list becomes the server's list |
| ExpenseEntry.ExpenseEntryScreen.LoadFailed | frontend/src/pages/Expenses.jsx:35-36 | a failed load sets the fixed `Failed to load data` error |
| ExpenseEntry.ExpenseEntryScreen.Submit | frontend/src/pages/Expenses.jsx:61-101 | sends the truthy entries of the old form; on success the response is appended at the end and the form is back to its defaults; on failure list and form are kept and the error is set |
| EquipmentDates.ValidateDatesSpec | frontend/src/pages/machineInventory.jsx:38-41 | a missing date passes; with both present the rule is start < end, so equal dates fail |
| EquipmentDates.ValidateDatesFailsIff | frontend/src/pages/addMachineForm.jsx:40-43 | the rule fails iff both dates are present and end is not after start |
| MachineInventory.UpdateDatesRule | frontend/src/pages/machineInventory.jsx:78-91 | a rented machine needs a valid rental period; another machine is rejected iff both dates are set and maintenance is not after purchase |
| MachineInventory.FilteredMachinesMembership | frontend/src/pages/machineInventory.jsx:222-231 | a machine is listed iff its status passes the filter (All passes all) and the lower-cased query occurs in its name or its location |
| MachineInventory.NoFilterShowsAll | frontend/src/pages/machineInventory.jsx:222-231 | filter All with an empty query lists every machine in order |
| MachineInventory.EmptyQueryFiltersStatusOnly | frontend/src/pages/machineInventory.jsx:225-230 | an empty query leaves only the status filter |
| MachineInventory.RemoveByIdSpec | frontend/src/pages/machineInventory.jsx:48 | removal keeps order and keeps a machine iff its id differs |
| MachineInventory.RemoveAbsentId | frontend/src/pages/machineInventory.jsx:48 | removing an id no machine has changes nothing |
| MachineInventory.ReplaceByIdSpec | frontend/src/pages/machineInventory.jsx:114-118 | the update keeps length; entries with the id become the response, all others are unchanged |
| MachineInventory.ReplaceThenRemove | frontend/src/pages/machineInventory.jsx:114-118 | when the response keeps the id, the rest of the list is exactly as before |
| MachineInventory.InventoryScreen.constructor | frontend/src/pages/machineInventory.jsx:11-18 | the initial state: no machines, filter All, empty query, no dialog |
| MachineInventory.InventoryScreen.Loaded | frontend/src/pages/machineInventory.jsx:22-36 | the list becomes the server's list |
| MachineInventory.InventoryScreen.LoadFailed | frontend/src/pages/machineInventory.jsx:28-29 | a failed load sets the fixed reload error |
| MachineInventory.InventoryScreen.SetFilter | frontend/src/pages/machineInventory.jsx:436 | the status filter becomes the chosen status, and the listed machines are those passing it and the current query |
| MachineInventory.InventoryScreen.SetSearchQuery | frontend/src/pages/machineInventory.jsx:414 | the query becomes the input's value, and the listed machines are those matching it under the current filter |
| MachineInventory.InventoryScreen.RemoveMachine | frontend/src/pages/machineInventory.jsx:43-60 | unconfirmed does nothing; a successful delete removes the id from the list; a failed one sets the error |
| MachineInventory.InventoryScreen.Edit | frontend/src/pages/machineInventory.jsx:70-73 | the dialog opens on the machine |
| MachineInventory.InventoryScreen.UpdateMachine | frontend/src/pages/machineInventory.jsx:75-132 | the update is sent iff the date rules hold; on success entries with the id are replaced and the dialog closes; on failure the error is set |
| AddMachineForm.WithText | frontend/src/pages/addMachineForm.jsx:32-38 | only the named text field changes; dates are untouched |
| AddMachineForm.WithDate | frontend/src/pages/addMachineForm.jsx:32-38 | only the named date field changes; text fields are untouched |
| AddMachineForm.RejectedIff | frontend/src/pages/addMachineForm.jsx:48-62 | rented mode rejects iff both rental dates are set and end is not after start; owned mode iff both dates are set and maintenance is not after purchase |
| AddMachineForm.Payload | frontend/src/pages/addMachineForm.jsx:66-74 | the payload's status is Rented iff rented mode, otherwise Stocked; dates are null when empty and the same day otherwise; other fields are copied |
| AddMachineForm.PayloadStatusFromMode | frontend/src/pages/addMachineForm.jsx:68 | the payload does not depend on what the form's status field held |
| AddMachineForm.AddMachineScreen.constructor | frontend/src/pages/addMachineForm.jsx:9-30 | the initial state: owned mode and the blank form with status Stocked, condition Good |
| AddMachineForm.AddMachineScreen.SetText | frontend/src/pages/addMachineForm.jsx:32-38 | only the named text field of the form changes |
| AddMachineForm.AddMachineScreen.SetDate | frontend/src/pages/addMachineForm.jsx:32-38 | only the named date field of the form changes |
| AddMachineForm.AddMachineScreen.SelectOwned | frontend/src/pages/addMachineForm.jsx:116-119 | owned mode, status Stocked |
| AddMachineForm.AddMachineScreen.SelectRented | frontend/src/pages/addMachineForm.jsx:129-132 | rented mode, status Rented |
| AddMachineForm.AddMachineScreen.AddMachine | frontend/src/pages/addMachineForm.jsx:45-83 | a rejected form sends no payload and shows the matching message; otherwise the mode's payload is posted |
| LabourAssignment.Set | frontend/src/pages/Assign.jsx:30-36 | only the named field of the form changes |
| LabourAssignment.EmptyFormIsAllEmpty | frontend/src/pages/Assign.jsx:108-116 | the reset form is the one whose every field is empty |
| LabourAssignment.SearchSpec | frontend/src/pages/Assign.jsx:141-149 | the search keeps order and keeps an assignment iff its lower-cased project or task code contains the term |
| LabourAssignment.EmptyTermKeepsAll | frontend/src/pages/Assign.jsx:145-148 | an empty term keeps the full list |
| LabourAssignment.AssignScreen.constructor | frontend/src/pages/Assign.jsx:10-28 | the initial state: empty form and lists, not editing |
| LabourAssignment.AssignScreen.InputChange | frontend/src/pages/Assign.jsx:30-36 | only the named form field changes |
| LabourAssignment.AssignScreen.Fetched | frontend/src/pages/Assign.jsx:38-43 | both lists become the fetched list, so the shown list (`Displayed`, the choice at Assign.jsx:401 and 421) is the whole list even under a search term |
| LabourAssignment.AssignScreen.FetchFailed | frontend/src/pages/Assign.jsx:44-45 | the fetch error is set |
| LabourAssignment.AssignScreen.HandleSearch | frontend/src/pages/Assign.jsx:141-150 | the term is stored lower-cased and the shown list (`Displayed`, the choice at Assign.jsx:401 and 421) is the search result, the full list for an empty term |
| LabourAssignment.AssignScreen.Edit | frontend/src/pages/Assign.jsx:67-79 | edit mode starts on the assignment and the form takes its values |
| LabourAssignment.AssignScreen.Submit | frontend/src/pages/Assign.jsx:93-125 | edit mode sends an update for the edited id, otherwise a create; on success the form is empty and edit mode ends |
| LabourAssignment.AssignScreen.CancelEdit | frontend/src/pages/Assign.jsx:127-139 | the form is empty, not editing, no edited assignment |
| UserDashboard.InitialUsers | frontend/src/pages/UserDashboard.jsx:5-11 | five users with ids 1 to 5 |
| UserDashboard.FilteredUsersSpec | frontend/src/pages/UserDashboard.jsx:18-20 | a user is listed iff its name, email or role contains the term ignoring case; order kept |
| UserDashboard.EmptyTermListsAll | frontend/src/pages/UserDashboard.jsx:18-20 | an empty term lists every user |
| UserDashboard.DeleteUserSpec | frontend/src/pages/UserDashboard.jsx:30-32 | delete keeps order and keeps a user iff its id differs |
| UserDashboard.EditUserSpec | frontend/src/pages/UserDashboard.jsx:37-38 | editing keeps length and ids; users with the id take the form's values; others are unchanged |
| UserDashboard.EditKeepsIds | frontend/src/pages/UserDashboard.jsx:38 | the list of ids is the same after an edit |
| UserDashboard.AddUser | frontend/src/pages/UserDashboard.jsx:39 | adding keeps the old list as a prefix and appends one user with id old length + 1 |
| UserDashboard.AddAfterDeleteRepeatsId | frontend/src/pages/UserDashboard.jsx:30-39 | deleting user 1 and adding gives a second user with id 5 |
| UserDashboard.UserDashboardScreen.constructor | frontend/src/pages/UserDashboard.jsx:5-16 | the initial state: the five users, blank form with status Active |
| UserDashboard.UserDashboardScreen.SetSearchTerm | frontend/src/pages/UserDashboard.jsx:173 | the term becomes the input's value, and the listed users are exactly those matching it |
| UserDashboard.UserDashboardScreen.OpenModal | frontend/src/pages/UserDashboard.jsx:22-26 | with no user a blank form with status Active, with a user a copy of it; the modal opens |
| UserDashboard.UserDashboardScreen.CloseModal | frontend/src/pages/UserDashboard.jsx:28 | the modal closes |
| UserDashboard.UserDashboardScreen.SetForm | frontend/src/pages/UserDashboard.jsx:226-255 | the form takes the edited values |
| UserDashboard.UserDashboardScreen.Delete | frontend/src/pages/UserDashboard.jsx:30-32 | the users with the id are removed |
| UserDashboard.UserDashboardScreen.Submit | frontend/src/pages/UserDashboard.jsx:34-42 | an edit replaces the edited id's users; otherwise one user is added; the modal closes |
| Navigation.RootActiveIff | frontend/src/components/Header.jsx:60-63 | the root link is active iff the pathname is exactly `/` |
| Navigation.OtherActiveIff | frontend/src/components/Header.jsx:64-66 | any other link is active iff the pathname starts with it, its own pathname included |
| Navigation.RootNotActiveOnTeam | frontend/src/components/Header.jsx:60-67 | the root link is not active on `/team` |
| Navigation.PrefixIsOnCharacters | frontend/src/components/Header.jsx:64 | `/team` is active on `/teammates` |
| Navigation.ScrolledBoundary | frontend/src/components/Header.jsx:36-42 | 50 is not scrolled, just above 50 is |
| Navigation.ScrolledMonotone | frontend/src/components/Header.jsx:37-41 | once the threshold is passed, any larger offset is scrolled too |

## Left out

- Rendering is not modelled: JSX markup, styling, SVG, animation and the route table. The static pages (home, footer, sidebar, task form, project details) and the PDF export, `window.print` and `IntersectionObserver` are browser or display concerns.
- Network I/O and its timing are not modelled. Each server call's outcome is a handler parameter. Loading flags, `Promise.all`, and the three-second clearing of messages are left out. `window.confirm` is a `confirmed` flag. Navigation after a successful add (`navigate('/machineInventory')`, addMachineForm.jsx:78) is a routing effect and is left out.
- The `localStorage` reads and writes of the budget map and total budget are left out. The map lives in memory only.
- Floating-point arithmetic and number formatting are left out. Amounts are exact reals, and `toFixed` and `toLocaleString` are display only.
- Budget text parsing is not modelled. `isNaN` and `parseFloat` are one `parseNumber` parameter that is assumed to agree on what counts as numeric.
- Date parsing, ISO conversion and locale formatting are left out. Dates are day numbers, and a date string that does not parse is not modelled. Day numbers also mean a time of day cannot break a tie.
- The backend glue is thin Express/Mongoose/multer wrappers with no local logic beyond copying the receipt name: server, routes, controller and upload naming.
- The edit-machine page, the second expense page and the purchase page only copy form state and post it.
- ExpenseSchema.Save: Mongoose's casting of `amount`, `date` and the `projectId` ObjectId is not modelled, because any real, day number or string is taken as already cast. Timestamps and `_id` generation are left out too; the id is a parameter.
- ExpenseReport.Percentage: requires a non-zero total budget, and `Report` requires one only when an expense is given. The source divides without a guard, and the Infinity/NaN a zero budget produces is not modelled.
- Text.ToLower: lower-cases only the ASCII letters A to Z. JavaScript's `toLowerCase` also lower-cases other letters, such as `É` to `é`. The model's search filters therefore do not match case-insensitively on non-ASCII text, where the source's filters do.
- ExpenseReport.CategoryColor: does not model keys inherited from `Object.prototype` (such as `constructor`), which the source's table lookup would return. No schema category is such a key.
- AddMachineForm.WithText: input names are a closed enumeration of the form's fields. An input with a name outside the form, which the source would add as a new key, is not modelled. The same holds for `WithDate` and `LabourAssignment.Set`.
- The inventory edit dialog's field handler (`handleEditInputChange`) is not modelled. The update reads the machine being edited as given.
- The expense page's `handleInputChange` and `handleFileChange` are not modelled. The form is taken as given when submitted.
- Of the management screen's form, only `projectId` is modelled; the other fields play no part in the budget logic.
- The assignment screen's `handleDelete` and task fetch are not modelled: they only delete on the server and refetch.
- `handleEdit` and `handleDelete` on the management screen are referenced but never defined in the source, so they have no behaviour to model.
