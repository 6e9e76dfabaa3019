# Expense tracker, modelled in Dafny

This project models the logic of a personal expense tracker. The tracker has a React client and an Express/MongoDB server.

- **Client state.** It keeps two pieces of state:
  - the authentication state, driven by a four-action reducer and restored at start-up from stored values;
  - the expense state, which mirrors the server's expenses and budgets through a reducer, with fetches and mutations that dispatch to it.
- **Client views.** These derive from the expense state:
  - the expense list, with its five filters, sorting, sort toggle and CSV export;
  - the dashboard, with month totals, budget status and alerts, the five most recent transactions, the seven-day bar data and the category boxes;
  - the budget list, with month spending, alerts and budget cards;
  - the settings page's CSV export over a date range;
  - the expenses page, with its search, sort and add form.
- **Client forms.** Three forms validate their text fields: the expense form, the budget form and the registration form.
- **Server stores.** The server keeps per-user collections:
  - of expenses, with listing, lookup, create, update, delete and a per-category summary;
  - of budgets, unique per user and category, with create, update, delete and a budget summary;
  - of users, with signup and login.
- **Server middleware.** Two token checks decide whether a request reaches its handler.

How the pieces are modelled:

- **Amounts** are `real`. JavaScript numbers that can become infinite or NaN (a percentage, `Number(...)` of a text) are `Util.Num`.
- **Client dates** are ISO day strings compared as text, the way the source compares them. **Server dates** are integer timestamps.
- **Reducers, derivations and validators** are functions and small methods.
- **The server collections** are classes whose `seq` fields the request methods reassign.
- **In-place sorts** are a verified insertion sort on an `array`.
- **External results are parameters:**
  - password hashing, token signing and verification, and `validator.isEmail`;
  - number parsing and printing, and date formatting;
  - "now" and "today", and the outcome of every network call.

One module per source file:

- Client:
  - `Types` (client/src/types/index.ts)
  - `AuthContext`
  - `ExpenseContext`
  - `ExpenseList`
  - `Dashboard`
  - `BudgetList`
  - `Settings`
  - `ExpensesView` (Expenses.tsx)
  - `ExpenseForm`
  - `BudgetForm`
  - `RegisterForm` (Register.tsx)
- Server:
  - `Models` (the three schemas)
  - `BudgetController`
  - `ExpenseController`
  - `AuthController`
  - `AuthMiddleware`
- Shared helpers:
  - `Util`: sequences, strings, JavaScript numbers and text order.
  - `Sorting`: `Array.prototype.sort` with a compare function.
  - `Views`: the folds the client views share.
  - `Dates`: ISO day strings.
  - `Csv`: the CSV text both exports build.

Where a behaviour differs from the obvious reading, the model follows the code:

- `User.findOne({ email })` runs the schema's trim and lower-case setters on the queried value, so a login finds the user whatever case the email is typed in.
- The budget list alerts on the unrounded percentage (80% or more spent). The dashboard alerts on the rounded one (79.5% or more).
- The expenses page's sort button flips the field and the direction together. Only two of its four orders can therefore be reached.
- The registration form validates the fields as typed, not the trimmed values it has just stored. Since its checks trim again, the outcome is the same.

## Model

| member | source | states |
|---|---|---|
| AuthContext.LoginIsRegister | client/src/context/AuthContext.tsx:44-52 | a successful login and a successful registration give the same state: signed in as that user with that token and no error |
| AuthContext.LogoutKeepsError | client/src/context/AuthContext.tsx:53-59 | logging out signs out and drops user and token, keeps the error as it was, and is idempotent |
| AuthContext.AuthErrorOnlyError | client/src/context/AuthContext.tsx:60-64 | an authentication error records its message and changes nothing else, the sign-in status included |
| AuthContext.ClearErrorIdempotent | client/src/context/AuthContext.tsx:65-69 | clearing the error empties it, changes nothing else, and is idempotent |
| AuthContext.InitialSignedOut | client/src/context/AuthContext.tsx:33-38 | the initial state is signed out with user, error and token all null, and is session-consistent |
| AuthContext.ReducePreserves | client/src/context/AuthContext.tsx:42-73 | every action keeps "signed in exactly when a user and a token are held" |
| AuthContext.RunPreserves | client/src/context/AuthContext.tsx:42-73 | every sequence of actions from a consistent state ends consistent |
| AuthContext.CheckAuth | client/src/context/AuthContext.tsx:82-95 | a login action is dispatched exactly when both the stored token and the stored user are present and non-empty, with the parsed stored user and the stored token |
| AuthContext.StartupRestores | client/src/context/AuthContext.tsx:81-98 | after start-up the client is signed in exactly when both stored values exist, and then as the stored user with the stored token and no error |
| AuthContext.LoginOutcome | client/src/context/AuthContext.tsx:101-142 | login succeeds exactly on an OK answer, dispatching the answer's user and token; a refused answer records the server's message or "Login failed", a thrown request "Login failed. Please check your connection." |
| AuthContext.RegisterOutcome | client/src/context/AuthContext.tsx:145-191 | the same for registration, with `REGISTER_SUCCESS` and the "Registration failed" messages |
| AuthContext.FailedLoginKeepsSession | client/src/context/AuthContext.tsx:113-118 | a failed login leaves status, user and token as they were and always records a non-empty message |
| AuthContext.LoginThenRestart | client/src/context/AuthContext.tsx:121-132 | what a login stores is what start-up restores: with a user reader that undoes the writer, a restart gives the state the login produced |
| ExpenseContext.InitialState | client/src/context/ExpenseContext.tsx:38-49 | empty lists, not loading, no error, and the range from the month's first day to today |
| ExpenseContext.AddExpenseAppends | client/src/context/ExpenseContext.tsx:61-65 | `ADD_EXPENSE` appends the payload at the end; the earlier expenses and every other field are unchanged |
| ExpenseContext.DeleteExpenseRemoves | client/src/context/ExpenseContext.tsx:66-72 | `DELETE_EXPENSE` keeps exactly the expenses with another id, in order (it distributes over concatenation), and changes no other field |
| ExpenseContext.DeleteExpenseIdempotent | client/src/context/ExpenseContext.tsx:66-72 | deleting the same id twice is deleting it once |
| ExpenseContext.UpdateExpenseReplaces | client/src/context/ExpenseContext.tsx:73-79 | `UPDATE_EXPENSE` replaces exactly the expenses with the payload's id, keeps the length and every other entry |
| ExpenseContext.UpdateUnknownIdNoChange | client/src/context/ExpenseContext.tsx:73-79 | an update whose id nobody has leaves the state unchanged |
| ExpenseContext.UpdateBudgetByCategory | client/src/context/ExpenseContext.tsx:90-96 | `UPDATE_BUDGET` replaces every budget of the payload's category, whatever its id, and no other |
| ExpenseContext.DeleteBudgetByCategory | client/src/context/ExpenseContext.tsx:97-103 | `DELETE_BUDGET` removes every budget of that category and keeps all others |
| ExpenseContext.AddBudgetAllowsDuplicate | client/src/context/ExpenseContext.tsx:85-89 | `ADD_BUDGET` appends without looking for the category, so two budgets of one category can result |
| ExpenseContext.SetActionsOwnField | client/src/context/ExpenseContext.tsx:80-126 | each `SET_*` action changes its own field only, and an unknown action changes nothing |
| ExpenseContext.RunSteps | client/src/context/ExpenseContext.tsx:132 | dispatching a sequence of actions applies them one after another |
| ExpenseContext.DatePart | client/src/context/ExpenseContext.tsx:169 | the part of an ISO timestamp before the first `T`: a prefix of it that holds no `T` |
| ExpenseContext.DatePartOfTimestamp | client/src/context/ExpenseContext.tsx:169 | the day of `day + "T" + time` is `day`, and cutting twice is cutting once |
| ExpenseContext.ToClientExpense | client/src/context/ExpenseContext.tsx:164-170 | a server expense becomes a client expense with `id := _id`, the same description, amount and category, and the date cut to its day |
| ExpenseContext.ToClientBudget | client/src/context/ExpenseContext.tsx:198-202 | a server budget becomes a client budget with `id := _id` and the same category and amount |
| ExpenseContext.ToClientExpenses | client/src/context/ExpenseContext.tsx:164-170 | the reshaped list has the same length and reshapes each record at its position |
| ExpenseContext.ToClientBudgets | client/src/context/ExpenseContext.tsx:198-202 | the same for budgets |
| ExpenseContext.FetchExpenses | client/src/context/ExpenseContext.tsx:144-179 | without a session and a token nothing is dispatched; otherwise loading, then the reshaped list or "Failed to load expenses", then done loading |
| ExpenseContext.FetchBudgets | client/src/context/ExpenseContext.tsx:181-211 | the same for budgets, with "Failed to load budgets" |
| ExpenseContext.FetchExpensesEffect | client/src/context/ExpenseContext.tsx:144-179 | a completed fetch ends not loading; on success the list is the reshaped reply and the error is untouched, on failure the list is untouched and the error is set |
| ExpenseContext.Mutate | client/src/context/ExpenseContext.tsx:233-269 | a mutation is refused with `false` and no action when signed out; otherwise it is loading (and for budgets a cleared error), then the success action or the error, then done loading, and it reports success exactly when the request succeeded |
| ExpenseContext.AddExpenseCall | client/src/context/ExpenseContext.tsx:233-269 | `addExpense` returns `false` with no action when signed out, and otherwise succeeds exactly when the request does |
| ExpenseContext.DeleteExpenseCall | client/src/context/ExpenseContext.tsx:272-296 | the same for `deleteExpense` |
| ExpenseContext.UpdateExpenseCall | client/src/context/ExpenseContext.tsx:299-338 | the same for `updateExpense` |
| ExpenseContext.AddBudgetCall | client/src/context/ExpenseContext.tsx:341-380 | `addBudget` is refused also when no user is held; otherwise its four actions begin by clearing the error, and it succeeds exactly when the request does |
| ExpenseContext.UpdateBudgetCall | client/src/context/ExpenseContext.tsx:383-419 | `updateBudget` is refused when signed out; otherwise four actions, the error cleared first |
| ExpenseContext.DeleteBudgetCall | client/src/context/ExpenseContext.tsx:422-448 | the same for `deleteBudget` |
| ExpenseContext.AddExpenseCallEffect | client/src/context/ExpenseContext.tsx:233-269 | a successful `addExpense` ends with the saved record appended and not loading; a failed one leaves the list and records "Failed to add expense" |
| ExpenseContext.DeleteExpenseCallEffect | client/src/context/ExpenseContext.tsx:272-296 | a successful `deleteExpense` leaves no expense with that id, keeps the others in order and ends not loading; a failed one leaves the list and records "Failed to delete expense" |
| ExpenseContext.UpdateExpenseCallEffect | client/src/context/ExpenseContext.tsx:299-338 | a successful `updateExpense` puts the saved record in place of every expense with its id, keeping the length and every other entry; a failed one leaves the list and records "Failed to update expense" |
| ExpenseContext.AddBudgetCallError | client/src/context/ExpenseContext.tsx:357-376 | a failed `addBudget` leaves both lists and records the server's or thrown message, else "Failed to add budget" |
| ExpenseContext.AddBudgetCallSuccess | client/src/context/ExpenseContext.tsx:362-372 | a successful `addBudget` appends the saved budget and leaves no error |
| ExpenseContext.SignedOutNoChange | client/src/context/ExpenseContext.tsx:144-448 | signed out, neither fetch nor any of the six mutations changes the state, whatever the server's reply, and every mutation reports `false` |
| Models.EnumMatchesClient | server/models/expense.model.js:15-30 | the server's category enumeration is the client's category list, in the same order, and holds every client category |
| Models.NewExpense | server/models/expense.model.js:4-45 | a new expense document exists exactly when the trimmed description is non-empty, an amount is given and the category is in the enumeration; it stores the trimmed description and the date given, or the current time |
| Models.NewBudget | server/models/budget.model.js:4-35 | a new budget document exists exactly when the category is in the enumeration and an amount is given (of any sign), and stores them with its owner |
| Models.NewUser | server/models/auth.model.js:4-34 | a new user exists exactly when the trimmed, lower-cased email is non-empty and passes the email check, the trimmed password keeps at least 7 characters, a trimmed name is non-empty and the currency is non-empty; it stores those normalised values |
| Models.CurrencyField | server/models/auth.model.js:28-33 | a missing currency becomes "USD", a given one is trimmed |
| Models.NormalEmailIdempotent | server/models/auth.model.js:9-10 | trimming and lower-casing an email twice is doing it once, so a stored email normalised again is itself |
| Models.Status | server/controllers/expense.controller.js:81-90 | the HTTP status of each reply kind; exactly the 200 and 201 replies are successes |
| Models.WindowBounds | server/controllers/expense.controller.js:10-14 | each date bound is inclusive and each may be given alone; with none every date is in the window |
| Models.AggregateMatchesNothing | server/controllers/expense.controller.js:119-129 | the summary pipeline's match, comparing the stored owner id with the caller's id as text, selects no expense whoever the caller |
| Models.GroupByCategory | server/controllers/expense.controller.js:130-136 | one group per category that occurs, in first-occurrence order, each with the sum of that category's amounts and its count |
| Models.GroupsNonEmpty | server/controllers/expense.controller.js:130-136 | every group holds at least one expense |
| Models.GroupsPartition | server/controllers/expense.controller.js:130-136 | the group counts add up to the number of grouped expenses and the group totals to their total amount |
| AuthController.Candidate | server/controllers/auth.controller.js:10-18 | the document a signup builds holds the next id, the normalised email, the trimmed hash and a non-empty currency |
| AuthController.CandidateDefaultsCurrency | server/controllers/auth.controller.js:17 | a missing or empty currency is stored as "USD" |
| AuthController.Register | server/controllers/auth.controller.js:13-41 | a rejected document or an email already stored answers 400 and keeps the users; otherwise 201 with the public user (no password) and a token signed over its id for 24 hours, and the document is appended |
| AuthController.Signup | server/controllers/auth.controller.js:6-43 | without a password the hashing throws and the answer is 400 with the users unchanged; otherwise the built document is registered |
| AuthController.SignupDefaultsCurrency | server/controllers/auth.controller.js:17 | a created signup without a currency answers and stores "USD" |
| AuthController.Login | server/controllers/auth.controller.js:46-86 | an unknown email and a wrong password answer the same 401 "Invalid email or password"; a missing password 500; 200 exactly when the first user with that normalised email accepts the password, with its public user (currency defaulting to "USD") and a 24-hour token |
| AuthController.RegisterThenLogin | server/controllers/auth.controller.js:46-86 | logging in right after a registration, with a comparison that accepts the password, answers the registration's user and token |
| AuthController.SignupThenLogin | server/controllers/auth.controller.js:6-86 | with a comparison that accepts a password against its own hash, a login after a signup answers the signup's user and token |
| AuthController.SignupKeepsValid | server/models/auth.model.js:8 | a signup keeps the stored emails unique and every id below the counter |
| AuthController.UserStore.SignupRequest | server/controllers/auth.controller.js:6-43 | runs a signup against the store, which becomes what the signup decided, keeping its invariant |
| AuthController.UserStore.LoginRequest | server/controllers/auth.controller.js:46-86 | runs a login against the store without changing it; an OK answer has status 200 |
| AuthMiddleware.SecondWord | server/middleware/auth.middleware.js:14 | the second space-separated word of the header, when there is one, holds no space |
| AuthMiddleware.SecondWordOf | server/middleware/auth.middleware.js:14 | the word after a scheme and one space is what the split finds, whatever the scheme |
| AuthMiddleware.ReplaceFirst | server/middleware/auth.middleware.js:47 | replacing a string pattern replaces only its first occurrence; a header that starts with it loses exactly that prefix |
| AuthMiddleware.VerifyToken | server/middleware/auth.middleware.js:6-36 | no header, or no second word, answers 401 with its own message; an expired token 401, any other failure 403; the request goes on with the decoded payload exactly when the second word verifies |
| AuthMiddleware.AuthMiddleware | server/middleware/auth.middleware.js:38-77 | every rejection is 401; the request goes on exactly when the header starts with "Bearer ", the rest verifies, the payload has an id and that user exists, and then with its id, email and name (default "User") |
| AuthMiddleware.BearerSameToken | server/middleware/auth.middleware.js:14 | on a well-formed "Bearer" header both middlewares verify the same token |
| AuthMiddleware.OtherSchemeDiverges | server/middleware/auth.middleware.js:43 | a token sent under another scheme passes the first middleware and is refused by the second |
| AuthMiddleware.ExpiredDiverges | server/middleware/auth.middleware.js:31-33 | an expired token gets its own message from the first middleware only |
| AuthMiddleware.Exchange.Apply | server/middleware/auth.middleware.js:25-28 | passing sets `req.user` and calls `next` once; rejecting sends the reply and changes nothing else |
| AuthMiddleware.Exchange.RunVerifyToken | server/middleware/auth.middleware.js:6-36 | runs the first middleware on a request; on a fresh request exactly one of `next` and a reply happens |
| AuthMiddleware.Exchange.RunAuthMiddleware | server/middleware/auth.middleware.js:38-77 | the same for the second middleware |
| BudgetController.AppendKeepsUnique | server/models/budget.model.js:38 | a budget whose owner has none in its category can be added without breaking the unique (category, owner) index |
| BudgetController.BudgetStore.constructor | server/models/budget.model.js:4-38 | the collection starts empty and valid |
| BudgetController.BudgetStore.GetBudgets | server/controllers/budget.controller.js:5-15 | 200 with exactly the caller's budgets, each one stored |
| BudgetController.BudgetStore.Create | server/controllers/budget.controller.js:18-48 | 400 "Budget for this category already exists. Use update instead." and no change when the caller already has one in the category; 500 "Error creating budget" and no change when the schema rejects it; otherwise exactly one new budget owned by the caller is appended and returned with 201, keeping the index |
| BudgetController.BudgetStore.Update | server/controllers/budget.controller.js:51-74 | 404 "Budget not found for this category" and no change when the caller has no budget there; otherwise only that budget's amount changes (a missing amount sets nothing) and the updated budget is returned |
| BudgetController.BudgetStore.Delete | server/controllers/budget.controller.js:77-97 | 404 and no change when there is no such budget; otherwise exactly that one is removed and "Budget deleted successfully" is answered |
| BudgetController.BudgetStore.Summary | server/controllers/budget.controller.js:100-147 | one entry per budget of the caller, in stored order, joined with what the caller spent in its category within the optional inclusive date bounds, 0 for a category without spending |
| BudgetController.BudgetSummaryAsWrittenMissesSpending | server/controllers/budget.controller.js:103-121 | with the match written as in the source, a caller with one spent 12.0 in food is reported 0 spent, while the corrected join reports 12.0 |
| BudgetController.AbsentGroupIsZero | server/controllers/budget.controller.js:134 | a category with no group had nothing spent, so the default of 0 is the true sum |
| BudgetController.Entry | server/controllers/budget.controller.js:133-145 | an entry keeps the category and amount, `remaining` is budget minus spent (and may be negative), `percentUsed` is 0 for a budget of 0 or less and otherwise the spent share capped at 100 |
| BudgetController.EntryEdges | server/controllers/budget.controller.js:135-143 | nothing spent leaves everything remaining at 0 percent; overspending gives a negative remainder and 100 percent |
| ExpenseController.NewestFirstIsPreorder | server/controllers/expense.controller.js:16 | the newest-first comparison is a total preorder, so sorting by it is well defined |
| ExpenseController.LargestTotalFirstIsPreorder | server/controllers/expense.controller.js:145 | the same for largest total first |
| ExpenseController.AppendKeepsValid | server/controllers/expense.controller.js:52-61 | a schema-accepted expense under the counter's id keeps ids distinct and below the counter once it moves on |
| ExpenseController.RemoveKeepsValid | server/controllers/expense.controller.js:97-100 | removing one expense keeps the collection valid |
| ExpenseController.ExpenseStore.constructor | server/models/expense.model.js:4-45 | the collection starts empty and valid |
| ExpenseController.ExpenseStore.GetExpenses | server/controllers/expense.controller.js:4-24 | 200 with a permutation of exactly the caller's expenses within the optional inclusive bounds, newest first |
| ExpenseController.ExpenseStore.GetById | server/controllers/expense.controller.js:27-45 | 200 with the stored expense exactly when the caller owns one with that id; 404 "Expense not found" otherwise; 500 when the text is not an id |
| ExpenseController.ExpenseStore.Create | server/controllers/expense.controller.js:48-68 | 201 exactly when the schema accepts the fields: the stored and returned expense is the schema's document of the submitted fields (the description trimmed, the amount and category as sent, dated as sent or now), owned by the caller under the next id, and appended; otherwise 500 "Error creating expense" and nothing stored |
| ExpenseController.ExpenseStore.Update | server/controllers/expense.controller.js:71-92 | 500 for an id that is not one or a sent field the validators reject; 404 exactly when the caller owns no such expense; otherwise only that expense changes, taking each sent field, and is returned |
| ExpenseController.ExpenseStore.Delete | server/controllers/expense.controller.js:95-113 | 404 exactly when the caller owns no such expense; otherwise exactly that one is removed and "Expense deleted successfully" is answered; nothing changes on any failure |
| ExpenseController.ExpenseStore.Summary | server/controllers/expense.controller.js:116-148 | one group per category among the caller's expenses in the bounds, each non-empty with that category's sum and count, largest total first, the counts adding up to the number of matched expenses |
| ExpenseController.ExpenseSummaryAsWrittenEmpty | server/controllers/expense.controller.js:119-146 | with the match written as in the source the summary is empty for every caller; the corrected one gives a caller with one 12.0 food expense the group (food, 12.0, 1) |
| ExpenseController.Updated | server/controllers/expense.controller.js:75-79 | an updated expense keeps its id and owner, takes each sent field (the description trimmed) and keeps every unsent one |
| Types.Parse | client/src/types/index.ts:29-39 | a string is read as a category only when it is that category's name |
| Types.ParseOnlyNames | client/src/types/index.ts:29-39 | exactly the ten names are categories |
| Types.NameParse | client/src/types/index.ts:29-39 | every category's name reads back as that category |
| Types.CategoriesComplete | client/src/types/index.ts:41-52 | the category list has ten entries, names every category and repeats none |
| Sorting.SortInPlace | client/src/components/ExpenseList.tsx:57-69 | `Array.prototype.sort` with a compare function that is a total preorder: the array ends ordered by it and is a permutation of what it held |
| Sorting.SortedCopy | client/src/components/ExpenseList.tsx:58-68 | sorting a copy (`[...list].sort(...)`) gives a sorted permutation of the list |
| Sorting.SortedPrefix | client/src/components/Dashboard.tsx:411-413 | the first `n` entries of a sorted list are sorted |
| Views.NewestFirstIsPreorder | client/src/components/Dashboard.tsx:412 | the date-descending comparison is a total preorder |
| Views.NewestFirstMeaning | client/src/components/Dashboard.tsx:412 | in a list sorted newest first no date is later than one before it |
| Views.DatedWithin | client/src/components/Settings.tsx:511-513 | kept are exactly the expenses whose day lies within the inclusive bounds, each one from the list |
| Views.SpendingByCategory | client/src/components/Dashboard.tsx:340-343 | the per-category fold gives a map whose keys are exactly the categories that occur and whose values are each category's total |
| Views.MonthSpending | client/src/components/BudgetList.tsx:23-31 | the month's expenses are exactly those dated within its bounds, and their spending map's values add up to the month's total |
| Views.SpentOr0IsSpentIn | client/src/components/Dashboard.tsx:347 | reading the spending map with the default of 0 gives a category's total, whether or not it occurs |
| Views.SpendingMapTotal | client/src/components/Dashboard.tsx:340-343 | the values of a spending map add up to the total of the expenses it was built from |
| Dates.DayString | client/src/components/BudgetList.tsx:20 | the ISO day string `yyyy-MM-dd` of a date has ten characters with dashes at 4 and 7 |
| Dates.PaddedMonth | client/src/components/BudgetList.tsx:20 | `padStart(2, '0')` of a month is its two-digit form |
| Dates.DayStringOrder | client/src/components/BudgetList.tsx:23-25 | comparing ISO day strings as text is comparing the dates in calendar order |
| Dates.DayStringInjective | client/src/components/BudgetList.tsx:23-25 | two day strings are equal exactly when the dates are |
| Csv.Lines | client/src/components/ExpenseList.tsx:143-161 | the file's lines are the header, one joined row per expense in order, and the total line |
| Csv.HeaderLine | client/src/components/ExpenseList.tsx:145 | the header row joins to `Date,Description,Category,Amount` |
| Csv.TotalLine | client/src/components/ExpenseList.tsx:155 | the total row joins to `,,Total,` followed by the total's text |
| Csv.SplitsIntoLines | client/src/components/ExpenseList.tsx:158-161 | when no field holds a line break, splitting the file at line breaks gives back exactly its lines |
| ExpenseList.ResetFilters | client/src/components/ExpenseList.tsx:38-46 | resetting empties all five filter fields |
| ExpenseList.SetFilter | client/src/components/ExpenseList.tsx:30-36 | the named filter field takes the value and the other four stay |
| ExpenseList.FilteredExpenses | client/src/components/ExpenseList.tsx:48-55 | kept are exactly the expenses passing all five checks: the chosen category, a day within the inclusive text bounds, an amount within each inclusive amount bound that parses to a finite number; each is from the list |
| ExpenseList.ResetKeepsAll | client/src/components/ExpenseList.tsx:38-55 | with the filters reset nothing is filtered out |
| ExpenseList.BoundsInclusive | client/src/components/ExpenseList.tsx:50-53 | an expense sitting exactly on every bound is kept, and an amount bound that parses to NaN restricts nothing |
| ExpenseList.SortCmpIsPreorder | client/src/components/ExpenseList.tsx:57-69 | each comparison the table sorts with is a total preorder |
| ExpenseList.KeyCmpMeaning | client/src/components/ExpenseList.tsx:61-62 | the three-way key comparison is at most 0 exactly when the first key is not greater |
| ExpenseList.SortedMeaning | client/src/components/ExpenseList.tsx:57-69 | a sorted table has dates not increasing without a configuration, else the key not decreasing (ascending) or not increasing (descending) |
| ExpenseList.SortedExpenses | client/src/components/ExpenseList.tsx:57-69 | the sorted table is a permutation of the filtered list, ordered by the configured comparison |
| ExpenseList.RequestSort | client/src/components/ExpenseList.tsx:71-77 | the key becomes the sort key, descending exactly when that key was already sorted ascending |
| ExpenseList.RequestSortToggles | client/src/components/ExpenseList.tsx:71-77 | asking for the same key flips the direction, starting ascending; another key starts ascending |
| ExpenseList.ExportCsvLines | client/src/components/ExpenseList.tsx:143-161 | the exported file is the header, each sorted expense as `date,description,category,amount` in order, then `,,Total,` and the total of exactly those expenses |
| ExpensesView.SearchIgnoresCase | client/src/components/Expenses.tsx:155 | a search term matches as its lower-case form does |
| ExpensesView.EmptySearchKeepsAll | client/src/components/Expenses.tsx:153-158 | with an empty search and no category every expense is shown |
| ExpensesView.CmpIsPreorder | client/src/components/Expenses.tsx:159-165 | the page's comparison is a total preorder for either field and direction |
| ExpensesView.CmpMeaning | client/src/components/Expenses.tsx:159-165 | a comparison result of at most 0 means the two are in the chosen field's order in the chosen direction |
| ExpensesView.FilteredExpenses | client/src/components/Expenses.tsx:153-165 | the shown list is a permutation of exactly the matching expenses, ordered by the chosen field in the chosen direction |
| ExpensesView.ToggleSort | client/src/components/Expenses.tsx:208-211 | the sort button changes both the field and the direction |
| ExpensesView.ReachableSorts | client/src/components/Expenses.tsx:133-134 | from the initial newest-first sort only newest first and smallest amount first are ever reached |
| ExpensesView.BlankForm | client/src/components/Expenses.tsx:9-14 | the add form starts with every field empty and today's date |
| ExpensesView.Submit | client/src/components/Expenses.tsx:16-29 | the payload has the fields as typed, the parsed amount and the date as an ISO timestamp, and the form becomes blank again |
| ExpenseForm.InitialForm | client/src/components/ExpenseForm.tsx:17-22 | a new form has nothing typed, the category `food` and today's date |
| ExpenseForm.Preload | client/src/components/ExpenseForm.tsx:30-39 | in edit mode with an expense every field is loaded from it, the amount as its text; otherwise the form stays |
| ExpenseForm.ValidateForm | client/src/components/ExpenseForm.tsx:41-69 | each failing field gets its own message; the form is valid exactly when the trimmed description and the date are non-empty and the amount is a positive number, which is exactly when no message is set |
| ExpenseForm.HandleChange | client/src/components/ExpenseForm.tsx:71-77 | the named field takes the value and the others stay |
| ExpenseForm.HandleChangeKeepsOtherErrors | client/src/components/ExpenseForm.tsx:71-77 | typing into one input never changes another input's message |
| ExpenseForm.HandleSubmit | client/src/components/ExpenseForm.tsx:79-98 | an invalid form calls nothing and stays; otherwise edit mode updates the original expense by its id and any other mode adds one, with the fields as typed and the amount parsed, and the page moves to the expense list |
| BudgetForm.InitialForm | client/src/components/BudgetForm.tsx:17-20 | a new form has the category `food` and no amount |
| BudgetForm.Preload | client/src/components/BudgetForm.tsx:29-36 | in edit mode with a budget both fields are loaded from it; otherwise the form stays |
| BudgetForm.ValidateForm | client/src/components/BudgetForm.tsx:38-58 | the amount checks run in order (missing, not a number, not above 0) and give at most one message; valid exactly when the amount is a number above 0 |
| BudgetForm.HandleChange | client/src/components/BudgetForm.tsx:60-70 | the named field takes the value, the other stays, and both messages end cleared |
| BudgetForm.ChangeAmountsKeepsCategory | client/src/components/BudgetForm.tsx:60-70 | typing any run of amounts leaves the category as it was |
| BudgetForm.EditKeepsCategory | client/src/components/BudgetForm.tsx:142 | in edit mode, where the category select is disabled, the category stays the preloaded budget's one whatever amounts are typed |
| BudgetForm.ThrownMessage | client/src/components/BudgetForm.tsx:114-119 | a thrown save or refresh shows its own message, or the fallback when it has none; never an empty one |
| BudgetForm.HandleSubmit | client/src/components/BudgetForm.tsx:72-123 | an invalid form calls nothing; otherwise edit mode updates under the budget's id and any other mode adds; the page moves to the budget list exactly after a successful save and refresh, and every other outcome shows a server message |
| RegisterForm.ValidateForm | client/src/components/Register.tsx:44-92 | each failing field gets its own message and the currency its own; the form is valid exactly when the trimmed name is non-empty, the trimmed email matches `\S+@\S+\.\S+`, the password has at least 6 characters and equals the confirmation, and a currency is chosen, which is exactly when no message is set |
| RegisterForm.EmailShapedOf | client/src/components/Register.tsx:61 | any non-empty, space-free `a`, `b`, `c` make `a@b.c` pass the email check |
| RegisterForm.EmailShapedShape | client/src/components/Register.tsx:61 | an address that passes has at least five characters, an `@` that is not first, and a `.` after it |
| RegisterForm.HandleChange | client/src/components/Register.tsx:94-100 | the named field takes the value and the others stay |
| RegisterForm.ConfirmationMessage | client/src/components/Register.tsx:74-80 | a typed confirmation has no message exactly when it equals the password, and "Passwords do not match" otherwise |
| RegisterForm.Trimmed | client/src/components/Register.tsx:105-110 | the submitted values trim the name and the email and keep both passwords as typed |
| RegisterForm.TrimmedValidatesAlike | client/src/components/Register.tsx:105-114 | the trimmed form gets exactly the messages of the form as typed, so validating the typed fields in the same submit changes nothing |
| RegisterForm.HandleSubmit | client/src/components/Register.tsx:102-124 | the form shown becomes the trimmed one; nothing is called while any message is set; otherwise `register` gets the trimmed name and email, the password and the currency, and the page moves home exactly when it reports success |
| Settings.DefaultRange | client/src/components/Settings.tsx:453-456 | the export range starts at the first day of the current month and ends today |
| Settings.DefaultRangeIsMonthToDate | client/src/components/Settings.tsx:453-456 | the default range holds exactly the days of this month up to today |
| Settings.SetRangeField | client/src/components/Settings.tsx:458-464 | the named bound takes the value and the other stays |
| Settings.SetRangeFieldOrder | client/src/components/Settings.tsx:458-464 | editing the two bounds in either order gives the same range, and the last edit of one bound wins |
| Settings.ExportCsvLines | client/src/components/Settings.tsx:510-529 | the exported file is the header, each expense dated within the range as `date,description,category,amount` in stored order with the formatted date, then the total of exactly those |
| Dashboard.WindowTotal | client/src/components/Dashboard.tsx:323-337 | a window's total and the total of what it leaves out add up to the overall total, so with no negative amount it never exceeds it |
| Dashboard.AverageDaily | client/src/components/Dashboard.tsx:465 | the month's total spread over the days so far, never dividing by less than one day |
| Dashboard.StatusOf | client/src/components/Dashboard.tsx:346-356 | a status keeps the category and budget, spends the month's spending in it (0 when none), remaining plus spent is the budget, and the percentage is the used share rounded, not clamped; a zero budget shows Infinity, -Infinity or NaN |
| Dashboard.BudgetStatus | client/src/components/Dashboard.tsx:346-356 | one status per budget, in order |
| Dashboard.StatusSpent | client/src/components/Dashboard.tsx:346-356 | over the month's spending map each status's spent and remaining use that category's true month total |
| Dashboard.BudgetAlerts | client/src/components/Dashboard.tsx:416 | the alerts are exactly the statuses at or above 80%, in order |
| Dashboard.AlertThreshold | client/src/components/Dashboard.tsx:348-416 | since the percentage is rounded first, a positive budget is alerted from 79.5% spent, a negative one mirrored, and a zero budget as soon as anything is spent |
| Dashboard.BarWidth | client/src/components/Dashboard.tsx:124 | the bar width is the percentage capped at 100, and an infinite one fills the bar |
| Dashboard.BarColor | client/src/components/Dashboard.tsx:116-122 | red above 90%, yellow above 70%, green otherwise; an alerted bar is never green |
| Dashboard.OverspendShownUnclamped | client/src/components/Dashboard.tsx:113-124 | spending twice the budget shows 200% with an alert and a red bar, while the bar's width is 100% |
| Dashboard.RecentTransactions | client/src/components/Dashboard.tsx:411-413 | at most five expenses from the list, newest first, and none left out is newer than one kept |
| Dashboard.Last7Days | client/src/components/Dashboard.tsx:373-380 | the seven days, oldest first and today last |
| Dashboard.DayTotalIsSumWhere | client/src/components/Dashboard.tsx:388-390 | a day's bar is the sum of the amounts of the expenses dated exactly that day |
| Dashboard.BarData | client/src/components/Dashboard.tsx:387-391 | seven bars, each the total of its day, oldest first |
| Dashboard.CategoryBoxes | client/src/components/Dashboard.tsx:476-481 | six boxes in fixed order, each with its category's all-time total or 0 |
| Dashboard.CategoryBoxTotals | client/src/components/Dashboard.tsx:418-421 | over the all-time spending map each box's figure is that category's total |
| Dashboard.Toggle | client/src/components/Dashboard.tsx:484 | clicking a box selects its category, or clears the selection when it was the selected one |
| Dashboard.ToggleTwice | client/src/components/Dashboard.tsx:484 | from no selection or that box's selection, clicking the same box twice returns to where it started |
| Dashboard.CategoryTransactions | client/src/components/Dashboard.tsx:423-427 | nothing without a selection; otherwise a permutation of exactly the selected category's expenses, newest first |
| BudgetList.StartOfMonthIsDayString | client/src/components/BudgetList.tsx:18-20 | the built first-of-month string is the ISO day string of that day |
| BudgetList.MonthWindow | client/src/components/BudgetList.tsx:23-25 | the month filter keeps exactly the days of this month up to its last day |
| BudgetList.BudgetAlerts | client/src/components/BudgetList.tsx:43-47 | the alerts are exactly the budgets at or above 80% spent before rounding, in order |
| BudgetList.AlertThreshold | client/src/components/BudgetList.tsx:43-47 | a positive budget is alerted once 80% of it is spent, a negative one mirrored, and a zero budget as soon as anything is |
| BudgetList.CardOf | client/src/components/BudgetList.tsx:88-160 | a card shows the month's spending in the category, what remains, the rounded percentage capped at 100, over budget exactly when more was spent, near the limit from a shown 80%, and a rose, amber or emerald bar accordingly |
| BudgetList.OverBudgetFullBar | client/src/components/BudgetList.tsx:88-92 | overspending a positive budget gives a full rose bar at 100% and an alert |
| BudgetList.NearLimitWithoutAlert | client/src/components/BudgetList.tsx:43-92 | 79.6% spent reads 80% with an amber bar yet raises no alert on this page, though the dashboard alerts it |
| AuthController.RegisterKeepsValid | server/models/auth.model.js:8 | registering keeps the stored emails unique, and every id below the counter, advanced past the new user's id when one is created |
| AuthController.UserStore.constructor | server/models/auth.model.js:4-34 | the user collection starts empty and valid |
| AuthMiddleware.Exchange.constructor | server/middleware/auth.middleware.js:38-41 | a request starts with its header, no user attached, no reply sent and `next` not called |
| ExpenseController.ReplaceKeepsValid | server/controllers/expense.controller.js:75-79 | replacing a stored expense by one with the same id that the schema accepts keeps the collection valid |
| ExpenseList.KeyCmpOrder | client/src/components/ExpenseList.tsx:57-69 | the key comparison is total and transitive for every sort key |
| Types.CategoryNames | client/src/types/index.ts:41-52 | the names of the category list, position by position |
| ExpenseContext.RunAppend | client/src/context/ExpenseContext.tsx:132 | dispatching two runs of actions one after the other is dispatching their concatenation |

## Left out

- **Rendering.** JSX rendering, styling, icons and charts are not modelled, including the pie chart's labels and colours. Nor are Layout.tsx, the pages, App.tsx, CurrencySelector.tsx and currencyContext.tsx. These are presentation.
- **Routing.** The server routes and client navigation are reduced to a `navigate` flag. The route order in server/routes/expense.route.js, `/:id` before `/summary/categories`, is not part of this model.
- **Network and storage I/O.**
  - `fetch`, `localStorage`, `Blob` download links, `window.confirm` and page reloads are effects, so their results are parameters.
  - Logout's `localStorage` removal is not modelled; only the `LOGOUT` action is.
  - The budget list's delete confirmation state is not modelled.
- **Concurrency.** The `Promise.all` refresh and its interleaving with mutations are not modelled. Every sequence is run strictly in order.
- **UI flags.** `isLoading` and `isSubmitting` are kept where the reducer holds them and omitted in the forms, where they only disable buttons.
- **Floating point.**
  - IEEE rounding of sums is not modelled: amounts are exact reals.
  - `toString`, `Number(...)` and `parseFloat(...)` are parameters. The client's `toFixed(2)` currency formatting is presentation and is not modelled.
- BudgetController.Entry: `percentUsed` is the capped percentage as a real; the source sends it as the text `Math.min(percentUsed, 100).toFixed(2)`, and that two-decimal formatting is dropped, not passed in as a parameter.
- **Dates and timezones.**
  - `new Date(...)`, `toISOString` and date-fns are outside the model; "today", the month bounds and the formatted dates are parameters.
  - The timezone shift of `toISOString` is not modelled. It affects the budget list's end of month, the settings page's default range and the day cut of server timestamps.
  - The dashboard's month and seven-day filters (client/src/components/Dashboard.tsx:319-337) compare `new Date(expense.date)`, which is midnight UTC, with the local `startOfMonth`, `endOfMonth` and `subDays` bounds. West of UTC an expense dated the first of the month falls before the local start and is dropped. The model compares ISO day strings, so it keeps that expense.
- **Text semantics.**
  - Case folding covers ASCII letters only.
  - JavaScript compares UTF-16 code units; the model compares characters.
- **Sort stability.** `Sorting.SortInPlace` proves the result sorted and a permutation, but not stable.
- **MongoDB.**
  - Collections are sequences of records and queries are filters over them.
  - Casting a path parameter to an ObjectId is a parameter.
  - A unique index is a check made before the insert, and an aggregation is modelled only for the stages the controllers use.
  - A request value is either missing or a well-formed value of its type (`Option`), so present-but-invalid values and the 500s they cause are not modelled. An explicit `null` amount on a budget update (server/controllers/budget.controller.js:51-71), and a `null` amount or date on an expense update (server/controllers/expense.controller.js:75-80), fail the required validators under `runValidators` with a 500; the model treats them as not sent. An unparseable `startDate` or `endDate` becomes an Invalid Date and a cast error with a 500 (server/controllers/expense.controller.js:10-14); the listing and both summaries take the bounds as parsed integers.
- **Library internals.** bcrypt, jsonwebtoken, `validator.isEmail` and `JSON.parse` of the stored user are parameters. jsPDF and autoTable, which build the PDF exports, are not modelled.
- **Dead code.** The commented-out first version of client/src/components/Settings.tsx (lines 1-429) and the unused `verifyToken` export of server/controllers/auth.controller.js (lines 89-101) are not modelled.
- **Expenses page.** client/src/components/Expenses.tsx is mounted by no route, and it dispatches through a `dispatch` the expense context does not provide. Its submit is therefore modelled as the payload it builds, not as a change to the expense state.
- **Registration currencies.** The currency choices listed on the registration page are not modelled; the form only checks that one is chosen.
- **Sorting.SortInPlace:** only the comparisons the client uses are covered. All of them are total preorders, so a comparator that is not one is out of scope.

## Findings

| source | as written | input that shows it | evidently intended | confidence | as-written member | corrected member |
|---|---|---|---|---|---|---|
| server/controllers/budget.controller.js:103-121 | the aggregation's `$match` compares the stored owner id with `req.user.id`, the text of the id, and an aggregation does not cast it, so no expense ever matches | a caller whose id is 7 (claim "7") with one 12.0 expense in food: the aggregated food spending is 0 instead of 12.0, so a food budget shows 0 spent | each budget's spent is the caller's spending in its category | high; not executed | BudgetController.BudgetSummaryAsWrittenMissesSpending | BudgetController.BudgetStore.Summary |
| server/controllers/expense.controller.js:119-146 | the same text-versus-id `$match` in the expense summary | the same caller and expense: the summary is `[]` instead of one food group of 12.0 and count 1 | one group per category of the caller's expenses | high; not executed | ExpenseController.ExpenseSummaryAsWrittenEmpty | ExpenseController.ExpenseStore.Summary |
