# financial-advisor: a functional model of the finance rules

This project models, in Dafny, the logic underneath a small personal-finance
web application in which users record income (`Ingreso`) and expense
(`Gasto`) transactions, group them into categories and look at totals.

What is modelled:

- **The dashboard selector** (`finance-dashboard.tsx`): the conjunctive
  date / kind / category filter over the transaction list, with a date range
  that is inclusive and only applies when both ends are set; the income and
  expense totals and the balance; clearing the filters; the dashboard's own
  add-transaction and add-category list updates.
- **The tabs' list state** (`CategoryTab.tsx`, `TransactionsTab.tsx`):
  append on add, replace-by-id on edit, remove-by-id on delete, the category
  kind filter, the kind-dependent category options and the form reset.
  Every service call is an abstract `Result`; only what a handler does with
  the result is claimed.
- **The API routes** (`api/*/route.ts`) over an abstract relational store:
  the three tables of `src/lib/db.ts` as sequences of rows with their next
  AUTOINCREMENT ids and their NOT NULL / UNIQUE constraints; required-field
  validation with JavaScript truthiness; the transaction listing's WHERE
  clause builder with positional parameters, its evaluation and its date
  ordering; inserts with read-back; the login lookup.

Amounts are integer cents, dates are ordered integer day keys, ids are
integers. A request field is an `Option` (`None` for an absent key or a
null); the text `""` and the number `0` are falsy as in JavaScript. A
`fault` parameter on each handler stands for a database that could not be
opened, which every handler meets first (`await dbPromise` precedes its
checks) and answers with a 500.

Files: `wrappers.dfy` (Option, Result), `seqs.dfy` (filter, find,
replace, sum, subsequence), `sorting.dfy` (descending insertion sort),
`records.dfy` (client records), `dashboard.dfy`, `category_tab.dfy`,
`transactions_tab.dfy`, `store.dfy`, `http.dfy` (responses, truthiness),
`transactions_route.dfy`, `categories_route.dfy`, `usuarios_route.dfy`,
`login_route.dfy`.

## Model

| member | source | states |
|---|---|---|
| Seqs.ReplaceById | src/components/CategoryTab.tsx:68 | same length; elements with the updated id become the update, all others stay in place (both tabs' edit handlers) |
| Seqs.RemoveById | src/components/CategoryTab.tsx:82 | what `filter` leaves: every element whose id differs, each copy kept, in order, and nothing else (both tabs' delete handlers) |
| Seqs.KeptExactlyIsFilter | src/components/TransactionsTab.tsx:39 | the exact-filter description (every passing position kept, every failing one dropped, order kept) determines a list completely: only the filtered list meets it |
| Seqs.RemoveUndoesAppend | src/components/TransactionsTab.tsx:63-93 | deleting an element just appended with a fresh id gives the old list back |
| Seqs.ReplaceWithSelf | src/components/TransactionsTab.tsx:80 | replacing an element whose id is unique by itself changes nothing |
| Dashboard.Visible | src/components/finance-dashboard.tsx:158-165 | the visible list is what `filter` leaves of the transactions: every transaction that passes the date range, the kind and the category tests, each copy kept, in order, and nothing else |
| Dashboard.Summarize | src/components/finance-dashboard.tsx:158-169 | the rows are the visible list; income is the sum of the visible `Ingreso` amounts and expenses of the `Gasto` ones; the balance is income minus expenses and also the signed sum of the visible rows; a `Gasto` kind filter gives zero income and an `Ingreso` one zero expenses |
| Dashboard.IncomePlusExpenses | src/components/finance-dashboard.tsx:167-168 | since every transaction is `Ingreso` or `Gasto`, the two totals add up to the sum of all amounts |
| Dashboard.BalanceIsSignedSum | src/components/finance-dashboard.tsx:167-169 | income minus expenses equals the sum of amounts counted positive for income and negative for expenses |
| Dashboard.ExpenseFilterHasNoIncome | src/components/finance-dashboard.tsx:162-168 | with the kind filter on `Gasto` the income total is 0 and the expense total is the whole visible sum |
| Dashboard.IncomeFilterHasNoExpenses | src/components/finance-dashboard.tsx:162-168 | with the kind filter on `Ingreso` the expense total is 0 and the income total is the whole visible sum |
| Dashboard.KindFilterTotals | src/components/finance-dashboard.tsx:162-168 | a single-kind filter zeroes the other kind's total |
| Dashboard.ClearedShowsAll | src/components/finance-dashboard.tsx:150-165 | with no range, `Todos` and `Todas` every transaction is visible, in order |
| Dashboard.OneBoundIsNoBound | src/components/finance-dashboard.tsx:159-161 | a range with only one end set filters exactly like no range |
| Dashboard.RangeIsInclusive | src/components/finance-dashboard.tsx:159-161 | a transaction dated on either end of the range passes the date test |
| Dashboard.TwoTransactionExample | src/components/finance-dashboard.tsx:158-169 | income 100 and expense 40: the `Gasto` filter keeps only the expense; no filter gives 100, 40 and balance 60 |
| Dashboard.TxRequest | src/components/finance-dashboard.tsx:104-114 | no request without a user; the body carries the form and the user, and the id of the first category whose name is the form's, or none when no category has it |
| Dashboard.AddTransaction | src/components/finance-dashboard.tsx:102-124 | no user: nothing changes; success: the returned record is appended at the end and the form reset; failure: only the error is set |
| Dashboard.AddCategory | src/components/finance-dashboard.tsx:127-148 | the same for categories, resetting the form to an empty `Gasto` category |
| Dashboard.AddedCategoryIsFound | src/components/finance-dashboard.tsx:113-144 | a category added under a new name is the one a later transaction request with that name points to, and the totals do not move |
| Dashboard.ClearFilters | src/components/finance-dashboard.tsx:150-156 | the filters become no range, `Todos` and `Todas`, nothing else in the state changes, and the visible list is the whole transaction list |
| Dashboard.AppendUpdatesTotals | src/components/finance-dashboard.tsx:119-169 | appending a transaction adds it to the visible list and its signed amount to the balance exactly when it passes the filters |
| Dashboard.AddTransactionMovesBalance | src/components/finance-dashboard.tsx:119-169 | after a successful add the balance moves by the new transaction's signed amount when it is visible, and not otherwise |
| CategoryTab.FilterCategories | src/components/CategoryTab.tsx:34-40 | `Todos` returns the list unchanged; a kind leaves what `filter` leaves: every category of that kind, each copy kept, in order |
| CategoryTab.Init | src/components/CategoryTab.tsx:22-32 | the tab starts with a blank `Gasto` form, no edit, no pending deletion, no error, the selector on `Todos` and every category shown |
| CategoryTab.Refresh | src/components/CategoryTab.tsx:42-44 | after the effect runs the shown list agrees with the selector, and only the shown list changed |
| CategoryTab.SelectKind | src/components/CategoryTab.tsx:42-44 | choosing a kind sets the selector and re-filters the shown list; nothing else changes |
| CategoryTab.AddCategory | src/components/CategoryTab.tsx:48-60 | empty user: no change; success appends the returned category, resets the form to name `""` and kind `Gasto`, re-filters the shown list and changes nothing else; failure sets the error message only |
| CategoryTab.EditCategory | src/components/CategoryTab.tsx:62-75 | nothing under edit: no change; success replaces by id, keeping length and all other elements, closes the edit, re-filters the shown list and changes nothing else; failure sets the error message only |
| CategoryTab.DeleteCategory | src/components/CategoryTab.tsx:77-89 | no user or no (or zero) id: no change; success leaves what `filter` leaves of the categories without that id, clears the id, re-filters the shown list and changes nothing else; failure sets the error message only |
| CategoryTab.HandlersKeepSettled | src/components/CategoryTab.tsx:42-89 | every handler leaves the shown list in step with the selector |
| TransactionsTab.OptionsFor | src/components/TransactionsTab.tsx:39 | the options for a kind are what `filter` leaves: every category of that kind, each copy kept, in order |
| TransactionsTab.Init | src/components/TransactionsTab.tsx:23-34 | the tab starts with the given transactions, a blank form dated today on `Gasto`, no edit, no pending deletion, and exactly the `Gasto` categories as options |
| TransactionsTab.ChangeKind | src/components/TransactionsTab.tsx:37-40 | a kind change sets the kind, clears the category, offers exactly that kind's categories and changes nothing else |
| TransactionsTab.PayloadFor | src/components/TransactionsTab.tsx:47-60 | no payload when no category carries the chosen name; otherwise the fields are the form's and the category id is the first match's |
| TransactionsTab.AddTransaction | src/components/TransactionsTab.tsx:42-71 | no current category of the form's kind with the chosen name: no change; success appends the result, resets form and options to `Gasto` and changes nothing else; failure: no change (the corrected lookup of the finding below) |
| TransactionsTab.EditTransaction | src/components/TransactionsTab.tsx:74-86 | nothing under edit or failure: no change; success replaces by id and closes the edit, nothing else changes |
| TransactionsTab.DeleteTransaction | src/components/TransactionsTab.tsx:88-99 | no (or zero) id or failure: no change; success leaves what `filter` leaves of the transactions without that id, clears the id and changes nothing else |
| TransactionsTab.EditOptions | src/components/TransactionsTab.tsx:264 | nothing under edit: no options; otherwise what `filter` leaves: every category of the edited transaction's kind, each copy kept, in order |
| TransactionsTab.EditOptionsAgreeWithForm | src/components/TransactionsTab.tsx:264 | the edit dialog offers a transaction the same categories, in the same order, as the add form offers for its kind |
| TransactionsTab.HandlersKeepOptions | src/components/TransactionsTab.tsx:30-67 | through every handler the options stay those of the form's kind |
| TransactionsTab.PayloadCategoryFromOptions | src/components/TransactionsTab.tsx:39-59 | only under the hypothesis that category names are unique: a name picked from the options yields, through the lookup over all categories, a category of the form's kind |
| TransactionsTab.PayloadMayNameOtherKind | src/components/TransactionsTab.tsx:47 | two categories named alike, one per kind: with the `Gasto` one picked, the lookup over all categories names the `Ingreso` one, while the corrected lookup names the `Gasto` one |
| TransactionsTab.CandidatePayloadHasFormKind | src/components/TransactionsTab.tsx:39-59 | looked up among the current categories of the form's kind, the payload's category carries the chosen name and the form's kind, whatever the names |
| TransactionsTab.LookupsAgreeOnUniqueNames | src/components/TransactionsTab.tsx:47 | with unique names and the name carried by a current category of the form's kind, the corrected lookup and the lookup over all categories give the same payload |
| TransactionsTab.StaleNameFindsNothing | src/components/TransactionsTab.tsx:47-51 | a name no current category carries is found by neither lookup, so the add stops as the source does |
| Store.InsertUser | src/lib/db.ts:25-32 | the insert succeeds iff uid, name and e-mail are non-NULL and neither uid nor e-mail is taken; it appends the row with the next id, `rol` possibly NULL |
| Store.InsertUserKeepsValid | src/lib/db.ts:25-32 | a successful user insert keeps ids fresh and uid and e-mail unique |
| Store.EmptyIsValid | src/lib/db.ts:24-52 | the freshly created store satisfies the invariant |
| Store.UserByUid | src/app/api/auth/login/route.ts:13 | finds a user with that uid iff one exists |
| Store.CategoryById | src/app/api/categories/route.ts:37 | finds a category with that id iff one exists |
| Store.TxById | src/app/api/transactions/route.ts:61 | finds a transaction with that id iff one exists |
| Store.UidIdentifiesUser | src/lib/db.ts:27 | in a valid store the uid lookup returns the one user with that uid |
| Store.InsertCategoryReadBack | src/app/api/categories/route.ts:32-37 | the new id is fresh, the store stays valid, and reading it back gives exactly the inserted row |
| Store.InsertTransactionReadBack | src/app/api/transactions/route.ts:56-61 | the new id is fresh, the store stays valid, and reading it back gives exactly the inserted row |
| Sorting.SortDesc | src/app/api/transactions/route.ts:36 | a permutation of its input whose dates never increase |
| TransactionsRoute.BuildListSql | src/app/api/transactions/route.ts:18-34 | the owner clause comes first with the owner as first parameter, and placeholders and parameters are equal in number |
| TransactionsRoute.BuiltSqlClauses | src/app/api/transactions/route.ts:21-34 | the date clause is present iff both dates are, binding them in order; the kind clause iff a kind other than `Todos` is given; the category clause iff a category other than `Todas` is; order is owner, date, kind, category |
| TransactionsRoute.BuiltSqlSelectsWanted | src/app/api/transactions/route.ts:18-34 | the built statement accepts a row iff it is the owner's, inside the inclusive range when both ends are set, of the kind and of the category when those are active |
| TransactionsRoute.Execute | src/app/api/transactions/route.ts:36-38 | binding fails iff there are more parameters than placeholders; otherwise the matching rows, sorted by date descending |
| TransactionsRoute.ListTransactions | src/app/api/transactions/route.ts:4-45 | no owner: 400 before any query; otherwise 200 (the built statement never fails to bind) |
| TransactionsRoute.ListingIsWanted | src/app/api/transactions/route.ts:14-40 | a listing holds exactly the wanted rows, each as often as stored, all of the owner, newest first |
| TransactionsRoute.CreateTransaction | src/app/api/transactions/route.ts:47-68 | any of the six fields falsy: 400 and the store unchanged; otherwise 201 after the insert |
| TransactionsRoute.CreateReturnsInsertedRow | src/app/api/transactions/route.ts:56-63 | on a valid store the 201 carries the fresh-id row with every field equal to the body's, and the store stays valid |
| TransactionsRoute.ZeroAmountRejected | src/app/api/transactions/route.ts:52-54 | an amount of 0 is refused with 400 like a missing one |
| CategoriesRoute.ListCategories | src/app/api/categories/route.ts:4-21 | no owner: 400; otherwise 200 with what `filter` by owner leaves of the store: every category of the owner, each row kept, in store order, and nothing else |
| CategoriesRoute.NoCategoriesIsEmptyList | src/app/api/categories/route.ts:14-16 | an owner with no categories gets an empty list, not an error |
| CategoriesRoute.CreateCategory | src/app/api/categories/route.ts:23-44 | missing name, kind or owner: 400 and no insert; otherwise 201 after the insert, whatever the kind text |
| CategoriesRoute.CreateReturnsInsertedRow | src/app/api/categories/route.ts:32-39 | on a valid store the 201 carries the fresh-id row with the body's fields, and the store stays valid |
| CategoriesRoute.CreatedIsListed | src/app/api/categories/route.ts:14-39 | a created category appears in its owner's listing afterwards |
| UsuariosRoute.ListUsers | src/app/api/usuarios/route.ts:5-15 | every stored user, unfiltered |
| UsuariosRoute.CreateUser | src/app/api/usuarios/route.ts:18-33 | with no validation of its own, the POST succeeds exactly when the insert is allowed (no NULL required field, no taken uid or e-mail) and the store is then exactly the insert's result; otherwise 500 with the store unchanged; success answers only a message |
| UsuariosRoute.CreateUserKeepsValid | src/app/api/usuarios/route.ts:23-31 | one POST, successful or not, keeps the store valid |
| UsuariosRoute.CreateAllKeepsValid | src/lib/db.ts:27-29 | after any sequence of user POSTs uid and e-mail are still each unique |
| UsuariosRoute.CreatedUserIsFound | src/app/api/usuarios/route.ts:23-28 | a user created by POST is found again by its uid |
| LoginRoute.Login | src/app/api/auth/login/route.ts:4-27 | no uid: 400 before any lookup; 404 iff no user has the uid; a registered uid gets 200 with the id, name, e-mail and role of a user with that uid |
| LoginRoute.LoginFindsTheUser | src/app/api/auth/login/route.ts:13-22 | in a valid store a registered uid logs in as exactly that user |

## Left out

- Rendering, dialogs, loading flags and navigation: not logic.
- `localStorage` and the two login screens: browser storage and calls to a remote service.
- The fetch wrappers (`apiServices.ts`, `transactionsApiServices.ts`): network plumbing; each service call is an abstract `Result`. `CategoryTab.tsx` imports `updateCategory` and `deleteCategory`, which `apiServices.ts` does not export, `CategoryTab.tsx` calls `addCategory` with the form alone where it takes the category and the user id, and `TransactionsTab.tsx` calls `addTransaction` with one argument where it takes three; so only the state changes on a successful result are claimed, not that a call succeeds.
- The dashboard's initial loading of categories and transactions (`finance-dashboard.tsx` lines 64-99): network I/O; the lists are the state's inputs.
- The dashboard posts its forms under English keys (`description`, `amount`, `name`, ...) while the routes read Spanish ones (`descripcion`, `monto`, `nombre`, ...); this key drift is not modelled, and the model uses one record shape.
- The `creado_en` timestamp and the database bootstrap (file check, `CREATE TABLE`): the schema is used only as the store's shape and constraints. Foreign keys are not enforced because SQLite does not enforce them by default.
- The single-row routes `src/app/api/categories/[id]/route.ts` and `src/app/api/transactions/[id]/route.ts` (server-side read, update and delete by id): outside the modelled core; the tabs' list updates after a successful update or delete are modelled instead.
- `next.config.mjs`: deployment configuration.
- Floating point and `toFixed` formatting: amounts are exact integer cents; `parseFloat` of an empty box (NaN) is the absent amount `None`.
- Date parsing and time zones: dates are integer day keys, so `BETWEEN` on date text and `new Date` comparisons become integer comparisons.
- SQL text, SQLite type affinity (a text `userId` compared with an integer column) and collation: the statement is a clause list with typed parameters.
- The order of rows with equal dates under `ORDER BY fecha DESC`, and of rows under a `SELECT` without `ORDER BY`, is unspecified in SQLite; the model fixes the stable order and the store order.
- A request body that is not JSON, or a field of the wrong JSON type: the body is given already decoded.
- Store failures other than an unavailable database (the `fault` parameter) and the modelled constraint and binding errors; the server-side logging of errors.
- `console.error` output of the transactions tab and the error banners' rendering.
- Both tabs declare the id held for deletion as text, while the value put there is a record's numeric id; ids are compared as integers here.
- Concurrent requests and several open tabs: out of scope.
- TransactionsTab.HandlersKeepOptions: holds for a fixed category list only; the transactions tab has no effect that recomputes its options when its `categories` input changes, so after such a change the options are stale until the next kind change or add.
- TransactionsTab.AddTransaction: looks the chosen name up among the current categories of the form's kind, not among all categories as the source does. The two agree whenever names are unique and some current category of the form's kind carries the name (`TransactionsTab.LookupsAgreeOnUniqueNames`), and neither finds a name that no current category carries, e.g. one left in stale options after a delete or rename (`TransactionsTab.StaleNameFindsNothing`). They differ when the name belongs only to a category of the other kind: the source then sends that category, the model sends nothing. The finding below records the repeated-name case.
- TransactionsRoute.ListTransactions: its own contract states only the status codes; what the 200 listing holds is stated by `TransactionsRoute.ListingIsWanted`.

## Findings

| source | as written | input that shows it | evidently intended | confidence | as-written member | corrected member |
|---|---|---|---|---|---|---|
| src/components/TransactionsTab.tsx:47 | the category id for a new transaction is the first category, of any kind, whose name is the chosen one | categories `(1, "Varios", Ingreso)` and `(2, "Varios", Gasto)`, form on `Gasto` with `Varios` picked from the offered options: the payload names category 1, an income category, for an expense | the id of the option that was picked, a category of the form's kind | medium, not executed | TransactionsTab.PayloadMayNameOtherKind | TransactionsTab.CandidatePayloadHasFormKind |
