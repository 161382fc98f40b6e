# finly accounting core in Dafny

finly is a personal-finance web client. Users keep accounts with balances,
record income and expense transactions in categories, and see a dashboard
and a statistics view. This project models its money-accounting core:

- **Money** (`money.dfy`): amounts converted to whole kopecks (hundredths),
  combined as integers and converted back. Amounts are exact reals and
  kopecks are integers. `From` rounds halves upwards, as `Math.round` does.
- **Records** (`domain.dfy`):
  - categories, transactions, accounts and users;
  - calendar days as `(year, month, day)` in chronological order;
  - the inclusive date-range filter.
- **Dashboard** (`dashboard.dfy`):
  - the built-in categories;
  - checking the transaction form and building the record for a new
    transaction and for an edited one;
  - the income and expense totals and the balance;
  - `groupByCategory`. It is a three-pass method over a dictionary with the
    key and overwrite order of a JavaScript object;
  - the total over all accounts and the clamp on an account's initial
    balance.
- **Statistics** (`stats.dfy`):
  - the per-category totals, where built-in categories are matched by name
    and the user's by id;
  - the month loop, which builds a continuous month axis;
  - the per-month income and expense bars.
- **Reducers** (`reducers.dfy`): the transaction, account and category slices
  as pure functions from a slice and an action to the next slice.
- **Auth** (`auth.dfy`): the authentication slice as a class whose methods
  update `user`, `loading` and `error` in place.
- **Actions** (`actions.dfy`):
  - `fetchTransactions`, `addTransaction`, `fetchCategories`, `addCategory`
    and `deleteCategory`;
  - each runs as a sequential method on a `Store`, which holds the three
    slices, a reference to the auth state and the log of dispatched actions;
  - the REST server is an in-memory `Backend` class;
  - whether each HTTP request goes through is an explicit `Outcome`
    parameter.
- **Scenarios** (`scenarios.dfy`) and **Findings** (`findings.dfy`): worked
  scenarios on concrete data, proved by the verifier, and the discrepancy
  described under "Findings".

Decisions where the model had to choose:

- A new transaction has no `id` until the server assigns one (`id:
  Option<string>`). A transaction saved from the edit form has no category
  name (`category: Option<string>`). An account's `balance` may be missing
  and is then read as 0.
- The reducers compare ids with `===`, so two missing ids compare equal, as
  `undefined === undefined` does.
- Some actions are dispatched but handled by no reducer: the REQUEST and
  FAILURE of adding a transaction, and of adding or deleting a category.
  Their failure messages reach only the log of dispatched actions. That is
  where they are "recorded" here; no slice's `error` changes.
- Per-category breakdown: the source gives no "Unknown" bucket in
  `groupByCategory`. A transaction whose category id names no known category
  of the type contributes nothing. So the breakdown's sum is at most the
  type's total, and equals it when every id resolves (`GroupTotalBound`).
- Wiring: `src/app/store.js` registers only the auth, account and
  transaction reducers. The model's `Store` combines all three slices with
  the auth state, as the thunks and the dashboard read them.

## Model

| member | source | states |
|---|---|---|
| Money.From | src/utils.js:2 | the kopecks are the nearest integer to v·100, halves rounded upwards |
| Money.To | src/utils.js:3 | the amount times 100 is exactly the kopecks |
| Money.FromTo | src/utils.js:2-3 | kopecks → amount → kopecks is the identity |
| Money.ToFrom | src/utils.js:2-3 | an amount with at most two decimals → kopecks → amount is the identity |
| Money.ToIsCents | src/utils.js:3 | every amount `to` yields has at most two decimals |
| Money.AddCommutes | src/utils.js:4 | `add(a, b) == add(b, a)` |
| Money.Add | src/utils.js:4 | the sum has at most two decimals, and its kopecks are exactly the sum of the operands' kopecks |
| Money.Subtract | src/utils.js:5 | the difference has at most two decimals, and its kopecks are exactly the difference of the operands' kopecks |
| Money.SubtractUndoesAdd | src/utils.js:4-5 | `subtract(add(a, b), b) == round(a)` |
| Money.AddUndoesSubtract | src/utils.js:4-5 | for `a` with at most two decimals, `add(subtract(a, b), b) == a` |
| Money.SubtractSelf | src/utils.js:5 | `subtract(a, a) == 0` |
| Money.RoundIdempotent | src/utils.js:15-18 | `round(a)` has at most two decimals and `round(round(a)) == round(a)` |
| Money.RoundOfCents | src/utils.js:15-18 | an amount with at most two decimals is its own rounding |
| Money.Round | src/utils.js:15-18 | the result has at most two decimals and lies within half a hundredth of the input: the nearest hundredth, halves upwards |
| Money.Multiply | src/utils.js:6 | for an integer factor, the product has at most two decimals and its kopecks are the operand's kopecks times the factor |
| Money.MultiplyByOne | src/utils.js:6 | `multiply(a, 1) == round(a)` |
| Domain.FilterByDate | src/components/Dashboard.jsx:105-108 | keeps exactly the transactions with start ≤ date ≤ end, both inclusive |
| Domain.FilterByDateAppend | src/components/Dashboard.jsx:105-108 | the filter distributes over concatenation, so it keeps the original order |
| Domain.FilterByDateSnoc | src/components/Stats.jsx:43-46 | an added transaction is kept at the end exactly when its day is in range |
| Domain.FilterByDateIdempotent | src/components/Dashboard.jsx:105-108 | filtering twice by one range is filtering once |
| Dashboard.CategoriesOfType | src/components/Dashboard.jsx:98-99 | a category is kept iff it has the requested type |
| Dashboard.AllCategories | src/components/Dashboard.jsx:137-142 | a category can be chosen iff it is built-in or the user's |
| Dashboard.FindById | src/components/Dashboard.jsx:137-142 | the first category with the id; none iff no category has it |
| Dashboard.Signed | src/components/Dashboard.jsx:152 | same magnitude; a positive amount becomes positive for income, negative for expense |
| Dashboard.NewTransaction | src/components/Dashboard.jsx:127-162 | amount NaN or ≤ 0 is refused; otherwise an unknown category id is refused; the record exists iff both checks pass, has no id, and carries the signed amount, the type, the chosen category's id and the name of the first known category with that id, the form's account, date and comment, and the creation time |
| Dashboard.EditedTransaction | src/components/Dashboard.jsx:185-204 | refused iff the amount is NaN or ≤ 0; otherwise keeps id, owner and creation time of the edited record, takes the rest from the form, signs the amount by type, and has no category name |
| Dashboard.EditedTransactionNamed | src/components/Dashboard.jsx:149-160 | the corrected edit: the fields of `EditedTransaction` plus the chosen category's name whenever its id is known |
| Dashboard.TransactionsOfType | src/components/Dashboard.jsx:293-294 | a transaction is kept iff it has the requested type |
| Dashboard.SumAbs | src/components/Dashboard.jsx:297-298 | Σ abs(amount) is never negative |
| Dashboard.TotalOf | src/components/Dashboard.jsx:297-298 | `totalIncome` / `totalExpense` are never negative |
| Dashboard.SumAbsAppend | src/components/Dashboard.jsx:297-298 | Σ abs(amount) adds up over concatenation |
| Dashboard.SumSignedAppend | src/components/Dashboard.jsx:305 | Σ amount adds up over concatenation |
| Dashboard.TotalOfAppend | src/components/Dashboard.jsx:293-298 | both totals add up over consecutive parts of a ledger |
| Dashboard.TotalOfSingle | src/components/Dashboard.jsx:293-298 | one transaction adds its abs(amount) to its own type's total only |
| Dashboard.BalanceSnoc | src/components/Dashboard.jsx:305 | one more income raises the balance by abs(amount); one more expense lowers it by that |
| Dashboard.BalanceIsNetAmount | src/components/Dashboard.jsx:293-305 | when every sign agrees with its type, `totalIncome - totalExpense` is the net sum of the amounts |
| Dashboard.Balance | src/components/Dashboard.jsx:305 | `totalIncome - totalExpense` computes only; its properties are `Dashboard.BalanceSnoc` (one more transaction moves it by the absolute amount) and `Dashboard.BalanceIsNetAmount` (it is the net sum when signs match types) |
| Dashboard.FirstIds | src/components/Dashboard.jsx:273-280 | the dictionary keys: each category id once, every id of the input present, ordered by the position where each id first occurs |
| Dashboard.LastById | src/components/Dashboard.jsx:273-280 | keys are exactly the ids of the input; each key holds the category at the last position with that id, as a later assignment overwrites an earlier one |
| Dashboard.CategorySum | src/components/Dashboard.jsx:283-288 | a category's accumulated total is never negative |
| Dashboard.Collect | src/components/Dashboard.jsx:290 | every entry's total is its category sum and above zero; every key with a sum above zero has an entry; no key appears twice |
| Dashboard.GroupSpec | src/components/Dashboard.jsx:269-291 | entries are known categories of the requested type with total = Σ abs(amount) over that id, above zero; every such category appears; ids are distinct |
| Dashboard.InitialEntries | src/components/Dashboard.jsx:272-280 | the first pass yields the key order, the last category per id and zero totals |
| Dashboard.AddAmounts | src/components/Dashboard.jsx:283-288 | the second pass leaves each key's category sum; unknown ids change nothing |
| Dashboard.GroupByCategory | src/components/Dashboard.jsx:269-291 | the three passes compute exactly `GroupSpec` |
| Dashboard.SumTotalsAppend | src/components/Dashboard.jsx:269-291 | sums of breakdown totals add up over concatenation |
| Dashboard.CollectSum | src/components/Dashboard.jsx:290 | dropping the zero totals does not change the sum over the keys |
| Dashboard.SumOverIdsSnoc | src/components/Dashboard.jsx:283-288 | over distinct keys, a transaction adds abs(amount) iff its id is a key |
| Dashboard.SumOverIdsIsResolved | src/components/Dashboard.jsx:283-288 | the sum over distinct keys is the sum over the transactions whose id is a key |
| Dashboard.ResolvedSumBound | src/components/Dashboard.jsx:283-288 | what resolves is at most Σ abs(amount), and all of it when every id resolves |
| Dashboard.GroupTotalBound | src/components/Dashboard.jsx:269-298 | the breakdown sums to at most the type's total, with equality when every category id is known for the type |
| Dashboard.CalculateTransactions | src/components/Dashboard.jsx:250-302 | the totals are Σ abs(amount) per type and not negative; the breakdowns are `GroupSpec` over all categories; each sums to at most its total |
| Dashboard.AccountsTotalAppend | src/components/Dashboard.jsx:385 | the accounts total adds up over concatenation, with a missing balance counted as 0 |
| Dashboard.AccountsTotalNonNegative | src/components/Dashboard.jsx:385 | with no negative balance, the accounts total is not negative |
| Dashboard.AccountsTotal | src/components/Dashboard.jsx:385 | the sum of the balances computes only; its properties are `Dashboard.AccountsTotalAppend` and `Dashboard.AccountsTotalNonNegative` |
| Dashboard.InitialBalance | src/components/Dashboard.jsx:683 | a number ≥ 0 is kept; NaN or a number ≤ 0 gives 0; never negative |
| Stats.MatchSum | src/components/Stats.jsx:51-60 | an expense sum is never negative; nothing matching gives 0 |
| Stats.Matches | src/components/Stats.jsx:53-58 | the match test on its own computes only; what it means for the view is stated by `Stats.MatchSum`, `Stats.CategoryTotals`, `Stats.CategoryTotalsNoMatch` and `Findings.NamedEditMatchesBuiltIn` |
| Stats.Contribution | src/components/Stats.jsx:60 | an expense, or an income with a non-negative amount, contributes its absolute amount; an income with a negative amount lowers the income sum |
| Stats.CategoryTotals | src/components/Stats.jsx:49-67 | entries are input categories with total = the matching sum rounded to two decimals, above zero; every category whose rounded sum is above zero appears; no more entries than categories (a category listed twice gives two entries, as in the source) |
| Stats.CategoryTotalsAppend | src/components/Stats.jsx:49-67 | the result keeps the order of the input categories |
| Stats.CategoryTotalsNoMatch | src/components/Stats.jsx:53-66 | categories no transaction matches contribute no entries |
| Stats.IncomeData | src/components/Stats.jsx:70-73 | the income pie: the view's built-in income entries first, then the user's |
| Stats.ExpenseData | src/components/Stats.jsx:71-74 | the expense pie: the view's built-in expense entries first, then the user's |
| Stats.MonthAt | src/components/Stats.jsx:92-100 | the month at an index has that index |
| Stats.MonthAtIndex | src/components/Stats.jsx:92-100 | months and their indices correspond one to one |
| Stats.NextMonth | src/components/Stats.jsx:100 | stepping a month raises the month index by exactly one, across year ends |
| Stats.FirstDayNotAfter | src/components/Stats.jsx:94 | the loop condition holds iff the month is not after the end month |
| Stats.MonthOfMonotone | src/components/Stats.jsx:104-107 | later days lie in later or equal months |
| Stats.MonthsInRange | src/components/Stats.jsx:88-101 | (end month − start month + 1) entries, or none when start is in a later month; first = start month, last = end month; each the month after the previous; no duplicates |
| Stats.MonthSum | src/components/Stats.jsx:103-118 | a month's expense is never negative; a month without transactions of the type gives 0 |
| Stats.MonthIndexInjective | src/components/Stats.jsx:92-100 | two months with the same index are the same month |
| Stats.SeriesEmpty | src/components/Stats.jsx:103-118 | without transactions the month sums over any list of months add up to 0 |
| Stats.SeriesSnoc | src/components/Stats.jsx:103-118 | over a list of distinct months, a further transaction of the type adds its amount once when its month is in the list and nothing otherwise |
| Stats.SeriesIsKindSum | src/components/Stats.jsx:103-118 | over distinct months that hold the month of every transaction of the type, the month sums add up to the overall sum of that type |
| Stats.BarsTotalIsSeries | src/components/Stats.jsx:103-118 | bars carrying the income and expense sums of a list of months add up, per type, to the month sums over that list |
| Stats.PrepareBarData | src/components/Stats.jsx:87-119 | one bar per month of the axis, in order, each with that month's income and expense over the filtered transactions; the bars add up to the filtered totals |
| Stats.OutOfRangeIgnored | src/components/Stats.jsx:104 | a transaction outside the date range changes no month's sums |
| Reducers.ReplaceWhere | src/redux/reducers/transactionReducer.js:34-36 | same length; exactly the elements whose id equals the payload's are replaced |
| Reducers.RemoveWhere | src/redux/reducers/transactionReducer.js:42 | keeps exactly the elements whose id differs |
| Reducers.RemoveWhereAppend | src/redux/reducers/transactionReducer.js:42 | removal distributes over concatenation, so it keeps the order of what remains |
| Reducers.RemoveWhereAbsent | src/redux/reducers/categoryReducer.js:30 | removing an id that is absent changes nothing |
| Reducers.TransactionReducer | src/redux/reducers/transactionReducer.js:17-47 | REQUEST: loading, cleared error, same data; SUCCESS: payload as data, loading off; FAILURE: error set, data kept; ADD: appended at the end; UPDATE: same length, matching ids replaced, loading off; DELETE: exactly the other ids kept, loading off; any other action: unchanged |
| Reducers.DeleteTransactionIdempotent | src/redux/reducers/transactionReducer.js:38-43 | deleting an id twice is deleting it once |
| Reducers.DeleteTransactionKeepsOrder | src/redux/reducers/transactionReducer.js:38-43 | deleting keeps the remaining transactions in order |
| Reducers.AccountReducer | src/redux/reducers/accountReducer.js:16-40 | REQUEST / SUCCESS / FAILURE as for transactions; ADD: appended, loading off; UPDATE: same length, only matching ids replaced, loading and error untouched; any other action: unchanged |
| Reducers.CategoryReducer | src/redux/reducers/categoryReducer.js:16-35 | REQUEST / SUCCESS / FAILURE as for transactions; ADD: appended, loading untouched; DELETE: exactly the other ids kept, loading off; any other action: unchanged |
| Reducers.DeleteCategoryIdempotent | src/redux/reducers/categoryReducer.js:26-31 | deleting a category id twice is deleting it once |
| Reducers.UnhandledActions | src/redux/reducers/categoryReducer.js:32-33 | the add and delete REQUEST and FAILURE actions leave all three slices unchanged |
| Auth.AuthState.constructor | src/auth/authSlice.js:4-8 | the saved user, not loading, no error |
| Auth.AuthState.Logout | src/auth/authSlice.js:14-18 | no user; loading and error as before |
| Auth.AuthState.ClearError | src/auth/authSlice.js:19-21 | no error; user and loading as before |
| Auth.AuthState.Pending | src/auth/authSlice.js:23-67 | pending of each thunk (lines 26-29, 41-44, 55-58): loading, error cleared, user kept |
| Auth.AuthState.Fulfilled | src/auth/authSlice.js:23-67 | fulfilled of each thunk (lines 30-33, 45-48, 59-62): not loading, user = payload, error kept |
| Auth.AuthState.Rejected | src/auth/authSlice.js:23-67 | rejected (lines 34-38, 49-52, 63-66): not loading, error = payload; user cleared for the session check only |
| Auth.FailedLoginKeepsUser | src/auth/authSlice.js:55-66 | a failed login keeps the signed-in user |
| Actions.AccountIndex | src/redux/actions/transactionActions.js:41 | index of the first account with the id; none iff no account has it |
| Actions.FindAccount | src/redux/actions/transactionActions.js:41 | the first account of the list with that id (the one at `AccountIndex`); none iff no account has it |
| Actions.InUse | src/redux/actions/categoryActions.js:54-55 | true iff some transaction has that category id |
| Actions.ClampedBalance | src/redux/actions/transactionActions.js:42-43 | never negative; old balance (missing = 0) plus amount when that is ≥ 0, else 0; grows by exactly the amount when both are ≥ 0 |
| Actions.OwnedTransactions | src/redux/actions/transactionActions.js:16 | the server's transactions of that user |
| Actions.OwnedCategories | src/redux/actions/categoryActions.js:18 | the server's categories of that user |
| Actions.RefetchUserId | src/redux/actions/categoryActions.js:70-71 | the signed-in user's id when there is a user with a non-empty id (`user?.id` is truthy); none otherwise |
| Actions.Backend.PostTransaction | src/redux/actions/transactionActions.js:33 | stores the record under a new id and returns it |
| Actions.Backend.PatchBalance | src/redux/actions/transactionActions.js:45-47 | sets the balance of the first account with the id and returns it, or answers 404 |
| Actions.Backend.PostCategory | src/redux/actions/categoryActions.js:34 | stores the category under a new id and returns it |
| Actions.Backend.DeleteCategory | src/redux/actions/categoryActions.js:62 | removes the category, or answers 404 when there is none with the id |
| Actions.Store.Dispatch | src/app/store.js:8-13 | every slice takes its reducer's next state; the action is logged |
| Actions.Store.FetchTransactions | src/redux/actions/transactionActions.js:13-27 | success: the ledger is the user's transactions, loading off, no error; failure: data kept, error set, nothing thrown |
| Actions.Store.AddTransaction | src/redux/actions/transactionActions.js:29-60 | the stored transaction is appended before the balance is touched and stays on later failure; missing account, PATCH failure and 404 each end in a logged FAILURE with the accounts unchanged; on success the server's account and every store account with that id carry the clamped balance, never negative, and no other account changes; the backend gains exactly the stored record, a failure leaves the backend's accounts alone, and categories on both sides and the ledger's loading and error flags are untouched |
| Actions.Store.UpdateBalance | src/redux/actions/transactionActions.js:40-59 | a missing account in the store fails with the JavaScript error message and leaves accounts alone; otherwise the clamped balance goes to the backend, and on success every store account with the id is replaced by the backend's answer, whose balance is ≥ 0 |
| Actions.Store.StoreBalance | src/redux/actions/transactionActions.js:45-57 | PATCH failure or 404: FAILURE logged, accounts unchanged; success: the backend account gets the balance, and every store account with the id becomes that account and carries the balance |
| Actions.Store.FetchCategories | src/redux/actions/categoryActions.js:15-29 | success: the list is the user's categories; failure: data kept, error set, nothing thrown |
| Actions.Store.AddCategory | src/redux/actions/categoryActions.js:31-47 | success: the stored category is appended and returned; failure: list unchanged, FAILURE logged, error returned |
| Actions.Store.DeleteCategory | src/redux/actions/categoryActions.js:49-82 | in use: refused with the in-use message, before any request, list and server unchanged; succeeds iff not in use, DELETE goes through and the id exists; then the server loses exactly that id, the list holds no category with it and is refetched only for a signed-in user; any failure is logged and leaves the list unchanged |
| Actions.Store.RemoveCategory | src/redux/actions/categoryActions.js:62-81 | the DELETE request, the removal of exactly that id and the conditional refetch, with the log of each path |
| Actions.Store.DeleteOnServer | src/redux/actions/categoryActions.js:62 | passes iff the request goes through and the backend has a category with the id, which it then removes; a failure is logged and leaves the backend alone; the store's slices are untouched |
| Actions.Store.Refetch | src/redux/actions/categoryActions.js:70-73 | nobody signed in: nothing happens; otherwise the list becomes the user's categories on the backend, or keeps its data with the error set, with both actions logged |
| Scenarios.TwoMonthChart | src/components/Stats.jsx:87-119 | income 1000 in January and expense 300 in February give the bars (Jan, 1000, 0) and (Feb, 0, 300) |
| Scenarios.IncomeThenExpense | src/redux/actions/transactionActions.js:29-60 | an account at 0 after income 100 and expense 25 has balance 75, with both in the ledger |
| Scenarios.AddToWallet | src/redux/actions/transactionActions.js:29-52 | a transaction that keeps the only account at or above 0 moves its balance by the amount, in the store and on the backend, and is appended to the ledger |
| Scenarios.OverdraftClamped | src/redux/actions/transactionActions.js:42-43 | an expense of 25 on a balance of 10 leaves 0 |
| Scenarios.BalanceUpdateFails | src/redux/actions/transactionActions.js:45-59 | a failed PATCH leaves the stored transaction in the ledger and the balance as it was, and reports the error |
| Scenarios.DeleteCategoryInUse | src/redux/actions/categoryActions.js:53-59 | a category used by a transaction stays in the list, and the in-use message is returned |
| Scenarios.DeleteUnusedCategory | src/redux/actions/categoryActions.js:62-73 | an unused category is removed, the others keep their order |
| Findings.EditDropsBuiltInTotal | src/components/Dashboard.jsx:194-204 | an edited transport expense no longer counts for "Транспорт" or any built-in expense category in the statistics |
| Findings.EditedNeverMatchesBuiltIn | src/components/Dashboard.jsx:194-204 | as written, no edited transaction matches a built-in statistics category |
| Findings.NamedEditMatchesBuiltIn | src/components/Stats.jsx:53-56 | with the name kept, an edited transaction matches every built-in statistics category of that name and type |
| Findings.NamedEditKeepsBuiltInTotal | src/components/Stats.jsx:49-67 | with the name kept, the edited expense of 40 counts for "Транспорт" |

## Left out

- `Money.format` is display only, and it depends on the locale.
- `Money.divide` does not divide exactly by a non-divisor. It has no
  two-decimal round-trip to state.
- Money.Multiply takes an integer factor only. A fractional factor gives a
  kopeck count that is not whole, and `toFixed(2)` then rounds it in floating
  point, which is not modelled.
- Floating point is not modelled: amounts are exact reals. Also left out:
  - the `toFixed(2)` / `parseFloat` re-parsing in `to`;
  - `Number()` / `parseFloat` on junk input; the form's parsed amount is an
    `Option<real>`, with none standing for NaN.
- Stats.CategoryTotals rounds with `Round`, which sends halves upwards;
  `toFixed(2)` sends a negative half away from zero. The two differ only on
  exact negative halves.
- `new Date(...)` is not modelled: no time zones, no parsing of date
  strings. Days are `(year, month, day)` triples assumed valid, and the
  month loop's comparison is taken in one time zone.
- Category icons and colours, currency symbols, chart options and all
  rendering are left out; they are display only.
- Side effects outside the accounting logic are left out:
  - `localStorage` (the saved user enters as the constructor argument);
  - toasts and `window.confirm`;
  - routing.
- HTTP is modelled at the level of outcomes. Headers, tokens, the interceptors
  and the 401 redirect are left out. Each request either reaches the in-memory
  server (`Outcome` Pass) or fails before reaching it with the given message.
  A request that the server performs but whose response is lost is not
  modelled.
- The server is a stand-in. It assigns decimal ids from a counter; it does not
  check ids against existing records.
- Concurrency: the thunks' `await` points are not interleaved with other
  commands. The category refetch after a delete is not awaited in the source.
  Here it runs to completion before `DeleteCategory` returns.
- Updating and deleting a transaction are modelled only as the reducers'
  UPDATE and DELETE cases. `updateTransaction` and `deleteTransaction`, with
  any balance adjustment, are not part of this model: the action file
  defines no such thunks.
- `fetchAccounts` and `addAccount` are not part of this model; their actions
  enter through `Store.Dispatch`.
- The authentication thunks' network flows are not part of this model: the
  e-mail lookup, login query and default-account creation. Their results
  enter as the payload of `Fulfilled` / `Rejected`.
- JavaScript objects list integer-like keys first. `FirstIds` keeps plain
  insertion order, which is right for the `default_…` ids and for
  server-assigned non-numeric ids only. The model's own `Backend` assigns
  decimal ids (`NatToString`), which are exactly the keys JavaScript lists
  first, so for user categories created through it the breakdown's key order
  in the source would differ from `FirstIds`: numeric ids in ascending order,
  before all others. The totals and entries are unaffected.
- The action type constants are assumed pairwise distinct. A constructor of
  `Action` stands for each of them.

## Findings

| source | as written | input that shows it | evidently intended | confidence | as-written member | corrected member |
|---|---|---|---|---|---|---|
| src/components/Dashboard.jsx:194-204 | the edit form builds the updated record without the `category` name field that a new submission sets; the statistics view matches built-in categories by that name (src/components/Stats.jsx:53-56). The record reaches the ledger only through `updateTransaction`, which Dashboard.jsx imports (lines 9-10) but transactionActions.js does not define; the effect assumes that thunk has the server replace the whole record, since a merging PATCH would keep the old `category` | editing an expense of 50 in "Транспорт" (`default_transport`) to 40, same category | the edited record keeps the chosen category's name beside its id, as a new submission does, so it still counts for its built-in category | medium, not executed | Findings.EditDropsBuiltInTotal | Findings.NamedEditKeepsBuiltInTotal |
