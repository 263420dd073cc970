# Finance tracker core, modelled in Dafny

This project models the logic of a small client-side finance tracker for a
business. The tracker keeps, per signed-in account, a list of transactions
(income and expenses) and a list of budgets, one per expense category. Its
pages derive figures from these two lists:

- the dashboard shows totals, a breakdown of expenses by category and
  per-month buckets;
- the budgets page shows spend, remaining amount, progress and an alert
  status for each budget, and has a form that creates or updates a budget;
- the income and expenses pages list transactions of one type, newest first,
  and have a form that adds one;
- the reports page exports the transactions as CSV text and shows per-month
  buckets.

A session records who is signed in.

Modules follow the source files:

| module | file | models |
|---|---|---|
| `Types` | `types.dfy` | the records (`types.ts`) and the fixed category lists (`constants.ts`) |
| `Ledger` | `ledger.dfy` | the filter-by-type and sum-of-amounts idioms every page uses |
| `Store` | `store.dfy` | `App.tsx`: the handlers that replace the two lists, as class `RecordStore` |
| `BudgetsPage` | `budgets_page.dfy` | the budget evaluation, and the budget form as class `BudgetForm` |
| `Dashboard` | `dashboard.dfy` | totals, expense breakdown loop, month bucket loop |
| `Reports` | `reports_page.dfy` | CSV text, and the report's month bucket loop |
| `TransactionsPage` | `transactions_page.dfy` | the filtered, sorted listing, and the form as class `TransactionForm` |
| `Auth` | `auth.dfy` | `login` / `logout` on the current user, as class `Session` |

Modelling choices:

- **Amounts and dates.** Amounts are `real`, so the sums and `spent / amount * 100`
  are exact. Dates are integer timestamps.
- **Absent properties.** A property that may be absent (`alertsEnabled?`,
  `alertThreshold?`, a null user) is an `Option`.
- **Dictionaries.** A dictionary that a `forEach` loop fills becomes an
  association list in insertion order. That is the order JavaScript gives
  to non-numeric keys.
- **Outside world.** `crypto.randomUUID`, the clock, `parseFloat`,
  `parseInt`, `String(...)`, the ISO date text and the month label are
  parameters. Fresh ids and the creation time are method arguments; the
  conversions are arrow parameters.
- **parseInt.** `parseInt(_, 10)` is a parameter returning `Option<int>`,
  with `None` standing for `NaN`.

The budgets page itself reads a missing `alertsEnabled` in two ways, and the
model keeps both:

- **Default for `alertsEnabled` in evaluation.** The evaluation at
  `components/BudgetsPage.tsx:64` treats a missing `alertsEnabled` as false.
  `BudgetsPage.Assess` (and so `BudgetsPage.Evaluate`) states that.
- **Default in the form.** The form's prefill at
  `components/BudgetsPage.tsx:25` treats the same missing value as true.
  `BudgetsPage.BudgetForm.Prefill` states that.

## Model

| member | source | states |
|---|---|---|
| `Types.TypeName` | types.ts:12-15 | the text of a type is `income` or `expense`, and it is `income` exactly for Income |
| `Types.LabelOfFirst` | components/BudgetsPage.tsx:63 | the lookup finds nothing iff no option has the value; otherwise it gives the label of the first option with that value |
| `Ledger.Sum` | components/Dashboard.tsx:31 | no transactions sum to 0; when no amount is negative, neither is the sum |
| `Ledger.OfType` | components/Dashboard.tsx:30 | the filter is no longer than its input, keeps only transactions of the type, and keeps amounts non-negative if they were |
| `Ledger.ExpensesIn` | components/BudgetsPage.tsx:58 | the filter is no longer than its input, keeps only Expense transactions of the category, and keeps amounts non-negative if they were |
| `Ledger.SumConcat` | components/Dashboard.tsx:29-31 | the left-to-right sum of amounts is additive over concatenation |
| `Ledger.OfTypeConcat` | components/Dashboard.tsx:29-30 | filtering by type distributes over concatenation, so order is kept |
| `Ledger.ExpensesInConcat` | components/BudgetsPage.tsx:57-58 | filtering by Expense-and-category distributes over concatenation |
| `Ledger.OfTypeCounts` | components/Dashboard.tsx:29-33 | the filter keeps every transaction of the type exactly as often as it occurs and nothing else |
| `Ledger.SumOfTypeAppend` | components/Dashboard.tsx:29-31 | a new transaction adds its amount to the sum of its own type and nothing to the other |
| `Ledger.TypesPartitionSum` | components/Dashboard.tsx:29-34 | income sum plus expense sum is the sum of all amounts |
| `Store.Without` | App.tsx:44-46 | the filter is no longer than its input and no survivor carries the deleted id |
| `Store.WithoutMembers` | App.tsx:44-46 | an element survives deletion iff it was present and has another id |
| `Store.WithoutAbsent` | App.tsx:44-46 | deleting an id no element has leaves the list unchanged |
| `Store.WithoutConcat` | App.tsx:60-62 | deletion works element by element, so survivors keep their relative order |
| `Store.WithoutKeepsKeysDistinct` | App.tsx:60-62 | a key unique before deletion (id, category) is still unique after it |
| `Store.FindCategory` | App.tsx:50 | -1 iff no budget has the category, else the first index with it |
| `Store.Merge` | App.tsx:53 | the spread keeps the existing id, takes the input's category and amount, and takes each alert setting from the input when it has one, else from the existing budget |
| `Store.NewBudget` | App.tsx:56 | the new budget carries the fresh id and exactly the input's fields |
| `Store.Upserted` | App.tsx:49-57 | the list keeps its length when the category exists and grows by one otherwise; afterwards a budget of the input's category is present |
| `Store.UpsertExisting` | App.tsx:50-55 | an existing category's first entry takes the input's category and amount, gets an alert setting from the input only if the input has one, and keeps its id; length and every other entry unchanged |
| `Store.UpsertNew` | App.tsx:56 | a new category appends exactly one budget carrying the fresh id; earlier entries unchanged |
| `Store.UpsertKeepsCategoriesDistinct` | App.tsx:48-58 | pairwise distinct categories stay pairwise distinct |
| `Store.UpsertKeepsIdsDistinct` | App.tsx:48-58 | with an unused fresh id, budget ids stay pairwise distinct |
| `Store.UpsertIdempotent` | App.tsx:48-58 | setting the same budget data twice gives the list that setting it once gives |
| `Store.RecordStore.constructor` | App.tsx:22-23 | the store starts from the lists read back from storage, and its invariant holds iff those lists have distinct ids and at most one budget per category |
| `Store.RecordStore.AddTransaction` | App.tsx:35-42 | appends one record with the fresh id, the page's type, the creation time and the input's fields; budgets unchanged; the store invariant is kept |
| `Store.RecordStore.DeleteTransaction` | App.tsx:44-46 | the transactions become the order-preserving filter on id; budgets unchanged; invariant kept |
| `Store.RecordStore.SetBudget` | App.tsx:48-58 | budgets become the upsert of the input (overwrite the first match in a copy, else append); transactions unchanged; invariant kept |
| `Store.RecordStore.DeleteBudget` | App.tsx:60-62 | the budgets become the order-preserving filter on id; transactions unchanged; invariant kept |
| `Store.RecordStore.ClearData` | App.tsx:64-67 | both lists are empty afterwards |
| `BudgetsPage.Spent` | components/BudgetsPage.tsx:57-59 | the spend is not negative when no amount is |
| `BudgetsPage.SpentAppend` | components/BudgetsPage.tsx:57-59 | a new transaction adds its amount to the spend exactly when it is an Expense of the budget's category |
| `BudgetsPage.SpentWithoutMatches` | components/BudgetsPage.tsx:57-59 | income and other categories contribute nothing: no matching expense means zero spend |
| `BudgetsPage.Progress` | components/BudgetsPage.tsx:61 | for a positive amount, progress times amount is 100 times spent; otherwise 0 |
| `BudgetsPage.Classify` | components/BudgetsPage.tsx:67-74 | disabled gives ok; enabled gives danger iff progress >= 100, warning iff threshold <= progress < 100 |
| `BudgetsPage.ExpenseValuesDistinct` | constants.ts:10-18 | no expense category value is offered twice |
| `BudgetsPage.CategoryNameCases` | components/BudgetsPage.tsx:63 | a known expense category is shown by its label; any other category by its own text |
| `BudgetsPage.Assess` | components/BudgetsPage.tsx:60-74 | id, category and amount carried through; remaining + spent = amount, negative iff overspent; the progress rule; missing alertsEnabled counts as false and missing threshold as 80; the status rules |
| `BudgetsPage.Evaluate` | components/BudgetsPage.tsx:56-76 | spent is the category's expense sum, the name is the category's display name, and the rest of the view follows the rules of `Assess` for them |
| `BudgetsPage.BudgetData` | components/BudgetsPage.tsx:55-78 | exactly one evaluated entry per budget, in the same order |
| `BudgetsPage.DangerIffSpendReachesAmount` | components/BudgetsPage.tsx:61-74 | with alerts on and a positive amount, danger iff spend reaches the amount |
| `BudgetsPage.NonPositiveAmountIsOk` | components/BudgetsPage.tsx:61-74 | a budget of zero or less has progress 0 and, with a positive threshold, status ok whatever the spend |
| `BudgetsPage.BudgetForm.constructor` | components/BudgetsPage.tsx:15-18 | the form starts on the first expense category with no amount, alerts on, threshold "80" |
| `BudgetsPage.BudgetForm.SelectCategory` | components/BudgetsPage.tsx:120 | choosing a category changes only the category |
| `BudgetsPage.BudgetForm.Prefill` | components/BudgetsPage.tsx:21-33 | an existing budget of the category loads its amount, alertsEnabled (default true) and threshold (default 80); otherwise the form resets to "", true, "80" |
| `BudgetsPage.BudgetForm.Submit` | components/BudgetsPage.tsx:36-53 | rejected iff category or amount is empty or the threshold is not an integer in [1,100], whether or not alerts are on; otherwise the parsed values are handed on |
| `Dashboard.ComputeTotals` | components/Dashboard.tsx:28-37 | revenue and expenses are the sums of Income and Expense amounts; profit is their difference; together they are the sum of all amounts; no transactions give zeros |
| `Dashboard.TotalsAppend` | components/Dashboard.tsx:29-34 | a new transaction moves only the total of its own type, by its amount |
| `Dashboard.AddTo` | components/Dashboard.tsx:44 | adding to a key adds at most one entry |
| `Dashboard.AddToNames` | components/Dashboard.tsx:44 | adding to a key appends the key only if it is new and otherwise keeps the key order |
| `Dashboard.AddToValues` | components/Dashboard.tsx:44 | adding to a key adds the amount to that key's value and leaves every other value alone |
| `Dashboard.AddToTotal` | components/Dashboard.tsx:44 | adding to a key adds the amount to the sum of the values |
| `Dashboard.Breakdown` | components/Dashboard.tsx:40-46 | there are no more keys than transactions |
| `Dashboard.BreakdownKeys` | components/Dashboard.tsx:39-47 | each category of some expense is a key exactly once, no other keys; empty iff there are no expenses |
| `Dashboard.BreakdownHasKey` | components/Dashboard.tsx:40-46 | a category is a key iff some expense has it |
| `Dashboard.BreakdownValues` | components/Dashboard.tsx:40-46 | each key's value is the spend in that category |
| `Dashboard.BreakdownTotal` | components/Dashboard.tsx:40-46 | the values add up to the total of Expense amounts |
| `Dashboard.FirstExpense` | components/Dashboard.tsx:41-45 | an index at most the length; below it, the transaction there is an expense of the category |
| `Dashboard.FirstExpenseIsFirst` | components/Dashboard.tsx:41-45 | no earlier transaction is an expense of the category; the index is below the length iff some expense has the category |
| `Dashboard.BreakdownOrder` | components/Dashboard.tsx:43-46 | every key has a first expense, and keys come in strictly increasing order of that first occurrence |
| `Dashboard.ExpenseByCategory` | components/Dashboard.tsx:39-47 | the loop builds the breakdown: distinct keys exactly the expense categories, values the category spends, total the expense total |
| `Dashboard.Credit` | components/Dashboard.tsx:56-60 | the bucket keeps its name and the whole amount goes into one column, income for Income and expense otherwise |
| `Dashboard.AddToMonth` | components/Dashboard.tsx:53-60 | crediting a month adds at most one bucket |
| `Dashboard.MonthBuckets` | components/Dashboard.tsx:51-61 | there are no more buckets than transactions, and at least one when there are transactions |
| `Dashboard.AddToMonthNames` | components/Dashboard.tsx:53-55 | crediting a month creates its bucket at the end only if it is missing, and otherwise keeps the bucket order |
| `Dashboard.AddToMonthTotals` | components/Dashboard.tsx:56-60 | crediting adds the amount to the income column for Income and to the expense column otherwise |
| `Dashboard.AddToMonthAt` | components/Dashboard.tsx:53-60 | crediting a month changes only that month's bucket, by crediting the transaction to it |
| `Dashboard.MonthBucketKeys` | components/Dashboard.tsx:51-61 | one bucket per month key that some transaction has, and no other |
| `Dashboard.MonthTotalLast` | components/Dashboard.tsx:56-60 | a new transaction adds to its own month and type only |
| `Dashboard.MonthBucketValues` | components/Dashboard.tsx:51-61 | each month's bucket holds that month's Income total as income and its Expense total as expense |
| `Dashboard.MonthBucketTotals` | components/Dashboard.tsx:51-61 | incomes across buckets add up to revenue, expenses across buckets to the expense total |
| `Dashboard.MonthlyData` | components/Dashboard.tsx:49-61 | the loop builds the month buckets: distinct keys, totals equal to the overall totals |
| `Reports.Split` | components/ReportsPage.tsx:34-35 | reference reading of joined text: one piece more than separators, no piece holds the separator |
| `Reports.SplitJoin` | components/ReportsPage.tsx:34-35 | splitting undoes joining when no field holds the separator |
| `Reports.CountJoin` | components/ReportsPage.tsx:34-35 | a join holds one separator per pair of neighbours plus those inside the fields |
| `Reports.RowFields` | components/ReportsPage.tsx:34 | six cells, one per header, in the order id, date, type text, description, category, amount |
| `Reports.Row` | components/ReportsPage.tsx:34 | a row holds the five separating commas plus those inside its cells |
| `Reports.Rows` | components/ReportsPage.tsx:34 | one row per transaction, in store order |
| `Reports.CsvContent` | components/ReportsPage.tsx:35 | the text starts with the data-URI prefix |
| `Reports.JoinAvoids` | components/ReportsPage.tsx:34-35 | a character that is neither the separator nor in any field is not in the joined text |
| `Reports.HeaderLineHasNoNewline` | components/ReportsPage.tsx:33-35 | the prefixed header line holds no newline |
| `Reports.HeaderLine` | components/ReportsPage.tsx:33 | the header line is `ID,Date,Type,Description,Category,Amount` |
| `Reports.CsvShape` | components/ReportsPage.tsx:35 | the text is the data-URI prefix, the header, then a newline and the rows when there are transactions (no trailing newline) |
| `Reports.CsvEmpty` | components/ReportsPage.tsx:35 | an empty store exports the prefix and the header only |
| `Reports.CsvLines` | components/ReportsPage.tsx:34-35 | when no cell holds a newline: 1 + n lines, the first the prefixed header, then one row per transaction in store order |
| `Reports.RowRoundTrip` | components/ReportsPage.tsx:34 | a row splits back into id, date, type, description, category, amount when no cell holds a comma |
| `Reports.RowFieldCount` | components/ReportsPage.tsx:34 | a row has 6 fields plus one per comma inside its cells (no quoting) |
| `Reports.CommaInDescriptionSplitsRow` | components/ReportsPage.tsx:34 | a description with a comma yields more than six fields |
| `Reports.MonthlyBreakdown` | components/ReportsPage.tsx:16-28 | the loop builds the month buckets; each month holds its Income total and Expense total; incomes add up to total income and the expenses column takes everything that is not Income |
| `TransactionsPage.CategoriesFor` | components/TransactionsPage.tsx:21-22 | the income set on the Income page, the expense set otherwise; never empty, first value non-empty |
| `TransactionsPage.Insert` | components/TransactionsPage.tsx:45 | inserting adds exactly that element (multiset) |
| `TransactionsPage.ConsKeepsOrder` | components/TransactionsPage.tsx:45 | an entry no older than the head can go in front of a newest-first list |
| `TransactionsPage.InsertKeepsOrder` | components/TransactionsPage.tsx:45 | inserting into a newest-first list keeps it newest first |
| `TransactionsPage.NewestFirst` | components/TransactionsPage.tsx:45 | the sort result is a permutation of its input and ordered by date, newest first |
| `TransactionsPage.Listed` | components/TransactionsPage.tsx:45 | the listing is a permutation of the type filter, ordered newest first |
| `TransactionsPage.ListedFacts` | components/TransactionsPage.tsx:45 | the listing is newest first, a permutation of the type filter, holds each transaction of the page's type as often as the store does, and only that type |
| `TransactionsPage.TransactionForm.constructor` | components/TransactionsPage.tsx:17-28 | empty description and amount; the first category of the page's list |
| `TransactionsPage.TransactionForm.SelectCategory` | components/TransactionsPage.tsx:54 | choosing a category changes only the category |
| `TransactionsPage.TransactionForm.Submit` | components/TransactionsPage.tsx:30-43 | rejected iff description, amount or category is empty, leaving the form unchanged; otherwise hands on the values with the parsed amount, clears description and amount, keeps the category |
| `Auth.TrimStart` | contexts/AuthContext.tsx:19 | the result is a suffix; everything dropped is white space; it does not start with white space |
| `Auth.TrimEnd` | contexts/AuthContext.tsx:19 | the result is a prefix; everything dropped is white space; it does not end with white space |
| `Auth.Trim` | contexts/AuthContext.tsx:19 | the result neither starts nor ends with white space; empty iff the input is all white space |
| `Auth.TrimIsInfix` | contexts/AuthContext.tsx:19 | the trimmed text is a contiguous stretch of the input, and everything before and after that stretch is white space |
| `Auth.TrimIdempotent` | contexts/AuthContext.tsx:19 | trimming twice is trimming once |
| `Auth.AfterLogin` | contexts/AuthContext.tsx:17-21 | a non-empty argument sets the trimmed text; an empty one leaves the user unchanged |
| `Auth.WhitespaceLoginStoresEmpty` | contexts/AuthContext.tsx:18-19 | the emptiness test precedes trimming, so white space alone sets the user to "" |
| `Auth.LoginIdempotent` | contexts/AuthContext.tsx:17-21 | logging in twice with the same argument is logging in once |
| `Auth.LoginStoresTrimmed` | contexts/AuthContext.tsx:17-20 | after a non-empty login the stored user neither starts nor ends with white space |
| `Auth.Session.constructor` | contexts/AuthContext.tsx:15 | the session starts from the stored user (None by default) |
| `Auth.Session.Login` | contexts/AuthContext.tsx:17-21 | `currentUser` becomes the result of `login` on the old state |
| `Auth.Session.Logout` | contexts/AuthContext.tsx:23-25 | `currentUser` is None from any state |

## Left out

- **Rendering.** JSX rendering, styling, the progress-bar colour and width, the sidebar, the AI insight modal, the settings page and the login page are presentation. The login page (`components/LoginPage.tsx:10-11`) only tests whether the input is empty after trimming and then passes the untrimmed text to `login`, so input made only of white space never reaches `login` from that page; the model covers `login` itself, not that guard.
- **Notifications.** Browser notifications and their sessionStorage dedupe rely on platform APIs and asynchronous permission.
- **AI insights.** The Gemini-backed insight service and `handleGetAIInsights` are a foreign call with JSON parsing of its reply.
- **Month labels.** The locale-dependent month label and the sort of the month buckets by re-parsing that label are environment-dependent. The model takes the month key as a function parameter. Buckets are created in first-occurrence order, but the model proves only one step of that (`Dashboard.AddToMonthNames`: a new month is appended at the end), not a whole-list order lemma such as `Dashboard.BreakdownOrder`.
- **Persistence.** Persistence through `useLocalStorage` and the per-user storage keys is a storage binding. The stores start from given lists.
- **Parsing and formatting.** Id generation, the clock, `parseFloat`, `parseInt`, number-to-string, the ISO date text and `Intl` formatting are parameters. Floating-point rounding is not modelled, because amounts are exact reals.
- **CSV download.** PDF export, `encodeURI` and the DOM anchor download are I/O. Only the CSV text is modelled.
- **Context plumbing.** The React context plumbing in `useAuth`, and the malformed import line of the auth context, do not bear on the state logic.
- **Empty login.** Whether the app treats a user of "" as signed out (it is falsy) lies outside the auth context.
- **Numeric keys.** JavaScript orders integer-like object keys numerically ahead of the others. The association lists keep insertion order, which agrees for the fixed, non-numeric category names and for month labels.
- **Stability.** `TransactionsPage.NewestFirst`: the model breaks date ties as a stable sort does, with the earlier entry first. This is not stated as a property.
- **Form state across pages.** React may keep one transactions-page form instance when switching between the Income and Expenses pages, so the selected category could carry over. The model creates one form per page type.
