# Finance Visualizer: a Dafny model of the dashboard's logic

This project models the logic of a small in-memory personal-finance dashboard. The dashboard keeps
a list of transactions (positive amounts are income, negative amounts expenses), a fixed list of
spending categories and a list of monthly budgets. From these it derives:

- month totals and a per-category spending table;
- the pie, bar and budget-versus-actual chart series;
- rule-based spending insights;
- the values shown by the summary cards, the budget table and the transaction lists.

The model covers the aggregation library (`lib/utils.ts`), the insight generator (`generateInsights`
in `lib/data.ts`), the provider state with its add, update and delete operations
(`context/FinanceContext.tsx`), and the computations embedded in the dashboard, budget and
transaction components. It proves properties of each.

Modules, in dependency order:

| module | file | what it holds |
|---|---|---|
| `Types` | types.dfy | the records of `lib/types.ts`; `Option`; `FindCategory` |
| `Strings` | strings.dfy | `startsWith`, `includes`, ASCII lower-casing, an ordinal string order |
| `Sorting` | sorting.dfy | the sort used for every `.sort(cmp)`, with sortedness, permutation and sum lemmas |
| `Numbers` | numbers.dfy | `Math.round`, `Math.min` and share/percentage bounds on reals |
| `Months` | months.dfy | `YYYY-MM` months: month arithmetic, formatting and parsing |
| `Utils` | utils.dfy | `lib/utils.ts` |
| `SpendingInsights` | insights.dfy | `generateInsights` |
| `FinanceContext` | store.dfy | the `FinanceProvider` state as a class |
| `SummaryCards`, `CategoryDistribution`, `BudgetComparisonChart`, `BudgetList`, `ConfirmDelete`, `TransactionList`, `RecentTransactions`, `MonthSelector`, `TransactionForm`, `BudgetForm` | one file each | the component computations |

Representation choices:

- Amounts are `int` (cents). Shares and percentages that the source computes by division are
  `real`, and `Math.round(x)` is `floor(x + 0.5)`.
- A `Record<string, number>` filled in a `forEach` is an association list `seq<Spend>` in
  first-insertion order, so `Object.entries` walks it in that order.
- Every `.sort(cmp)` is one insertion sort, `Sorting.SortBy`, driven by a "may stay before" relation:
  values descending for the pie chart, dates descending for the transaction lists, category names
  for the budget table.
- Dates compare as ISO `YYYY-MM-DD` strings. `localeCompare` is ordinal order. `toLowerCase`
  lowers ASCII letters. A string's `length` counts UTF-16 code units (`Strings.Utf16Length`), so a
  character beyond U+FFFF counts as two.
- Insight messages are structured values: which rule fired, the category name shown, and the
  amounts the text would format.
- The loops of the source become methods with loop invariants. Each is proved equal to a
  specification function, and the properties are proved about those functions.
  - `Utils.BuildSpendingTable`, `Utils.PrepareCategoryChartData`,
    `Utils.PrepareMonthlyExpensesData` and `Utils.PrepareBudgetComparisonData` model
    `lib/utils.ts`.
  - `SpendingInsights.GenerateInsights` and its four loops model `lib/data.ts`.
  - `BudgetComparisonChart.ProcessData` models the stride-2 regrouping loop.
- The provider is the class `FinanceContext.FinanceStore`. Its `seq` fields are reassigned by the
  setter methods. Its invariant `Valid()` says that `insights` equals `generateInsights` of the
  current state, which is what the `useEffect` restores after every change.
- The two delete-confirmation dialogs are the class `ConfirmDelete.DeleteDialog`.

Inputs the source takes from the environment become parameters:

- the generated id (`generateId`, built on `Math.random`);
- the month of "now" (`new Date()`, used by `prepareMonthlyExpensesData` and the month selector);
- today's date (the new-transaction default);
- what `parseFloat` reads from an amount field (`Option<int>`, with `None` for NaN);
- whether `Date.parse` accepts a date text (the predicate `dateParses`).

Behaviour of the code that the model keeps as written:

- `generateInsights` looks the budget's category up by `c.categoryId`. Categories have no such
  field, so every budget insight names its category by `budget.categoryId`.
- The empty string is falsy. A highest-spending category whose id is `''` is never reported
  (`if (highestCategory)`), and a pending delete id `''` neither opens the dialog nor deletes anything.
- The transaction form accepts an empty `categoryId`: the schema checks only that it is a string.
- The form's amount text is signed before the type is applied. A typed `-5` with type "expense"
  therefore saves `+5`.
- Saving an edited budget moves it to the month currently selected, whatever its own month was.
- `goToPrevMonth` has no lower bound. From "0001-01" the month before is year 0 (1 BC), and
  date-fns's `yyyy` prints the era year, so the selector shows "0001-12". Going further back cycles
  through 0001-11 … 0001-01 and round again; it never prints a year before 0001 and never throws.

## Model

| member | source | states |
|---|---|---|
| Types.FindCategory | lib/data.ts:174 | a category with the id, if any; None exactly when no category has that id |
| Types.FindCategoryIsFirst | lib/data.ts:174 | the category found is the first one in list order with the id, as `find` returns |
| Strings.ToLowerIdempotent | components/transactions/TransactionList.tsx:37-38 | lower-casing twice is lower-casing once |
| Strings.LessEqTotal | components/budget/BudgetList.tsx:39 | the string order used for `localeCompare` is total |
| Strings.LessEqTransitive | components/budget/BudgetList.tsx:39 | the string order is transitive |
| Strings.LessEqAntisymmetric | components/budget/BudgetList.tsx:39 | two strings each ordered before the other are equal |
| Strings.Utf16Length | components/transactions/TransactionForm.tsx:28 | a string has between one and two code units per character |
| Strings.Utf16LengthConcat | components/transactions/TransactionForm.tsx:28 | code-unit length adds up over concatenation |
| Strings.Utf16LengthBasic | components/transactions/TransactionForm.tsx:28 | with no character beyond U+FFFF, the code-unit length is the character count |
| Sorting.SortBy | components/dashboard/RecentTransactions.tsx:20 | the sort keeps the length and is a permutation (same multiset) of its input |
| Sorting.SortBySorted | lib/utils.ts:99 | under a total preorder the sort's output is sorted |
| Sorting.InsertSorted | lib/utils.ts:99 | inserting into a sorted list keeps it sorted |
| Sorting.SortBySum | lib/utils.ts:99 | sorting does not change the sum of any per-element value |
| Sorting.SortedPrefix | components/dashboard/RecentTransactions.tsx:21 | a prefix of a sorted list is sorted, a sub-multiset, and ordered before every element after it |
| Numbers.Round | components/dashboard/SummaryCards.tsx:23 | `Math.round(x)` lies within half a unit of x |
| Numbers.PercentAbove | components/budget/BudgetList.tsx:92-114 | for a positive budget, the percentage is above 100 exactly when spent exceeds the budget |
| Numbers.ShareAbove | lib/data.ts:186-190 | a share above 0.4 means exactly 5·amount > 2·total |
| Numbers.ShareBounds | lib/data.ts:186 | a share of a positive total lies in [0, 1] for 0 ≤ amount ≤ total |
| Months.Shift | components/dashboard/MonthSelector.tsx:16-22 | `addMonths`/`subMonths` move a valid month by exactly k month indices |
| Months.PrevCases | components/dashboard/MonthSelector.tsx:16 | the month before January Y is December of Y−1; otherwise it is month − 1 of the same year |
| Months.NextCases | components/dashboard/MonthSelector.tsx:22 | the month after December Y is January Y+1; otherwise it is month + 1 of the same year |
| Months.PrevNext | components/dashboard/MonthSelector.tsx:15-27 | previous and next month are inverse to each other |
| Months.ParseMonth | components/dashboard/MonthSelector.tsx:12 | a parsed `YYYY-MM` text is a valid month with a four-digit year |
| Months.ParseFormat | lib/utils.ts:112 | `format(date, 'yyyy-MM')` reads back as the printed era year (year 0 as 1, year −1 as 2) and the same month; as the month itself for years 0001-9999 |
| Months.YearOneText | components/dashboard/MonthSelector.tsx:17 | years 1 and 0 both print as "0001" |
| Months.FormatParse | components/dashboard/MonthSelector.tsx:12-17 | formatting a parsed month gives back the exact text from year 0001 on; a year 0000 text comes back with year "0001" |
| Utils.FilterByMonth | lib/utils.ts:44-49 | keeps exactly the transactions whose date starts with the month |
| Utils.FilterByMonthConcat | lib/utils.ts:48 | the month filter keeps the original order: it distributes over concatenation |
| Utils.ByCategory | lib/utils.ts:52-57 | keeps exactly the transactions of the category |
| Utils.ByCategoryConcat | lib/utils.ts:56 | the category filter keeps order: it distributes over concatenation |
| Utils.Expenses | lib/utils.ts:66 | keeps exactly the transactions with a negative amount |
| Utils.MonthlyExpenses | lib/utils.ts:60-69 | the month's expense total is never negative |
| Utils.MonthlyExpensesIsExpenseSum | lib/utils.ts:60-69 | it equals the sum of abs(amount) over the month's negative-amount transactions |
| Utils.SumOfExpenses | lib/utils.ts:64-67 | the sum of the negative amounts is minus the sum of their absolute values |
| Utils.ExpenseSumNonNegative | lib/utils.ts:64 | a sum of abs(expense) is never negative |
| Utils.MonthlyExpensesWithoutExpenses | lib/utils.ts:60-69 | a month without negative amounts totals 0 |
| Utils.MonthlyExpensesIgnores | lib/utils.ts:66 | appending an amount ≥ 0, or a transaction of another month, leaves the total unchanged |
| Utils.MonthlyExpensesAddsExpense | lib/utils.ts:60-69 | appending an expense of the month raises the total by abs(amount) |
| Utils.AddSpend | lib/utils.ts:84-87 | adding to the table raises its total by the amount |
| Utils.AddSpendLookup | lib/utils.ts:84-87 | adding to one key changes only that key's value, by exactly the amount |
| Utils.AddSpendKeys | lib/utils.ts:84-86 | a new key is appended at the end; an existing key keeps its place |
| Utils.BuildSpendingTable | lib/utils.ts:82-89 | the forEach that fills the table computes `SpendingTable` |
| Utils.SpendingTableDistinct | lib/utils.ts:82-89 | the table has each category id at most once |
| Utils.SpendingTablePositive | lib/utils.ts:83-87 | every table value is positive |
| Utils.SpendingTableLookup | lib/utils.ts:82-89 | a category's value is the sum of abs(amount) over its expenses (0 when none) |
| Utils.SpendingTableHasKey | lib/utils.ts:82-89 | a category is in the table exactly when it has an expense |
| Utils.SpendingTableTotal | lib/utils.ts:82-89 | the table's values sum to the expense total |
| Utils.SpendingTableOrder | lib/utils.ts:82-92 | the table's keys are the categories in order of their first expense |
| Utils.PrepareCategoryChartData | lib/utils.ts:72-100 | the method computes `CategoryChartData` |
| Utils.CategoryChartShape | lib/utils.ts:82-99 | the pie data is sorted by value descending, is a permutation of one row per category with spending, and has positive values |
| Utils.ChartEntryNaming | lib/utils.ts:93-97 | an unknown id is shown as 'Unknown' with 'chart-5'; a known one by its name with `chart-<color>` |
| Utils.SumOfChartEntries | lib/utils.ts:92-98 | the chart rows sum to the table total |
| Utils.CategoryChartSumsToMonthlyExpenses | lib/utils.ts:77-99 | the pie values sum to the month's expense total |
| Utils.Series | lib/utils.ts:103-124 | the series has exactly `monthsToShow` bars |
| Utils.PrepareMonthlyExpensesData | lib/utils.ts:103-124 | the unshift loop computes the series of the n months ending at "now", oldest first |
| Utils.SeriesStep | lib/utils.ts:117 | each step puts the month i months back in front of the series built so far |
| Utils.SeriesConsecutive | lib/utils.ts:110-121 | each bar is the month after the previous bar |
| Utils.SeriesEndsAtAnchor | lib/utils.ts:110-121 | the last bar is the month of "now" |
| Utils.FindBudget | lib/utils.ts:150-152 | a matching budget of the category and month, if any; None exactly when none matches |
| Utils.FindBudgetIsFirst | lib/utils.ts:150-152 | the budget found is the first match in list order |
| Utils.PrepareBudgetComparisonData | lib/utils.ts:127-173 | the categories loop computes `BudgetComparison` |
| Utils.IncludedCategories | lib/utils.ts:157 | a category gets rows exactly when its budget or its spending is positive |
| Utils.ComparisonRowsPairs | lib/utils.ts:149-170 | the list has even length; rows 2k and 2k+1 are the budget and actual rows of the k-th included category, in category order |
| Utils.ComparisonColors | lib/utils.ts:161-167 | the actual row is 'destructive' exactly when actual > budget and 'chart-2' otherwise; the budget row is 'primary' |
| SpendingInsights.BudgetInsight | lib/data.ts:139-158 | over budget gives a warning; else above 90% gives info; else under 50% gives success; else nothing |
| SpendingInsights.MonthBudgets | lib/data.ts:138 | keeps exactly the budgets whose month is the current month |
| SpendingInsights.BudgetInsights | lib/data.ts:137-160 | at most one insight per budget |
| SpendingInsights.BudgetInsightsOfMonth | lib/data.ts:137-138 | only current-month budgets produce insights, at most one each, in budget order |
| SpendingInsights.BudgetInsightsNameMonthBudgets | lib/data.ts:140-141 | every budget insight names its category by the categoryId of a budget of the month |
| SpendingInsights.CheckBudgets | lib/data.ts:137-160 | the budgets loop computes `BudgetInsights` |
| SpendingInsights.Highest | lib/data.ts:163-171 | the running maximum is ≥ every table value and is a table entry, or ('', 0) |
| SpendingInsights.HighestIsFirstMaximum | lib/data.ts:166-171 | with strict `>`, the first maximum wins ties |
| SpendingInsights.FindHighest | lib/data.ts:163-171 | the running-maximum loop computes `Highest` |
| SpendingInsights.HighestInsight | lib/data.ts:173-181 | at most one insight; it is emitted exactly when the maximum id is non-empty and a category has it |
| SpendingInsights.HighestIsMonthMaximum | lib/data.ts:125-171 | the highest insight reports its category's month spending, and no category spent more |
| SpendingInsights.CategoryPercentages | lib/data.ts:184-187 | the loop computes `Shares` |
| SpendingInsights.ShareOfEntry | lib/data.ts:184-187 | over the month total every share of a spending table lies in [0, 1] |
| SpendingInsights.ShareSumIsTotal | lib/data.ts:184-187 | the shares add up to the table total over the divisor |
| SpendingInsights.SharesSumToOne | lib/data.ts:184-187 | over the month total the shares of a non-empty table add up to exactly 1 |
| SpendingInsights.ConcentrationInsight | lib/data.ts:190-197 | an insight exactly for a known category whose share is above 0.4 |
| SpendingInsights.UnusualSpending | lib/data.ts:189-199 | the loop computes `ConcentrationInsights` |
| SpendingInsights.ConcentrationAtMostTwo | lib/data.ts:184-199 | at most two categories can exceed 40% of spending |
| SpendingInsights.ConcentrationPercentRange | lib/data.ts:195 | each concentration insight reports between 40 and 100 percent |
| SpendingInsights.MonthTotalPositive | lib/data.ts:119-186 | a month whose table is non-empty has a positive total: line 186 never divides by 0 |
| SpendingInsights.GenerateInsights | lib/data.ts:107-202 | the generator computes `Insights` |
| SpendingInsights.InsightsParts | lib/data.ts:113-201 | the list is the budget insights, then the highest insight, then the concentrations, over a positive total equal to the month's expenses |
| SpendingInsights.InsightsShape | lib/data.ts:137-199 | the output order is fixed: budget insights, at most one highest insight, then at most two concentrations of 40-100% |
| FinanceContext.Replace | context/FinanceContext.tsx:46-50 | keeps length and order; every record with the id becomes the argument, all others are untouched |
| FinanceContext.Remove | context/FinanceContext.tsx:53-55 | keeps exactly the records whose id differs |
| FinanceContext.RemoveConcat | context/FinanceContext.tsx:54 | the filter keeps the survivors in their original order |
| FinanceContext.ReplaceAbsent | context/FinanceContext.tsx:48 | updating an absent id changes nothing |
| FinanceContext.RemoveAbsent | context/FinanceContext.tsx:54 | deleting an absent id changes nothing |
| FinanceContext.AddThenRemove | context/FinanceContext.tsx:40-55 | appending a fresh id and removing it restores the list |
| FinanceContext.FinanceStore.constructor | context/FinanceContext.tsx:27-37 | the initial state, with the insights computed |
| FinanceContext.FinanceStore.RefreshInsights | context/FinanceContext.tsx:34-37 | the effect makes `insights` equal `generateInsights` of the state |
| FinanceContext.FinanceStore.SetCurrentMonth | context/FinanceContext.tsx:31 | selects the month; the state stays valid |
| FinanceContext.FinanceStore.AddTransaction | context/FinanceContext.tsx:40-43 | appends exactly the given fields with the generated id; nothing else changes |
| FinanceContext.FinanceStore.UpdateTransaction | context/FinanceContext.tsx:46-50 | the transactions become `Replace` by id; nothing else changes |
| FinanceContext.FinanceStore.DeleteTransaction | context/FinanceContext.tsx:53-55 | the transactions become `Remove` of the id; nothing else changes |
| FinanceContext.FinanceStore.AddBudget | context/FinanceContext.tsx:58-61 | appends exactly the given fields with the generated id; nothing else changes |
| FinanceContext.FinanceStore.UpdateBudget | context/FinanceContext.tsx:64-66 | the budgets become `Replace` by id; nothing else changes |
| FinanceContext.FinanceStore.DeleteBudget | context/FinanceContext.tsx:69-71 | the budgets become `Remove` of the id; nothing else changes |
| FinanceContext.AddThenDeleteTransaction | context/FinanceContext.tsx:40-55 | add then delete of a fresh generated id restores the transactions |
| SummaryCards.Incomes | components/dashboard/SummaryCards.tsx:27 | keeps exactly the transactions with a positive amount |
| SummaryCards.TotalIncome | components/dashboard/SummaryCards.tsx:26-28 | income sums only positive amounts of the month and is never negative |
| SummaryCards.Summarize | components/dashboard/SummaryCards.tsx:12-31 | the expense and income cards are never negative |
| SummaryCards.TotalBudgetAdd | components/dashboard/SummaryCards.tsx:15-17 | a new budget raises the month's total by its amount exactly when its month is that month |
| SummaryCards.NetSplit | components/dashboard/SummaryCards.tsx:26-31 | a list's amounts sum to income minus abs(expenses) |
| SummaryCards.SavingsIsNetFlow | components/dashboard/SummaryCards.tsx:20-31 | savings are the month's net sum of amounts; remaining is budget minus abs(expenses) |
| SummaryCards.PercentageSpentRange | components/dashboard/SummaryCards.tsx:23 | 0 without a positive budget; ≥ 0; ≤ 100 within budget; ≥ 100 once the budget is reached |
| SummaryCards.SummaryAddExpense | components/dashboard/SummaryCards.tsx:12-31 | a new expense of the month raises expenses and lowers savings by its size |
| CategoryDistribution.Grouped | components/dashboard/CategoryDistributionChart.tsx:28-44 | at most 6 slices; the first min(5, n) entries unchanged; 'Other' exactly when n > 5 and the rest sum above 0, with that sum and 'chart-5'; empty exactly when there is no data |
| CategoryDistribution.SumOfSign | components/dashboard/CategoryDistributionChart.tsx:33-34 | values ≥ 0 sum to ≥ 0, and above 0 when one of them is |
| CategoryDistribution.GroupedKeepsTotal | components/dashboard/CategoryDistributionChart.tsx:15-41 | for values ≥ 0 the slices sum to the chart total |
| CategoryDistribution.PieMatchesMonth | components/dashboard/CategoryDistributionChart.tsx:14-15 | the total shown and the slices both equal the month's expense total |
| CategoryDistribution.OtherSliceOfMonth | components/dashboard/CategoryDistributionChart.tsx:29-41 | 'Other' appears exactly when more than five categories have spending; each own slice is ≥ every folded one |
| BudgetComparisonChart.ProcessData | components/dashboard/BudgetComparisonChart.tsx:22-36 | the stride-2 loop computes `Regroup`, dropping an unpaired last row |
| BudgetComparisonChart.BarsPerCategory | components/dashboard/BudgetComparisonChart.tsx:14-50 | one bar pair per included category, in order, with its budget and spending; "no data" exactly when no category is included |
| BudgetComparisonChart.BarActualIsCategorySpending | components/dashboard/BudgetComparisonChart.tsx:14-36 | each bar's actual is its category's month spending |
| BudgetList.ByCategoryNamePreorder | components/budget/BudgetList.tsx:36-40 | the comparator by category name (unknown as '') is a total preorder |
| BudgetList.ListedBudgetsShape | components/budget/BudgetList.tsx:34-70 | listed budgets are sorted by name, a permutation of the month's budgets, and empty exactly when the month has none |
| BudgetList.ExpensesCategorySum | components/budget/BudgetList.tsx:45 | filtering to expenses first does not change a category's expense sum |
| BudgetList.MonthSpendingLookup | components/budget/BudgetList.tsx:43-90 | "Spent" is the month's sum of abs(amount) over the category's expenses, 0 when none |
| BudgetList.RowFlags | components/budget/BudgetList.tsx:89-114 | remaining is red exactly when spent > amount; percentage 0 when amount ≤ 0; the bar is min(percentage, 100) |
| BudgetList.Rows | components/budget/BudgetList.tsx:88 | one row per listed budget |
| BudgetList.RowsSpent | components/budget/BudgetList.tsx:88-113 | row k is the k-th listed budget with its category's month spending and a bar within 0..100 |
| BudgetList.ConfirmDeleteBudget | components/budget/BudgetList.tsx:57-62 | deletes the pending id and clears it only when it is truthy; otherwise changes nothing |
| ConfirmDelete.DeleteDialog.constructor | components/budget/BudgetList.tsx:31 | starts with no pending id, closed |
| ConfirmDelete.DeleteDialog.HandleDelete | components/transactions/TransactionList.tsx:42-44 | remembers the id; the dialog opens exactly when it is non-empty |
| ConfirmDelete.DeleteDialog.CancelDelete | components/transactions/TransactionList.tsx:53-55 | clears the pending id without deleting |
| RecentTransactions.NewestFirstPreorder | components/dashboard/RecentTransactions.tsx:20 | the date-descending comparator is a total preorder |
| RecentTransactions.RecentShape | components/dashboard/RecentTransactions.tsx:16-21 | newest first; only month transactions, each at most as often as in the month; exactly min(limit, n) for limit ≥ 0; no omitted month transaction is newer than a shown one |
| RecentTransactions.RecentDefault | components/dashboard/RecentTransactions.tsx:16-21 | the default shows min(5, n); with at most five it shows them all |
| TransactionList.Search | components/transactions/TransactionList.tsx:36-39 | keeps exactly the transactions matching the query by description or category name |
| TransactionList.ListedShape | components/transactions/TransactionList.tsx:35-40 | shown items are of the month, match the query, are sorted newest first, and are a permutation of the matches |
| TransactionList.SearchKeepsAll | components/transactions/TransactionList.tsx:36-39 | a query everything matches keeps the whole list |
| TransactionList.EmptyQueryShowsMonth | components/transactions/TransactionList.tsx:35-39 | the empty query shows every month transaction |
| TransactionList.QueryIgnoresCase | components/transactions/TransactionList.tsx:37-38 | the query's case does not matter |
| TransactionList.ConfirmDeleteTransaction | components/transactions/TransactionList.tsx:46-51 | deletes the pending id and clears it only when it is truthy; otherwise changes nothing |
| MonthSelector.GoToPrevMonth | components/dashboard/MonthSelector.tsx:15-18 | selects the date-fns text of the month before (`PrevMonthOf`); the state stays valid |
| MonthSelector.GoToNextMonth | components/dashboard/MonthSelector.tsx:21-27 | selects the next month unless that is after now; the state stays valid |
| MonthSelector.NextMonthRule | components/dashboard/MonthSelector.tsx:21-34 | next is a no-op exactly when the button is disabled; otherwise it changes the text, moves one month on with the era year, never past now, and to exactly the next month from year 0001 on |
| MonthSelector.PrevMonthRule | components/dashboard/MonthSelector.tsx:15-18 | prev always changes the text, and the new text always reads back: as the month before with its era year, which is the month before itself from 0002-01 on |
| MonthSelector.FirstMonthWraps | components/dashboard/MonthSelector.tsx:15-18 | prev from "0001-01" selects "0001-12" |
| MonthSelector.WrappedMonthAdvances | components/dashboard/MonthSelector.tsx:21-27 | next from that "0001-12" selects "0002-01" once now is 0002-01 or later |
| MonthSelector.FirstMonthTexts | components/dashboard/MonthSelector.tsx:17-25 | the texts date-fns prints for 0001-01, 0000-12, 0001-12 and 0002-01 |
| MonthSelector.PrevThenNext | components/dashboard/MonthSelector.tsx:15-27 | from 0002-01 on, next after prev returns the original month when it is not after now |
| MonthSelector.NextThenPrev | components/dashboard/MonthSelector.tsx:15-27 | when next is allowed, prev after next returns the printed form of the original month: the text itself from year 0001 on, its year 0001 form for a year 0000 text |
| MonthSelector.PrevOfReadNext | components/dashboard/MonthSelector.tsx:15-27 | the month before the read-back next month prints as the month itself |
| TransactionForm.Validate | components/transactions/TransactionForm.tsx:28-43 | valid exactly when the description has ≥ 2 UTF-16 code units, the amount parses non-zero and the date parses; one error per failing field |
| TransactionForm.DescriptionLengthInUnits | components/transactions/TransactionForm.tsx:28 | a one-character description passes the length rule exactly when the character lies beyond U+FFFF |
| TransactionForm.Submit | components/transactions/TransactionForm.tsx:68-88 | a submission happens exactly when validation passes |
| TransactionForm.EditRoundTrip | components/transactions/TransactionForm.tsx:48-84 | submitting an edited transaction's defaults unchanged updates it to itself |
| TransactionForm.BlankFormRejected | components/transactions/TransactionForm.tsx:48-66 | a new form defaults to an expense and is rejected until filled |
| TransactionForm.SubmittedSign | components/transactions/TransactionForm.tsx:70-71 | the saved amount is non-zero and negative exactly for an expense (for a positive typed amount) |
| TransactionForm.SubmitForm | components/transactions/TransactionForm.tsx:68-90 | exactly one of add or update (with the same id) happens for a valid form, none for an invalid one |
| BudgetForm.SubmitBudget | components/budget/BudgetForm.tsx:26-75 | accepted exactly when the amount parses above 0 |
| BudgetForm.EditBudgetRoundTrip | components/budget/BudgetForm.tsx:47-72 | saving an edited budget's defaults in its own month writes the budget back unchanged |
| BudgetForm.EditMovesToCurrentMonth | components/budget/BudgetForm.tsx:59-69 | a saved budget keeps the edited id and always gets the current month |
| BudgetForm.SubmitBudgetForm | components/budget/BudgetForm.tsx:55-75 | exactly one of add or update happens for a valid form, none for an invalid one |
| BudgetForm.AvailableCategories | components/budget/BudgetForm.tsx:40-80 | the filter as written keeps at most the given categories |
| BudgetForm.AvailableCategoriesKeepsAll | components/budget/BudgetForm.tsx:40-80 | as written, the filter keeps every category |
| BudgetForm.DuplicateBudgetOffered | components/budget/BudgetForm.tsx:40-80 | for any month, a category that already has a budget in it is offered, accepted with a positive amount, and saving gives the month at least two budgets for it |
| BudgetForm.MatchCountPositive | components/budget/BudgetForm.tsx:40-80 | a list holding a matching budget counts at least one match |
| BudgetForm.IntendedAvailableCategories | components/budget/BudgetForm.tsx:77-80 | the intended filter keeps exactly the categories without a budget this month, plus the edited one |
| BudgetForm.IntendedPreventsDuplicates | components/budget/BudgetForm.tsx:77-80 | adding through the intended filter leaves the chosen category with exactly one budget; other counts are unchanged |

## Left out

- Floating point: amounts are integers (cents) and shares are exact reals. Rounding error in sums and in `Math.round` of JS doubles is not modelled.
- Sorting.SortBy: the model states sortedness and permutation, not stability. `Insert` places an element after every element it may follow, so the sort is stable by construction, as JS sorts are, but stability is not proved.
- `Object.entries` puts integer-like keys (such as `"12"`) first in ascending numeric order. The model keeps plain insertion order for every key.
- `generateId` (`Math.random`) is a parameter, so freshness of the generated id is an explicit precondition where a lemma needs it.
- `FinanceContext.FinanceStore.constructor` computes the insights at once. The one render before the first effect, where `insights` is `[]`, is not modelled.
- The sample transaction, budget and category arrays of lib/data.ts are data, not behaviour.
- `getCurrentMonth`, `new Date()` and today's date are parameters. The date-fns calls and the time zone behind `new Date('YYYY-MM-01')` and `isAfter` are not modelled; "now" is given by its calendar month.
- MonthSelector.GoToPrevMonth and MonthSelector.GoToNextMonth: for an unparseable `currentMonth`, where date-fns formatting would throw a RangeError, the model changes nothing.
- MonthSelector.PrevThenNext: stated from 0002-01 on. Before that, prev from "0001-01" selects "0001-12" and next then selects "0002-01" (`FirstMonthWraps`, `WrappedMonthAdvances`), so the round trip does not hold there.
- `formatCurrency`, `formatDate`, `getMonthName`, `parseDate` (Intl and date-fns formatting) are not modelled. Insight messages are kept as structured values, not text.
- `cn` (class-name merging) and every colour, theme and chart-style choice are styling only.
- `parseFloat` and `Date.parse` are parameters: the parsed amount is an input option and date validity a predicate.
- `localeCompare` is ordinal order by code point and `toLowerCase` lowers only ASCII letters. Locale collation, UTF-16 code-unit order and Unicode case mapping are not modelled.
- React rendering, hooks, Recharts, dialogs' open/close toggles, the settings page, the header and the insight icons are UI only.

## Findings

| source | as written | input that shows it | evidently intended | confidence | as-written member | corrected member |
|---|---|---|---|---|---|---|
| components/budget/BudgetForm.tsx:40-80 | the "existing budget categories" set holds only the edited budget's own category, which the filter re-admits, so every category is offered | a budget for "food" in 2024-03 and the new-budget form in 2024-03: "food" is offered, and saving it gives the month two "food" budgets | offer only categories without a budget in the current month, plus the one being edited | medium, not executed | BudgetForm.DuplicateBudgetOffered | BudgetForm.IntendedPreventsDuplicates |
