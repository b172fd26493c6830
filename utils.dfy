/**
 * The aggregation library of lib/utils.ts: month filtering, expense totals, the per-category
 * spending table, and the three chart series built from it.
 */
module Utils {
  import opened Types
  import opened Strings
  import opened Sorting
  import opened Months

  // ---- filters and sums ----

  /** `filterTransactionsByMonth`: the transactions whose date starts with `month`, in order. */
  function FilterByMonth(ts: seq<Transaction>, month: string): (r: seq<Transaction>)
    ensures |r| <= |ts|
    ensures forall t :: t in r <==> t in ts && StartsWith(t.date, month)
  {
    if ts == [] then []
    else (if StartsWith(ts[0].date, month) then [ts[0]] else []) + FilterByMonth(ts[1..], month)
  }

  /** `getTransactionsByCategory`: the transactions of one category, in order. */
  function ByCategory(ts: seq<Transaction>, categoryId: string): (r: seq<Transaction>)
    ensures |r| <= |ts|
    ensures forall t :: t in r <==> t in ts && t.categoryId == categoryId
  {
    if ts == [] then []
    else (if ts[0].categoryId == categoryId then [ts[0]] else []) + ByCategory(ts[1..], categoryId)
  }

  /** `.filter((t) => t.amount < 0)`. */
  function Expenses(ts: seq<Transaction>): (r: seq<Transaction>)
    ensures forall t :: t in r <==> t in ts && t.amount < 0
  {
    if ts == [] then []
    else (if ts[0].amount < 0 then [ts[0]] else []) + Expenses(ts[1..])
  }

  /** `.reduce((sum, t) => sum + t.amount, 0)`. */
  function SumAmounts(ts: seq<Transaction>): int {
    if ts == [] then 0 else ts[0].amount + SumAmounts(ts[1..])
  }

  function Abs(x: int): int { if x < 0 then -x else x }

  /** Reference definition: the sum of |amount| over the negative-amount transactions. */
  function ExpenseSum(ts: seq<Transaction>): int {
    if ts == [] then 0 else (if ts[0].amount < 0 then -ts[0].amount else 0) + ExpenseSum(ts[1..])
  }

  /** `calculateMonthlyExpenses`: |sum of the month's negative amounts|. */
  function MonthlyExpenses(ts: seq<Transaction>, month: string): (r: int)
    ensures r >= 0
  {
    Abs(SumAmounts(Expenses(FilterByMonth(ts, month))))
  }

  lemma {:induction false} FilterByMonthConcat(a: seq<Transaction>, b: seq<Transaction>, month: string)
    ensures FilterByMonth(a + b, month) == FilterByMonth(a, month) + FilterByMonth(b, month)
    decreases |a|
  {
    if a != [] {
      assert (a + b)[1..] == a[1..] + b;
      FilterByMonthConcat(a[1..], b, month);
    } else {
      assert a + b == b;
    }
  }

  lemma {:induction false} ByCategoryConcat(a: seq<Transaction>, b: seq<Transaction>, id: string)
    ensures ByCategory(a + b, id) == ByCategory(a, id) + ByCategory(b, id)
    decreases |a|
  {
    if a != [] {
      assert (a + b)[1..] == a[1..] + b;
      ByCategoryConcat(a[1..], b, id);
    } else {
      assert a + b == b;
    }
  }

  lemma {:induction false} ExpenseSumConcat(a: seq<Transaction>, b: seq<Transaction>)
    ensures ExpenseSum(a + b) == ExpenseSum(a) + ExpenseSum(b)
    decreases |a|
  {
    if a != [] {
      assert (a + b)[1..] == a[1..] + b;
      ExpenseSumConcat(a[1..], b);
    } else {
      assert a + b == b;
    }
  }

  lemma {:induction false} ExpenseSumNonNegative(ts: seq<Transaction>)
    ensures ExpenseSum(ts) >= 0
    decreases |ts|
  {
    if ts != [] {
      ExpenseSumNonNegative(ts[1..]);
    }
  }

  lemma {:induction false} SumOfExpenses(ts: seq<Transaction>)
    ensures SumAmounts(Expenses(ts)) == -ExpenseSum(ts)
    decreases |ts|
  {
    if ts != [] {
      SumOfExpenses(ts[1..]);
      var head := if ts[0].amount < 0 then [ts[0]] else [];
      SumAmountsConcat(head, Expenses(ts[1..]));
    }
  }

  lemma {:induction false} SumAmountsConcat(a: seq<Transaction>, b: seq<Transaction>)
    ensures SumAmounts(a + b) == SumAmounts(a) + SumAmounts(b)
    decreases |a|
  {
    if a != [] {
      assert (a + b)[1..] == a[1..] + b;
      SumAmountsConcat(a[1..], b);
    } else {
      assert a + b == b;
    }
  }

  /** The month total is the sum of |amount| over the month's expenses. */
  lemma {:induction false} MonthlyExpensesIsExpenseSum(ts: seq<Transaction>, month: string)
    ensures MonthlyExpenses(ts, month) == ExpenseSum(FilterByMonth(ts, month))
  {
    SumOfExpenses(FilterByMonth(ts, month));
    ExpenseSumNonNegative(FilterByMonth(ts, month));
  }

  /** A month with no expense transactions totals 0. */
  lemma {:induction false} MonthlyExpensesWithoutExpenses(ts: seq<Transaction>, month: string)
    requires forall t :: t in ts && StartsWith(t.date, month) ==> t.amount >= 0
    ensures MonthlyExpenses(ts, month) == 0
  {
    var m := FilterByMonth(ts, month);
    assert Expenses(m) == [] by {
      if Expenses(m) != [] {
        assert Expenses(m)[0] in Expenses(m);
      }
    }
  }

  /** Adding income, or a transaction of another month, leaves the month total as it was. */
  lemma {:induction false} MonthlyExpensesIgnores(ts: seq<Transaction>, t: Transaction, month: string)
    requires t.amount >= 0 || !StartsWith(t.date, month)
    ensures MonthlyExpenses(ts + [t], month) == MonthlyExpenses(ts, month)
  {
    FilterByMonthConcat(ts, [t], month);
    MonthlyExpensesIsExpenseSum(ts + [t], month);
    MonthlyExpensesIsExpenseSum(ts, month);
    ExpenseSumConcat(FilterByMonth(ts, month), FilterByMonth([t], month));
    assert FilterByMonth([t], month) == (if StartsWith(t.date, month) then [t] else []);
  }

  /** Adding an expense of the month raises the month total by its absolute amount. */
  lemma {:induction false} MonthlyExpensesAddsExpense(ts: seq<Transaction>, t: Transaction, month: string)
    requires t.amount < 0 && StartsWith(t.date, month)
    ensures MonthlyExpenses(ts + [t], month) == MonthlyExpenses(ts, month) - t.amount
  {
    FilterByMonthConcat(ts, [t], month);
    MonthlyExpensesIsExpenseSum(ts + [t], month);
    MonthlyExpensesIsExpenseSum(ts, month);
    ExpenseSumConcat(FilterByMonth(ts, month), FilterByMonth([t], month));
    assert FilterByMonth([t], month) == [t];
  }

  // ---- the per-category spending table ----

  /** One entry of a `Record<string, number>` keyed by category id. */
  datatype Spend = Spend(categoryId: string, amount: int)

  function Keys(table: seq<Spend>): (r: seq<string>)
    ensures |r| == |table|
  {
    if table == [] then [] else [table[0].categoryId] + Keys(table[1..])
  }

  lemma {:induction false} KeysAt(table: seq<Spend>, k: int)
    requires 0 <= k < |table|
    ensures Keys(table)[k] == table[k].categoryId
    decreases k
  {
    if k > 0 {
      KeysAt(table[1..], k - 1);
    }
  }

  predicate HasKey(table: seq<Spend>, id: string) {
    id in Keys(table)
  }

  /** `table[id] || 0`. */
  function Lookup(table: seq<Spend>, id: string): int {
    if table == [] then 0
    else if table[0].categoryId == id then table[0].amount
    else Lookup(table[1..], id)
  }

  function TableTotal(table: seq<Spend>): int {
    if table == [] then 0 else table[0].amount + TableTotal(table[1..])
  }

  ghost predicate Distinct(s: seq<string>) {
    forall i, j :: 0 <= i < j < |s| ==> s[i] != s[j]
  }

  ghost predicate DistinctKeys(table: seq<Spend>) {
    Distinct(Keys(table))
  }

  ghost predicate AllPositive(table: seq<Spend>) {
    forall e :: e in table ==> e.amount > 0
  }

  /**
   * `if (!table[id]) table[id] = 0; table[id] += amount`: an existing key is incremented in
   * place, a new key is appended at the end (insertion order).
   */
  function AddSpend(table: seq<Spend>, id: string, amount: int): (r: seq<Spend>)
    ensures TableTotal(r) == TableTotal(table) + amount
  {
    if table == [] then [Spend(id, amount)]
    else if table[0].categoryId == id then [Spend(id, table[0].amount + amount)] + table[1..]
    else
      var rest := AddSpend(table[1..], id, amount);
      assert ([table[0]] + rest)[1..] == rest;
      [table[0]] + rest
  }

  /** Only the entry of `id` changes, and it grows by `amount`. */
  lemma {:induction false} AddSpendLookup(table: seq<Spend>, id: string, amount: int, k: string)
    ensures Lookup(AddSpend(table, id, amount), k) == Lookup(table, k) + (if k == id then amount else 0)
    decreases |table|
  {
    if table != [] && table[0].categoryId != id {
      AddSpendLookup(table[1..], id, amount, k);
      assert ([table[0]] + AddSpend(table[1..], id, amount))[1..] == AddSpend(table[1..], id, amount);
    } else if table != [] {
      assert ([Spend(id, table[0].amount + amount)] + table[1..])[1..] == table[1..];
    }
  }

  /** A new key goes to the end; an existing key keeps its place. */
  lemma {:induction false} AddSpendKeys(table: seq<Spend>, id: string, amount: int)
    ensures Keys(AddSpend(table, id, amount)) == if id in Keys(table) then Keys(table) else Keys(table) + [id]
    decreases |table|
  {
    if table != [] && table[0].categoryId != id {
      AddSpendKeys(table[1..], id, amount);
      assert ([table[0]] + AddSpend(table[1..], id, amount))[1..] == AddSpend(table[1..], id, amount);
    } else if table != [] {
      assert ([Spend(id, table[0].amount + amount)] + table[1..])[1..] == table[1..];
    }
  }

  lemma {:induction false} AddSpendDistinct(table: seq<Spend>, id: string, amount: int)
    requires DistinctKeys(table)
    ensures DistinctKeys(AddSpend(table, id, amount))
  {
    AddSpendKeys(table, id, amount);
  }

  lemma {:induction false} AddSpendPositive(table: seq<Spend>, id: string, amount: int)
    requires AllPositive(table) && amount > 0
    ensures AllPositive(AddSpend(table, id, amount))
    decreases |table|
  {
    if table != [] && table[0].categoryId != id {
      assert AllPositive(table[1..]) by {
        forall e | e in table[1..] ensures e.amount > 0 { assert e in table; }
      }
      AddSpendPositive(table[1..], id, amount);
    } else if table != [] {
      assert table[0] in table;
      forall e | e in table[1..] ensures e.amount > 0 { assert e in table; }
    }
  }

  /**
   * The `forEach` that fills `spendingByCategory` (expensesByCategory): for each expense, in
   * order, add |amount| under its category id.
   */
  function SpendingTable(ts: seq<Transaction>): seq<Spend> {
    if ts == [] then []
    else
      var last := ts[|ts| - 1];
      var prev := SpendingTable(ts[..|ts| - 1]);
      if last.amount < 0 then AddSpend(prev, last.categoryId, -last.amount) else prev
  }

  method BuildSpendingTable(ts: seq<Transaction>) returns (table: seq<Spend>)
    ensures table == SpendingTable(ts)
  {
    table := [];
    var i := 0;
    while i < |ts|
      invariant 0 <= i <= |ts|
      invariant table == SpendingTable(ts[..i])
    {
      assert ts[..i + 1][..i] == ts[..i];
      var t := ts[i];
      if t.amount < 0 {
        table := AddSpend(table, t.categoryId, Abs(t.amount));
      }
      i := i + 1;
    }
    assert ts[..i] == ts;
  }

  /** Each category id occurs once in the table. */
  lemma {:induction false} SpendingTableDistinct(ts: seq<Transaction>)
    ensures DistinctKeys(SpendingTable(ts))
    decreases |ts|
  {
    if ts != [] {
      var init, last := ts[..|ts| - 1], ts[|ts| - 1];
      SpendingTableDistinct(init);
      if last.amount < 0 {
        AddSpendDistinct(SpendingTable(init), last.categoryId, -last.amount);
      }
    }
  }

  /** Every amount in the table is positive. */
  lemma {:induction false} SpendingTablePositive(ts: seq<Transaction>)
    ensures AllPositive(SpendingTable(ts))
    decreases |ts|
  {
    if ts != [] {
      var init, last := ts[..|ts| - 1], ts[|ts| - 1];
      SpendingTablePositive(init);
      if last.amount < 0 {
        AddSpendPositive(SpendingTable(init), last.categoryId, -last.amount);
      }
    }
  }

  /** What one transaction adds to the entry of category `id`. */
  function Contribution(t: Transaction, id: string): int {
    if t.amount < 0 && t.categoryId == id then -t.amount else 0
  }

  lemma {:induction false} LookupStep(ts: seq<Transaction>, id: string)
    requires ts != []
    ensures Lookup(SpendingTable(ts), id)
         == Lookup(SpendingTable(ts[..|ts| - 1]), id) + Contribution(ts[|ts| - 1], id)
  {
    var init, last := ts[..|ts| - 1], ts[|ts| - 1];
    if last.amount < 0 {
      AddSpendLookup(SpendingTable(init), last.categoryId, -last.amount, id);
    }
  }

  lemma {:induction false} CategorySumStep(ts: seq<Transaction>, id: string)
    requires ts != []
    ensures ExpenseSum(ByCategory(ts, id))
         == ExpenseSum(ByCategory(ts[..|ts| - 1], id)) + Contribution(ts[|ts| - 1], id)
  {
    var init, last := ts[..|ts| - 1], ts[|ts| - 1];
    var tail := if last.categoryId == id then [last] else [];
    assert init + [last] == ts;
    ByCategoryConcat(init, [last], id);
    assert ByCategory([last], id) == tail;
    ExpenseSumConcat(ByCategory(init, id), tail);
    if last.categoryId == id {
      assert tail[1..] == [];
    }
  }

  /** The entry of a category is the sum of |amount| of that category's expenses (0 when absent). */
  lemma {:induction false} SpendingTableLookup(ts: seq<Transaction>, id: string)
    ensures Lookup(SpendingTable(ts), id) == ExpenseSum(ByCategory(ts, id))
    decreases |ts|
  {
    if ts != [] {
      SpendingTableLookup(ts[..|ts| - 1], id);
      LookupStep(ts, id);
      CategorySumStep(ts, id);
    }
  }

  /** Some transaction of ts is an expense of category `id`. */
  ghost predicate HasExpenseIn(ts: seq<Transaction>, id: string) {
    exists t :: t in ts && t.amount < 0 && t.categoryId == id
  }

  lemma {:induction false} HasExpenseStep(ts: seq<Transaction>, id: string)
    requires ts != []
    ensures HasExpenseIn(ts, id)
        <==> HasExpenseIn(ts[..|ts| - 1], id) || (ts[|ts| - 1].amount < 0 && ts[|ts| - 1].categoryId == id)
  {
    var init, last := ts[..|ts| - 1], ts[|ts| - 1];
    assert ts == init + [last];
    if HasExpenseIn(ts, id) {
      var t :| t in ts && t.amount < 0 && t.categoryId == id;
      assert t in init || t == last;
    }
    if HasExpenseIn(init, id) {
      var t :| t in init && t.amount < 0 && t.categoryId == id;
      assert t in ts;
    }
  }

  lemma {:induction false} HasKeyStep(ts: seq<Transaction>, id: string)
    requires ts != []
    ensures HasKey(SpendingTable(ts), id)
        <==> HasKey(SpendingTable(ts[..|ts| - 1]), id) || (ts[|ts| - 1].amount < 0 && ts[|ts| - 1].categoryId == id)
  {
    var init, last := ts[..|ts| - 1], ts[|ts| - 1];
    if last.amount < 0 {
      AddSpendKeys(SpendingTable(init), last.categoryId, -last.amount);
    }
  }

  /** A category has an entry exactly when it has an expense. */
  lemma {:induction false} SpendingTableHasKey(ts: seq<Transaction>, id: string)
    ensures HasKey(SpendingTable(ts), id) <==> HasExpenseIn(ts, id)
    decreases |ts|
  {
    if ts != [] {
      SpendingTableHasKey(ts[..|ts| - 1], id);
      HasKeyStep(ts, id);
      HasExpenseStep(ts, id);
    }
  }

  /** The table's amounts add up to the sum of |amount| of all expenses. */
  lemma {:induction false} SpendingTableTotal(ts: seq<Transaction>)
    ensures TableTotal(SpendingTable(ts)) == ExpenseSum(ts)
    decreases |ts|
  {
    if ts != [] {
      var init, last := ts[..|ts| - 1], ts[|ts| - 1];
      SpendingTableTotal(init);
      assert init + [last] == ts;
      ExpenseSumConcat(init, [last]);
    }
  }

  /** The ids of the expenses, each kept at its first occurrence. */
  function FirstOccurrences(ts: seq<Transaction>): seq<string> {
    if ts == [] then []
    else
      var prev := FirstOccurrences(ts[..|ts| - 1]);
      var last := ts[|ts| - 1];
      if last.amount >= 0 || last.categoryId in prev then prev else prev + [last.categoryId]
  }

  /** The table keeps its keys in the order in which the categories first had an expense. */
  lemma {:induction false} SpendingTableOrder(ts: seq<Transaction>)
    ensures Keys(SpendingTable(ts)) == FirstOccurrences(ts)
    decreases |ts|
  {
    if ts != [] {
      var init, last := ts[..|ts| - 1], ts[|ts| - 1];
      SpendingTableOrder(init);
      if last.amount < 0 {
        AddSpendKeys(SpendingTable(init), last.categoryId, -last.amount);
      }
    }
  }

  lemma {:induction false} TableTotalAtLeastEntry(table: seq<Spend>, k: nat)
    requires AllPositive(table) && k < |table|
    ensures TableTotal(table) >= table[k].amount > 0
    decreases |table|
  {
    if k > 0 {
      assert table[1..][k - 1] == table[k];
      TableTotalAtLeastEntry(table[1..], k - 1);
    } else {
      TableTotalNonNegative(table[1..]);
    }
  }

  lemma {:induction false} TableTotalNonNegative(table: seq<Spend>)
    requires AllPositive(table)
    ensures TableTotal(table) >= 0
    decreases |table|
  {
    if table != [] {
      TableTotalNonNegative(table[1..]);
    }
  }

  // ---- prepareCategoryChartData ----

  function Value(c: ChartData): int { c.value }

  /** The comparator `(a, b) => b.value - a.value`: highest value first. */
  predicate ValueDesc(a: ChartData, b: ChartData) { a.value >= b.value }

  lemma {:induction false} ValueDescPreorder()
    ensures TotalPreorder(ValueDesc)
  {
  }

  /** One chart row per table entry: the category's name and `chart-<color>`, or 'Unknown'. */
  function ChartEntry(e: Spend, categories: seq<Category>): ChartData {
    match FindCategory(categories, e.categoryId)
    case Some(c) => ChartData(c.name, e.amount, Some("chart-" + c.color))
    case None => ChartData("Unknown", e.amount, Some("chart-5"))
  }

  function ChartEntries(table: seq<Spend>, categories: seq<Category>): (r: seq<ChartData>)
    ensures |r| == |table| && forall i :: 0 <= i < |table| ==> r[i] == ChartEntry(table[i], categories)
  {
    seq(|table|, i requires 0 <= i < |table| => ChartEntry(table[i], categories))
  }

  function CategoryChartData(ts: seq<Transaction>, categories: seq<Category>, month: string): seq<ChartData> {
    SortBy(ChartEntries(SpendingTable(FilterByMonth(ts, month)), categories), ValueDesc)
  }

  method PrepareCategoryChartData(ts: seq<Transaction>, categories: seq<Category>, month: string)
    returns (r: seq<ChartData>)
    ensures r == CategoryChartData(ts, categories, month)
  {
    var monthTransactions := FilterByMonth(ts, month);
    var expensesByCategory := BuildSpendingTable(monthTransactions);
    r := SortBy(ChartEntries(expensesByCategory, categories), ValueDesc);
  }

  lemma {:induction false} SumOfChartEntries(table: seq<Spend>, categories: seq<Category>)
    ensures SumOf(ChartEntries(table, categories), Value) == TableTotal(table)
    decreases |table|
  {
    if table != [] {
      SumOfChartEntries(table[1..], categories);
      assert ChartEntries(table, categories)[1..] == ChartEntries(table[1..], categories);
    }
  }

  /** The pie chart's slices add up to the month's expense total. */
  lemma {:induction false} CategoryChartSumsToMonthlyExpenses(ts: seq<Transaction>, categories: seq<Category>, month: string)
    ensures SumOf(CategoryChartData(ts, categories, month), Value) == MonthlyExpenses(ts, month)
  {
    var table := SpendingTable(FilterByMonth(ts, month));
    SortBySum(ChartEntries(table, categories), ValueDesc, Value);
    SumOfChartEntries(table, categories);
    SpendingTableTotal(FilterByMonth(ts, month));
    MonthlyExpensesIsExpenseSum(ts, month);
  }

  /**
   * The chart data is sorted by value, highest first, and is a permutation of one row per table
   * entry: one row per category id with expenses in the month, each with a positive value.
   */
  lemma {:induction false} CategoryChartShape(ts: seq<Transaction>, categories: seq<Category>, month: string)
    ensures Sorted(CategoryChartData(ts, categories, month), ValueDesc)
    ensures multiset(CategoryChartData(ts, categories, month))
         == multiset(ChartEntries(SpendingTable(FilterByMonth(ts, month)), categories))
    ensures forall x :: x in CategoryChartData(ts, categories, month) ==> x.value > 0
  {
    var table := SpendingTable(FilterByMonth(ts, month));
    ValueDescPreorder();
    SortBySorted(ChartEntries(table, categories), ValueDesc);
    SpendingTablePositive(FilterByMonth(ts, month));
    forall x | x in CategoryChartData(ts, categories, month) ensures x.value > 0 {
      assert x in multiset(ChartEntries(table, categories));
      var i :| 0 <= i < |table| && ChartEntries(table, categories)[i] == x;
      assert table[i] in table;
    }
  }

  /** A known category is shown by name with color `chart-<color>`; an unknown one as 'Unknown', 'chart-5'. */
  lemma {:induction false} ChartEntryNaming(e: Spend, categories: seq<Category>)
    ensures (forall c :: c in categories ==> c.id != e.categoryId)
            ==> ChartEntry(e, categories) == ChartData("Unknown", e.amount, Some("chart-5"))
    ensures (exists c :: c in categories && c.id == e.categoryId)
            ==> exists c :: c in categories && c.id == e.categoryId
                 && ChartEntry(e, categories) == ChartData(c.name, e.amount, Some("chart-" + c.color))
  {
  }

  // ---- prepareMonthlyExpensesData ----

  /** One bar of the monthly series: the month's short name and its expense total. */
  function SeriesPoint(ts: seq<Transaction>, ym: YearMonth): ChartData
    requires ValidMonth(ym)
  {
    ChartData(MonthAbbrev(ym), MonthlyExpenses(ts, FormatMonth(ym)), None)
  }

  /** The n months ending at `anchor`, oldest first: bar k shows the month k + 1 - n months away. */
  function Series(ts: seq<Transaction>, anchor: YearMonth, n: nat): (r: seq<ChartData>)
    requires ValidMonth(anchor)
    ensures |r| == n
  {
    seq(n, k requires 0 <= k < n => SeriesPoint(ts, Shift(anchor, k + 1 - n)))
  }

  lemma {:induction false} SeriesStep(ts: seq<Transaction>, anchor: YearMonth, i: nat)
    requires ValidMonth(anchor)
    ensures Series(ts, anchor, i + 1) == [SeriesPoint(ts, Shift(anchor, 0 - i))] + Series(ts, anchor, i)
  {
    var a, b := Series(ts, anchor, i + 1), [SeriesPoint(ts, Shift(anchor, 0 - i))] + Series(ts, anchor, i);
    forall k | 0 <= k < i + 1
      ensures a[k] == b[k]
    {
      if k > 0 {
        assert b[k] == Series(ts, anchor, i)[k - 1];
        assert (k - 1) + 1 - i == k + 1 - (i + 1);
      }
    }
  }

  /**
   * `prepareMonthlyExpensesData`, with the month of "now" as the parameter `anchor`: the
   * `monthsToShow` months ending at `anchor`, oldest first (none when monthsToShow < 1).
   */
  method PrepareMonthlyExpensesData(ts: seq<Transaction>, anchor: YearMonth, monthsToShow: int)
    returns (result: seq<ChartData>)
    requires ValidMonth(anchor)
    ensures result == Series(ts, anchor, if monthsToShow > 0 then monthsToShow else 0)
  {
    result := [];
    var n := if monthsToShow > 0 then monthsToShow else 0;
    var i := 0;
    while i < n
      invariant 0 <= i <= n
      invariant result == Series(ts, anchor, i)
    {
      var date := Shift(anchor, -i);
      var monthlyExpense := MonthlyExpenses(ts, FormatMonth(date));
      SeriesStep(ts, anchor, i);
      result := [ChartData(MonthAbbrev(date), monthlyExpense, None)] + result;
      i := i + 1;
    }
  }

  /** Each bar shows the month after the previous bar's month. */
  lemma {:induction false} SeriesConsecutive(ts: seq<Transaction>, anchor: YearMonth, n: nat, k: int)
    requires ValidMonth(anchor) && 1 <= k < n
    ensures Series(ts, anchor, n)[k] == SeriesPoint(ts, Next(Shift(anchor, k - n)))
  {
    IndexInjective(Shift(anchor, k + 1 - n), Next(Shift(anchor, k - n)));
  }

  /** The newest bar is the anchor month. */
  lemma {:induction false} SeriesEndsAtAnchor(ts: seq<Transaction>, anchor: YearMonth, n: nat)
    requires ValidMonth(anchor) && n > 0
    ensures Series(ts, anchor, n)[n - 1] == SeriesPoint(ts, anchor)
  {
    IndexInjective(Shift(anchor, 0), anchor);
    assert Shift(anchor, (n - 1) + 1 - n) == anchor;
  }

  // ---- prepareBudgetComparisonData ----

  predicate BudgetMatches(b: Budget, categoryId: string, month: string) {
    b.categoryId == categoryId && b.month == month
  }

  /** `budgets.find((b) => b.categoryId === id && b.month === month)`. */
  function FindBudget(budgets: seq<Budget>, categoryId: string, month: string): (r: Option<Budget>)
    ensures r.Some? ==> r.value in budgets && BudgetMatches(r.value, categoryId, month)
    ensures r.None? <==> forall b :: b in budgets ==> !BudgetMatches(b, categoryId, month)
  {
    if budgets == [] then None
    else if BudgetMatches(budgets[0], categoryId, month) then Some(budgets[0])
    else FindBudget(budgets[1..], categoryId, month)
  }

  /** The budget used is the first matching one in list order. */
  lemma {:induction false} FindBudgetIsFirst(budgets: seq<Budget>, categoryId: string, month: string, k: nat)
    requires k < |budgets| && BudgetMatches(budgets[k], categoryId, month)
    requires forall j :: 0 <= j < k ==> !BudgetMatches(budgets[j], categoryId, month)
    ensures FindBudget(budgets, categoryId, month) == Some(budgets[k])
    decreases k
  {
    if k > 0 {
      FindBudgetIsFirst(budgets[1..], categoryId, month, k - 1);
    }
  }

  function BudgetAmount(budgets: seq<Budget>, c: Category, month: string): int {
    match FindBudget(budgets, c.id, month)
    case Some(b) => b.amount
    case None => 0
  }

  predicate Included(table: seq<Spend>, budgets: seq<Budget>, c: Category, month: string) {
    BudgetAmount(budgets, c, month) > 0 || Lookup(table, c.id) > 0
  }

  function BudgetRow(budgets: seq<Budget>, c: Category, month: string): ChartData {
    ChartData(c.name, BudgetAmount(budgets, c, month), Some("primary"))
  }

  function ActualRow(table: seq<Spend>, budgets: seq<Budget>, c: Category, month: string): ChartData {
    var actual := Lookup(table, c.id);
    ChartData(c.name + " (Actual)", actual,
              Some(if actual > BudgetAmount(budgets, c, month) then "destructive" else "chart-2"))
  }

  /** The rows pushed for the categories, in category order. */
  function ComparisonRows(table: seq<Spend>, budgets: seq<Budget>, categories: seq<Category>, month: string)
    : seq<ChartData>
  {
    if categories == [] then []
    else
      var c := categories[|categories| - 1];
      ComparisonRows(table, budgets, categories[..|categories| - 1], month)
      + (if Included(table, budgets, c, month)
         then [BudgetRow(budgets, c, month), ActualRow(table, budgets, c, month)] else [])
  }

  function BudgetComparison(ts: seq<Transaction>, budgets: seq<Budget>, categories: seq<Category>, month: string)
    : seq<ChartData>
  {
    ComparisonRows(SpendingTable(FilterByMonth(ts, month)), budgets, categories, month)
  }

  method PrepareBudgetComparisonData(ts: seq<Transaction>, budgets: seq<Budget>, categories: seq<Category>,
                                     month: string)
    returns (result: seq<ChartData>)
    ensures result == BudgetComparison(ts, budgets, categories, month)
  {
    result := [];
    var monthTransactions := FilterByMonth(ts, month);
    var spendingByCategory := BuildSpendingTable(monthTransactions);
    var i := 0;
    while i < |categories|
      invariant 0 <= i <= |categories|
      invariant result == ComparisonRows(spendingByCategory, budgets, categories[..i], month)
    {
      assert categories[..i + 1][..i] == categories[..i];
      var category := categories[i];
      var budget := FindBudget(budgets, category.id, month);
      var budgetAmount := if budget.Some? then budget.value.amount else 0;
      var actualAmount := Lookup(spendingByCategory, category.id);
      if budgetAmount > 0 || actualAmount > 0 {
        result := result + [ChartData(category.name, budgetAmount, Some("primary"))];
        result := result + [ChartData(category.name + " (Actual)", actualAmount,
                                      Some(if actualAmount > budgetAmount then "destructive" else "chart-2"))];
      }
      i := i + 1;
    }
    assert categories[..i] == categories;
  }

  /** The categories that get rows: a budget above 0 or spending above 0 this month. */
  function IncludedCategories(table: seq<Spend>, budgets: seq<Budget>, categories: seq<Category>, month: string)
    : (r: seq<Category>)
    ensures forall c :: c in r <==> c in categories && Included(table, budgets, c, month)
  {
    if categories == [] then []
    else
      var c := categories[|categories| - 1];
      var init := categories[..|categories| - 1];
      assert categories == init + [c];
      IncludedCategories(table, budgets, init, month)
      + (if Included(table, budgets, c, month) then [c] else [])
  }

  /**
   * Row 2k is the budget row and row 2k+1 the actual row of the k-th included category, so the
   * list has even length and its pairs follow the category order.
   */
  lemma {:induction false} ComparisonRowsPairs(table: seq<Spend>, budgets: seq<Budget>, categories: seq<Category>,
                                               month: string)
    ensures var rows := ComparisonRows(table, budgets, categories, month);
            var inc := IncludedCategories(table, budgets, categories, month);
            && |rows| == 2 * |inc|
            && forall k :: 0 <= k < |inc| ==>
                 rows[2 * k] == BudgetRow(budgets, inc[k], month)
                 && rows[2 * k + 1] == ActualRow(table, budgets, inc[k], month)
    decreases |categories|
  {
    if categories != [] {
      ComparisonRowsPairs(table, budgets, categories[..|categories| - 1], month);
    }
  }

  /** The actual row is 'destructive' exactly when spending exceeds the budget row's value. */
  lemma {:induction false} ComparisonColors(ts: seq<Transaction>, budgets: seq<Budget>, categories: seq<Category>, month: string,
                         k: nat)
    requires 2 * k + 1 < |BudgetComparison(ts, budgets, categories, month)|
    ensures var rows := BudgetComparison(ts, budgets, categories, month);
            (rows[2 * k + 1].color == Some("destructive") <==> rows[2 * k + 1].value > rows[2 * k].value)
            && (rows[2 * k + 1].color == Some("chart-2") <==> rows[2 * k + 1].value <= rows[2 * k].value)
            && rows[2 * k].color == Some("primary")
            && (rows[2 * k].value > 0 || rows[2 * k + 1].value > 0)
  {
    var table := SpendingTable(FilterByMonth(ts, month));
    ComparisonRowsPairs(table, budgets, categories, month);
    var inc := IncludedCategories(table, budgets, categories, month);
    assert inc[k] in inc;
  }
}
