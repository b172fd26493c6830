/**
 * The "Budget vs. Actual" bar chart (components/dashboard/BudgetComparisonChart.tsx): the flat
 * list of alternating budget and actual rows is regrouped into one bar pair per category.
 */
module BudgetComparisonChart {
  import opened Types
  import opened Utils

  /** One bar pair: the category name with its budget and its actual spending. */
  datatype ComparisonEntry = ComparisonEntry(name: string, budget: int, actual: int)

  /** Pair k is built from rows 2k (name and budget) and 2k + 1 (actual); an unpaired last row is dropped. */
  function Regroup(rows: seq<ChartData>): (r: seq<ComparisonEntry>)
    ensures |r| == |rows| / 2
    ensures forall k :: 0 <= k < |r| ==>
              r[k] == ComparisonEntry(rows[2 * k].name, rows[2 * k].value, rows[2 * k + 1].value)
  {
    seq(|rows| / 2, k requires 0 <= k < |rows| / 2 =>
      ComparisonEntry(rows[2 * k].name, rows[2 * k].value, rows[2 * k + 1].value))
  }

  /** The `for (i = 0; i < n; i += 2)` loop that builds `processedData`. */
  method ProcessData(chartData: seq<ChartData>) returns (processedData: seq<ComparisonEntry>)
    ensures processedData == Regroup(chartData)
  {
    processedData := [];
    var uniqueCategories: set<string> := {};
    var n := |chartData|;
    var i := 0;
    while i < n
      invariant 0 <= i <= n + 1 && i % 2 == 0
      invariant |processedData| == if i / 2 <= n / 2 then i / 2 else n / 2
      invariant forall k :: 0 <= k < |processedData| ==>
                  processedData[k] == Regroup(chartData)[k]
    {
      if i + 1 < n {
        var category := chartData[i].name;
        uniqueCategories := uniqueCategories + {category};
        processedData := processedData + [ComparisonEntry(category, chartData[i].value, chartData[i + 1].value)];
      }
      i := i + 2;
    }
  }

  /**
   * The bars of a month are exactly one pair per included category, in category order: the
   * category's name, its budget amount (0 without a budget) and its spending in the month. The
   * "no data" message shows exactly when no category has a positive budget or spending.
   */
  lemma {:induction false} BarsPerCategory(ts: seq<Transaction>, budgets: seq<Budget>, categories: seq<Category>,
                                           month: string)
    ensures var table := SpendingTable(FilterByMonth(ts, month));
            var inc := IncludedCategories(table, budgets, categories, month);
            var bars := Regroup(BudgetComparison(ts, budgets, categories, month));
            && |bars| == |inc|
            && (forall k :: 0 <= k < |inc| ==>
                  bars[k] == ComparisonEntry(inc[k].name, BudgetAmount(budgets, inc[k], month), Lookup(table, inc[k].id)))
            && (bars == [] <==> forall c :: c in categories ==> !Included(table, budgets, c, month))
  {
    var table := SpendingTable(FilterByMonth(ts, month));
    var inc := IncludedCategories(table, budgets, categories, month);
    ComparisonRowsPairs(table, budgets, categories, month);
    if inc != [] {
      assert inc[0] in inc;
    }
  }

  /** Each bar's actual spending is the month's sum of |amount| over that category's expenses. */
  lemma {:induction false} BarActualIsCategorySpending(ts: seq<Transaction>, budgets: seq<Budget>,
                                                       categories: seq<Category>, month: string, k: int)
    requires 0 <= k < |IncludedCategories(SpendingTable(FilterByMonth(ts, month)), budgets, categories, month)|
    ensures var table := SpendingTable(FilterByMonth(ts, month));
            var c := IncludedCategories(table, budgets, categories, month)[k];
            var bars := Regroup(BudgetComparison(ts, budgets, categories, month));
            k < |bars| && bars[k].name == c.name
            && bars[k].actual == ExpenseSum(ByCategory(FilterByMonth(ts, month), c.id))
  {
    BarsPerCategory(ts, budgets, categories, month);
    var table := SpendingTable(FilterByMonth(ts, month));
    var c := IncludedCategories(table, budgets, categories, month)[k];
    SpendingTableLookup(FilterByMonth(ts, month), c.id);
  }
}
