/**
 * `generateInsights` (lib/data.ts): budget warnings, the highest-spending category and the
 * categories that take more than 40% of the month's spending.
 */
module SpendingInsights {
  import opened Types
  import opened Numbers
  import opened Utils

  // ---- budget vs actual ----

  /**
   * The rule applied to one budget of the month: over budget, above 90% of it, or under 50% of
   * it, checked in that order. The message names the category by `budget.categoryId`: the
   * source looks the category up by a `categoryId` field that categories do not have, so the
   * lookup never succeeds and the fallback is always taken.
   */
  function BudgetInsight(b: Budget, spending: int): (r: Option<Insight>)
    ensures spending > b.amount <==> r == Some(OverBudget(b.categoryId, spending - b.amount))
    ensures r == Some(ApproachingBudget(b.categoryId, spending, b.amount))
            <==> spending <= b.amount && 10 * spending > 9 * b.amount
    ensures r == Some(WellUnderBudget(b.categoryId, spending, b.amount))
            <==> spending <= b.amount && 10 * spending <= 9 * b.amount && 2 * spending < b.amount
    ensures r.None? <==> spending <= b.amount && 10 * spending <= 9 * b.amount && 2 * spending >= b.amount
  {
    if spending > b.amount then Some(OverBudget(b.categoryId, spending - b.amount))
    else if spending as real > b.amount as real * 0.9 then Some(ApproachingBudget(b.categoryId, spending, b.amount))
    else if (spending as real) < b.amount as real * 0.5 then Some(WellUnderBudget(b.categoryId, spending, b.amount))
    else None
  }

  function OptionToSeq<T>(o: Option<T>): (r: seq<T>)
    ensures o.Some? ==> r == [o.value]
    ensures o.None? ==> r == []
  {
    if o.Some? then [o.value] else []
  }

  /** The budget insights, in budget order, for the budgets of `month` only. */
  function BudgetInsights(budgets: seq<Budget>, table: seq<Spend>, month: string): (r: seq<Insight>)
    ensures |r| <= |budgets|
  {
    if budgets == [] then []
    else
      var b := budgets[|budgets| - 1];
      var prev := BudgetInsights(budgets[..|budgets| - 1], table, month);
      if b.month == month then prev + OptionToSeq(BudgetInsight(b, Lookup(table, b.categoryId))) else prev
  }

  /** The budgets of one month, in order. */
  function MonthBudgets(budgets: seq<Budget>, month: string): (r: seq<Budget>)
    ensures forall b :: b in r <==> b in budgets && b.month == month
  {
    if budgets == [] then []
    else
      var b := budgets[|budgets| - 1];
      var init := budgets[..|budgets| - 1];
      assert budgets == init + [b];
      MonthBudgets(init, month) + (if b.month == month then [b] else [])
  }

  /** Only the budgets of the current month matter, and there is at most one insight for each. */
  lemma {:induction false} BudgetInsightsOfMonth(budgets: seq<Budget>, table: seq<Spend>, month: string)
    ensures BudgetInsights(budgets, table, month) == BudgetInsights(MonthBudgets(budgets, month), table, month)
    ensures |BudgetInsights(budgets, table, month)| <= |MonthBudgets(budgets, month)|
    decreases |budgets|
  {
    if budgets != [] {
      var b := budgets[|budgets| - 1];
      var init := budgets[..|budgets| - 1];
      BudgetInsightsOfMonth(init, table, month);
      var m := MonthBudgets(init, month);
      if b.month == month {
        assert MonthBudgets(budgets, month) == m + [b];
        assert (m + [b])[..|m + [b]| - 1] == m;
        assert BudgetInsights(m + [b], table, month)
            == BudgetInsights(m, table, month) + OptionToSeq(BudgetInsight(b, Lookup(table, b.categoryId)));
      } else {
        assert MonthBudgets(budgets, month) == m;
      }
    }
  }

  /** Every budget insight names the category of a budget of the current month. */
  lemma {:induction false} BudgetInsightsNameMonthBudgets(budgets: seq<Budget>, table: seq<Spend>, month: string)
    ensures forall x :: x in BudgetInsights(budgets, table, month) ==>
              (x.OverBudget? || x.ApproachingBudget? || x.WellUnderBudget?)
              && exists b :: b in budgets && b.month == month && x.categoryName == b.categoryId
    decreases |budgets|
  {
    if budgets != [] {
      var b := budgets[|budgets| - 1];
      var init := budgets[..|budgets| - 1];
      BudgetInsightsNameMonthBudgets(init, table, month);
      assert budgets == init + [b];
      forall x | x in BudgetInsights(budgets, table, month)
        ensures (x.OverBudget? || x.ApproachingBudget? || x.WellUnderBudget?)
                && exists b' :: b' in budgets && b'.month == month && x.categoryName == b'.categoryId
      {
        if x in BudgetInsights(init, table, month) {
          var b' :| b' in init && b'.month == month && x.categoryName == b'.categoryId;
          assert b' in budgets;
        } else {
          assert b in budgets;
        }
      }
    }
  }

  // ---- highest spending category ----

  /**
   * The running maximum over the table in insertion order, starting from ('', 0); a later entry
   * replaces it only when strictly larger.
   */
  function Highest(table: seq<Spend>): (h: Spend)
    ensures h.amount >= 0
    ensures h == Spend("", 0) || h in table
    ensures forall e :: e in table ==> e.amount <= h.amount
  {
    if table == [] then Spend("", 0)
    else
      var e := table[|table| - 1];
      var prev := Highest(table[..|table| - 1]);
      assert table == table[..|table| - 1] + [e];
      if e.amount > prev.amount then e else prev
  }

  /** Entry i is the running maximum and every earlier entry is strictly smaller. */
  ghost predicate FirstMaximumAt(table: seq<Spend>, i: int) {
    0 <= i < |table| && table[i] == Highest(table)
    && forall j :: 0 <= j < i ==> table[j].amount < table[i].amount
  }

  /** For positive amounts the winner is an entry, and it is the first entry of maximal amount. */
  lemma {:induction false} HighestIsFirstMaximum(table: seq<Spend>)
    requires table != [] && AllPositive(table)
    ensures exists i :: FirstMaximumAt(table, i)
    decreases |table|
  {
    var e := table[|table| - 1];
    var init := table[..|table| - 1];
    assert e in table;
    if init == [] {
      assert FirstMaximumAt(table, 0);
    } else {
      AllPositivePrefix(table);
      HighestIsFirstMaximum(init);
      var i :| FirstMaximumAt(init, i);
      var h := Highest(init);
      if e.amount > h.amount {
        forall j | 0 <= j < |table| - 1
          ensures table[j].amount < e.amount
        {
          assert table[j] == init[j];
          assert init[j] in init;
        }
        assert FirstMaximumAt(table, |table| - 1);
      } else {
        forall j | 0 <= j < i
          ensures table[j].amount < table[i].amount
        {
          assert table[j] == init[j];
        }
        assert FirstMaximumAt(table, i);
      }
    }
  }

  lemma {:induction false} AllPositivePrefix(table: seq<Spend>)
    requires table != [] && AllPositive(table)
    ensures AllPositive(table[..|table| - 1])
  {
    forall x | x in table[..|table| - 1]
      ensures x.amount > 0
    {
      assert x in table;
    }
  }

  /** `if (highestCategory)`: a category id '' is falsy, and an id no category has is skipped. */
  function HighestInsight(table: seq<Spend>, categories: seq<Category>): (r: seq<Insight>)
    ensures |r| <= 1
    ensures r != [] <==> Highest(table).categoryId != "" && FindCategory(categories, Highest(table).categoryId).Some?
    ensures r != [] ==> r[0] == HighestCategory(FindCategory(categories, Highest(table).categoryId).value.name,
                                                Highest(table).amount)
  {
    var h := Highest(table);
    if h.categoryId != "" then
      match FindCategory(categories, h.categoryId)
      case Some(c) => [HighestCategory(c.name, h.amount)]
      case None => []
    else []
  }

  // ---- concentration ----

  /** One entry of `categoryPercentages`: a category's share of the month's spending. */
  datatype Share = Share(categoryId: string, share: real)

  function Shares(table: seq<Spend>, total: int): (r: seq<Share>)
    requires table != [] ==> total > 0
    ensures |r| == |table|
    ensures forall i :: 0 <= i < |table| ==>
              r[i] == Share(table[i].categoryId, table[i].amount as real / total as real)
  {
    seq(|table|, i requires 0 <= i < |table| => Share(table[i].categoryId, table[i].amount as real / total as real))
  }

  /** The insight for one share: above 40% and of a known category. */
  function ConcentrationInsight(s: Share, categories: seq<Category>): (r: Option<Insight>)
    ensures r.Some? <==> s.share > 0.4 && FindCategory(categories, s.categoryId).Some?
    ensures r.Some? ==> r.value == Concentration(FindCategory(categories, s.categoryId).value.name,
                                                Round(s.share * 100.0))
  {
    if s.share > 0.4 then
      match FindCategory(categories, s.categoryId)
      case Some(c) => Some(Concentration(c.name, Round(s.share * 100.0)))
      case None => None
    else None
  }

  function ConcentrationInsights(shares: seq<Share>, categories: seq<Category>): (r: seq<Insight>)
    ensures |r| <= |shares|
  {
    if shares == [] then []
    else
      ConcentrationInsights(shares[..|shares| - 1], categories)
      + OptionToSeq(ConcentrationInsight(shares[|shares| - 1], categories))
  }

  /** The number of shares above 40%. */
  function HeavyCount(shares: seq<Share>): nat {
    if shares == [] then 0
    else HeavyCount(shares[..|shares| - 1]) + (if shares[|shares| - 1].share > 0.4 then 1 else 0)
  }

  lemma {:induction false} ConcentrationAtMostHeavy(shares: seq<Share>, categories: seq<Category>)
    ensures |ConcentrationInsights(shares, categories)| <= HeavyCount(shares)
    decreases |shares|
  {
    if shares != [] {
      ConcentrationAtMostHeavy(shares[..|shares| - 1], categories);
    }
  }

  lemma {:induction false} TableTotalAppend(table: seq<Spend>, e: Spend)
    ensures TableTotal(table + [e]) == TableTotal(table) + e.amount
    decreases |table|
  {
    if table != [] {
      assert (table + [e])[1..] == table[1..] + [e];
      TableTotalAppend(table[1..], e);
    }
  }

  lemma {:induction false} MulSucc(a: int, n: int)
    ensures a * (n + 1) == a * n + a
  {
  }

  lemma {:induction false} MulLe(a: int, m: int, n: int)
    requires a >= 0 && m <= n
    ensures a * m <= a * n
  {
  }

  /** Each share above 40% stands for more than two fifths of `total` within the table's sum. */
  lemma {:induction false} HeavyWeight(table: seq<Spend>, total: int)
    requires total > 0 && AllPositive(table)
    ensures 2 * total * HeavyCount(Shares(table, total)) <= 5 * TableTotal(table)
    ensures HeavyCount(Shares(table, total)) > 0 ==> 2 * total * HeavyCount(Shares(table, total)) < 5 * TableTotal(table)
    decreases |table|
  {
    if table != [] {
      var init, e := table[..|table| - 1], table[|table| - 1];
      AllPositivePrefix(table);
      HeavyWeight(init, total);
      var sh := Shares(table, total);
      assert sh[..|sh| - 1] == Shares(init, total);
      var n := HeavyCount(Shares(init, total));
      var heavy := sh[|sh| - 1].share > 0.4;
      assert HeavyCount(sh) == n + (if heavy then 1 else 0);
      assert table == init + [e];
      TableTotalAppend(init, e);
      assert e in table;
      ShareAbove(e.amount, total);
      if heavy {
        MulSucc(2 * total, n);
      }
    }
  }

  /**
   * Shares of one whole add up to 1, so at most two of them exceed 40%: the month gets at most
   * two concentration insights.
   */
  lemma {:induction false} ConcentrationAtMostTwo(table: seq<Spend>, categories: seq<Category>)
    requires table != [] && AllPositive(table)
    ensures TableTotal(table) > 0
    ensures |ConcentrationInsights(Shares(table, TableTotal(table)), categories)| <= 2
  {
    TableTotalAtLeastEntry(table, 0);
    var total := TableTotal(table);
    var shares := Shares(table, total);
    HeavyWeight(table, total);
    ConcentrationAtMostHeavy(shares, categories);
    var n := HeavyCount(shares);
    if n >= 3 {
      MulLe(2 * total, 3, n);
      assert false;
    }
  }

  /** A share of an entry of the table lies between 0 and 1. */
  lemma {:induction false} ShareOfEntry(table: seq<Spend>, k: int)
    requires AllPositive(table) && 0 <= k < |table|
    ensures TableTotal(table) > 0
    ensures 0.0 <= Shares(table, TableTotal(table))[k].share <= 1.0
  {
    TableTotalAtLeastEntry(table, k);
    ShareBounds(table[k].amount, TableTotal(table));
  }

  /** The sum of a list of shares. */
  function ShareSum(shares: seq<Share>): real {
    if shares == [] then 0.0 else ShareSum(shares[..|shares| - 1]) + shares[|shares| - 1].share
  }

  lemma {:induction false} DivAdd(a: real, b: real, t: real)
    requires t > 0.0
    ensures a / t + b / t == (a + b) / t
  {
  }

  /** The shares of a table add up to the table's total over the divisor. */
  lemma {:induction false} ShareSumIsTotal(table: seq<Spend>, total: int)
    requires total > 0
    ensures ShareSum(Shares(table, total)) == TableTotal(table) as real / total as real
    decreases |table|
  {
    if table != [] {
      var init, e := table[..|table| - 1], table[|table| - 1];
      ShareSumIsTotal(init, total);
      var sh := Shares(table, total);
      assert sh[..|sh| - 1] == Shares(init, total);
      assert table == init + [e];
      TableTotalAppend(init, e);
      DivAdd(TableTotal(init) as real, e.amount as real, total as real);
    }
  }

  /** Over the month's own total, the shares of a non-empty table add up to exactly 1. */
  lemma {:induction false} SharesSumToOne(table: seq<Spend>)
    requires table != [] && AllPositive(table)
    ensures TableTotal(table) > 0
    ensures ShareSum(Shares(table, TableTotal(table))) == 1.0
  {
    TableTotalAtLeastEntry(table, 0);
    var total := TableTotal(table);
    ShareSumIsTotal(table, total);
    DivSelf(total as real);
  }

  lemma {:induction false} DivSelf(t: real)
    requires t > 0.0
    ensures t / t == 1.0
  {
  }

  /** Every concentration insight reports a rounded percentage between 40 and 100. */
  lemma {:induction false} ConcentrationPercentRange(shares: seq<Share>, categories: seq<Category>)
    requires forall i :: 0 <= i < |shares| ==> shares[i].share <= 1.0
    ensures forall x :: x in ConcentrationInsights(shares, categories) ==>
              x.Concentration? && 40 <= x.percent <= 100
    decreases |shares|
  {
    if shares != [] {
      var init := shares[..|shares| - 1];
      ConcentrationPercentRange(init, categories);
      var s := shares[|shares| - 1];
      var r := ConcentrationInsight(s, categories);
      if r.Some? {
        assert 40.0 < s.share * 100.0 <= 100.0;
      }
    }
  }

  /** `table[id] || 0` is 0 or the amount of an entry for id. */
  lemma {:induction false} LookupIsEntry(table: seq<Spend>, id: string)
    ensures Lookup(table, id) == 0 || Spend(id, Lookup(table, id)) in table
    decreases |table|
  {
    if table != [] && table[0].categoryId != id {
      LookupIsEntry(table[1..], id);
    }
  }

  /** With one entry per id, looking up an entry's id finds that entry. */
  lemma {:induction false} LookupOfEntry(table: seq<Spend>, k: int)
    requires DistinctKeys(table) && 0 <= k < |table|
    ensures Lookup(table, table[k].categoryId) == table[k].amount
    decreases |table|
  {
    if k > 0 {
      KeysAt(table, 0);
      KeysAt(table, k);
      assert Keys(table[1..]) == Keys(table)[1..];
      assert table[1..][k - 1] == table[k];
      LookupOfEntry(table[1..], k - 1);
    }
  }

  /** The running maximum is the table's entry for its id, and no entry is larger. */
  lemma {:induction false} HighestLookup(table: seq<Spend>, id: string)
    requires DistinctKeys(table) && AllPositive(table)
    ensures Lookup(table, Highest(table).categoryId) == Highest(table).amount
    ensures Lookup(table, id) <= Highest(table).amount
  {
    var h := Highest(table);
    LookupIsEntry(table, id);
    LookupIsEntry(table, h.categoryId);
    if h in table {
      var k :| 0 <= k < |table| && table[k] == h;
      LookupOfEntry(table, k);
    }
  }

  /**
   * The highest-spending insight reports the month's spending of its category, and no category
   * spent more that month.
   */
  lemma {:induction false} HighestIsMonthMaximum(ts: seq<Transaction>, month: string, id: string)
    ensures var m := FilterByMonth(ts, month);
            var h := Highest(SpendingTable(m));
            h.amount == ExpenseSum(ByCategory(m, h.categoryId))
            && ExpenseSum(ByCategory(m, id)) <= h.amount
  {
    var m := FilterByMonth(ts, month);
    var table := SpendingTable(m);
    SpendingTableDistinct(m);
    SpendingTablePositive(m);
    HighestLookup(table, id);
    SpendingTableLookup(m, Highest(table).categoryId);
    SpendingTableLookup(m, id);
  }

  // ---- the whole list ----

  /** A month with at least one expense has a positive total. */
  lemma {:induction false} MonthTotalPositive(ts: seq<Transaction>, month: string)
    ensures SpendingTable(FilterByMonth(ts, month)) != [] ==> MonthlyExpenses(ts, month) > 0
  {
    var m := FilterByMonth(ts, month);
    MonthlyExpensesIsExpenseSum(ts, month);
    SpendingTableTotal(m);
    SpendingTablePositive(m);
    if SpendingTable(m) != [] {
      TableTotalAtLeastEntry(SpendingTable(m), 0);
    }
  }

  /** The full insight list: budget insights, then the highest category, then concentrations. */
  function Insights(ts: seq<Transaction>, budgets: seq<Budget>, categories: seq<Category>, month: string)
    : seq<Insight>
  {
    var table := SpendingTable(FilterByMonth(ts, month));
    var total := MonthlyExpenses(ts, month);
    MonthTotalPositive(ts, month);
    BudgetInsights(budgets, table, month) + HighestInsight(table, categories)
    + ConcentrationInsights(Shares(table, total), categories)
  }

  /** The `budgets.forEach` loop: one insight per budget of the month whose rule fires. */
  method CheckBudgets(budgets: seq<Budget>, spendingByCategory: seq<Spend>, currentMonth: string)
    returns (insights: seq<Insight>)
    ensures insights == BudgetInsights(budgets, spendingByCategory, currentMonth)
  {
    insights := [];
    var i := 0;
    while i < |budgets|
      invariant 0 <= i <= |budgets|
      invariant insights == BudgetInsights(budgets[..i], spendingByCategory, currentMonth)
    {
      assert budgets[..i + 1][..i] == budgets[..i];
      var budget := budgets[i];
      if budget.month == currentMonth {
        var spending := Lookup(spendingByCategory, budget.categoryId);
        var categoryName := budget.categoryId;
        if spending > budget.amount {
          insights := insights + [OverBudget(categoryName, spending - budget.amount)];
        } else if spending as real > budget.amount as real * 0.9 {
          insights := insights + [ApproachingBudget(categoryName, spending, budget.amount)];
        } else if (spending as real) < budget.amount as real * 0.5 {
          insights := insights + [WellUnderBudget(categoryName, spending, budget.amount)];
        }
      }
      i := i + 1;
    }
    assert budgets[..i] == budgets;
  }

  /** The running maximum over `Object.entries(spendingByCategory)`. */
  method FindHighest(spendingByCategory: seq<Spend>) returns (highestCategory: string, highestSpending: int)
    ensures Spend(highestCategory, highestSpending) == Highest(spendingByCategory)
  {
    highestSpending := 0;
    highestCategory := "";
    var i := 0;
    while i < |spendingByCategory|
      invariant 0 <= i <= |spendingByCategory|
      invariant Spend(highestCategory, highestSpending) == Highest(spendingByCategory[..i])
    {
      assert spendingByCategory[..i + 1][..i] == spendingByCategory[..i];
      var entry := spendingByCategory[i];
      if entry.amount > highestSpending {
        highestSpending := entry.amount;
        highestCategory := entry.categoryId;
      }
      i := i + 1;
    }
    assert spendingByCategory[..i] == spendingByCategory;
  }

  /** Fills `categoryPercentages`: each category's amount divided by the month's total. */
  method CategoryPercentages(spendingByCategory: seq<Spend>, totalSpending: int) returns (percentages: seq<Share>)
    requires spendingByCategory != [] ==> totalSpending > 0
    ensures percentages == Shares(spendingByCategory, totalSpending)
  {
    percentages := [];
    var i := 0;
    while i < |spendingByCategory|
      invariant 0 <= i <= |spendingByCategory|
      invariant percentages == Shares(spendingByCategory[..i], totalSpending)
    {
      var entry := spendingByCategory[i];
      percentages := percentages + [Share(entry.categoryId, entry.amount as real / totalSpending as real)];
      i := i + 1;
    }
    assert spendingByCategory[..i] == spendingByCategory;
  }

  /** The `categoryPercentages` loop: a concentration insight for each known category above 40%. */
  method UnusualSpending(percentages: seq<Share>, categories: seq<Category>) returns (insights: seq<Insight>)
    ensures insights == ConcentrationInsights(percentages, categories)
  {
    insights := [];
    var i := 0;
    while i < |percentages|
      invariant 0 <= i <= |percentages|
      invariant insights == ConcentrationInsights(percentages[..i], categories)
    {
      assert percentages[..i + 1][..i] == percentages[..i];
      var entry := percentages[i];
      if entry.share > 0.4 {
        var category := FindCategory(categories, entry.categoryId);
        if category.Some? {
          insights := insights + [Concentration(category.value.name, Round(entry.share * 100.0))];
        }
      }
      i := i + 1;
    }
    assert percentages[..i] == percentages;
  }

  method GenerateInsights(ts: seq<Transaction>, budgets: seq<Budget>, categories: seq<Category>,
                          currentMonth: string)
    returns (insights: seq<Insight>)
    ensures insights == Insights(ts, budgets, categories, currentMonth)
  {
    var monthTransactions := FilterByMonth(ts, currentMonth);
    var totalSpending := Abs(SumAmounts(Expenses(monthTransactions)));
    var spendingByCategory := BuildSpendingTable(monthTransactions);
    MonthTotalPositive(ts, currentMonth);
    assert totalSpending == MonthlyExpenses(ts, currentMonth);
    insights := CheckBudgets(budgets, spendingByCategory, currentMonth);
    var highestCategory, highestSpending := FindHighest(spendingByCategory);
    if highestCategory != "" {
      var category := FindCategory(categories, highestCategory);
      if category.Some? {
        insights := insights + [HighestCategory(category.value.name, highestSpending)];
      }
    }
    assert insights == BudgetInsights(budgets, spendingByCategory, currentMonth)
                       + HighestInsight(spendingByCategory, categories);
    var categoryPercentages := CategoryPercentages(spendingByCategory, totalSpending);
    var unusual := UnusualSpending(categoryPercentages, categories);
    insights := insights + unusual;
  }

  /** The concentration part: at most two insights, each reporting 40..100 percent. */
  lemma {:induction false} ConcentrationPart(table: seq<Spend>, categories: seq<Category>)
    requires table != [] && AllPositive(table)
    ensures TableTotal(table) > 0
    ensures var c := ConcentrationInsights(Shares(table, TableTotal(table)), categories);
            |c| <= 2 && forall x :: x in c ==> x.Concentration? && 40 <= x.percent <= 100
  {
    ConcentrationAtMostTwo(table, categories);
    var shares := Shares(table, TableTotal(table));
    forall i | 0 <= i < |shares|
      ensures shares[i].share <= 1.0
    {
      ShareOfEntry(table, i);
    }
    ConcentrationPercentRange(shares, categories);
  }

  /** The month's table, its total and the three parts of the insight list. */
  lemma {:induction false} InsightsParts(ts: seq<Transaction>, budgets: seq<Budget>, categories: seq<Category>,
                                         month: string)
    ensures SpendingTable(FilterByMonth(ts, month)) != [] ==>
              && TableTotal(SpendingTable(FilterByMonth(ts, month))) > 0
              && MonthlyExpenses(ts, month) == TableTotal(SpendingTable(FilterByMonth(ts, month)))
              && AllPositive(SpendingTable(FilterByMonth(ts, month)))
    ensures var table := SpendingTable(FilterByMonth(ts, month));
            Insights(ts, budgets, categories, month)
            == BudgetInsights(budgets, table, month) + HighestInsight(table, categories)
               + (if table == [] then [] else ConcentrationInsights(Shares(table, TableTotal(table)), categories))
  {
    var m := FilterByMonth(ts, month);
    SpendingTablePositive(m);
    SpendingTableTotal(m);
    MonthlyExpensesIsExpenseSum(ts, month);
    MonthTotalPositive(ts, month);
  }

  /**
   * The list is the budget insights of the month, then at most one highest-category insight, then
   * at most two concentration insights, each reporting 40..100 percent.
   */
  lemma {:induction false} InsightsShape(ts: seq<Transaction>, budgets: seq<Budget>, categories: seq<Category>,
                                         month: string)
    ensures var table := SpendingTable(FilterByMonth(ts, month));
            var all := Insights(ts, budgets, categories, month);
            var b := BudgetInsights(budgets, table, month);
            var h := HighestInsight(table, categories);
            && |b| <= |MonthBudgets(budgets, month)| && |h| <= 1
            && all[..|b| + |h|] == b + h
            && |all| <= |b| + |h| + 2
            && forall k :: |b| + |h| <= k < |all| ==> all[k].Concentration? && 40 <= all[k].percent <= 100
  {
    var table := SpendingTable(FilterByMonth(ts, month));
    BudgetInsightsOfMonth(budgets, table, month);
    InsightsParts(ts, budgets, categories, month);
    var b := BudgetInsights(budgets, table, month);
    var h := HighestInsight(table, categories);
    var c: seq<Insight> := if table == [] then [] else ConcentrationInsights(Shares(table, TableTotal(table)), categories);
    if table != [] {
      ConcentrationPart(table, categories);
    }
    TailOfParts(b + h, c, Insights(ts, budgets, categories, month));
  }

  lemma {:induction false} TailOfParts(front: seq<Insight>, c: seq<Insight>, all: seq<Insight>)
    requires all == front + c
    requires |c| <= 2 && forall x :: x in c ==> x.Concentration? && 40 <= x.percent <= 100
    ensures all[..|front|] == front && |all| <= |front| + 2
    ensures forall k :: |front| <= k < |all| ==> all[k].Concentration? && 40 <= all[k].percent <= 100
  {
    forall k | |front| <= k < |all|
      ensures all[k].Concentration? && 40 <= all[k].percent <= 100
    {
      assert all[k] == c[k - |front|];
      assert c[k - |front|] in c;
    }
    assert all[..|front|] == front;
  }
}
