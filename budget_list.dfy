/**
 * The budget table of the current month (components/budget/BudgetList.tsx): the month's budgets
 * sorted by category name, each with what was spent, what remains and a progress bar.
 */
module BudgetList {
  import opened Types
  import opened Strings
  import opened Sorting
  import opened Numbers
  import opened Utils
  import opened SpendingInsights
  import opened FinanceContext
  import opened ConfirmDelete

  /** `categories.find((c) => c.id === id)?.name || ''`. */
  function CategoryNameOr(categories: seq<Category>, id: string): string {
    match FindCategory(categories, id)
    case Some(c) => c.name
    case None => ""
  }

  /** The comparator `categoryA.localeCompare(categoryB)`, read as "a may stay before b". */
  function ByCategoryName(categories: seq<Category>): (Budget, Budget) -> bool {
    (a: Budget, b: Budget) => LessEq(CategoryNameOr(categories, a.categoryId), CategoryNameOr(categories, b.categoryId))
  }

  lemma {:induction false} ByCategoryNamePreorder(categories: seq<Category>)
    ensures TotalPreorder(ByCategoryName(categories))
  {
    var le := ByCategoryName(categories);
    forall a: Budget, b: Budget
      ensures le(a, b) || le(b, a)
    {
      LessEqTotal(CategoryNameOr(categories, a.categoryId), CategoryNameOr(categories, b.categoryId));
    }
    forall a: Budget, b: Budget, c: Budget | le(a, b) && le(b, c)
      ensures le(a, c)
    {
      LessEqTransitive(CategoryNameOr(categories, a.categoryId), CategoryNameOr(categories, b.categoryId),
                       CategoryNameOr(categories, c.categoryId));
    }
  }

  /** `filteredBudgets`: the budgets whose month is `currentMonth`, sorted by category name. */
  function ListedBudgets(budgets: seq<Budget>, categories: seq<Category>, month: string): seq<Budget> {
    SortBy(MonthBudgets(budgets, month), ByCategoryName(categories))
  }

  /**
   * The table lists every budget of the month and nothing else, as often as it occurs, in
   * category-name order; "No budgets for this month" shows exactly when the month has none.
   */
  lemma {:induction false} ListedBudgetsShape(budgets: seq<Budget>, categories: seq<Category>, month: string)
    ensures var r := ListedBudgets(budgets, categories, month);
            && Sorted(r, ByCategoryName(categories))
            && multiset(r) == multiset(MonthBudgets(budgets, month))
            && (forall b :: b in r <==> b in budgets && b.month == month)
            && (r == [] <==> forall b :: b in budgets ==> b.month != month)
  {
    var m := MonthBudgets(budgets, month);
    var r := ListedBudgets(budgets, categories, month);
    ByCategoryNamePreorder(categories);
    SortBySorted(m, ByCategoryName(categories));
    forall b ensures b in r <==> b in m {
      assert b in r <==> b in multiset(r);
      assert b in m <==> b in multiset(m);
    }
    if r != [] {
      assert r[0] in r;
    }
  }

  // ---- spending per category ----

  /**
   * `spendingByCategory`: the forEach over the transactions of the month with amount < 0,
   * adding |amount| under each category id.
   */
  function MonthSpending(ts: seq<Transaction>, month: string): seq<Spend> {
    SpendingTable(Expenses(FilterByMonth(ts, month)))
  }

  /** Keeping only the expenses first does not change any category's expense sum. */
  lemma {:induction false} ExpensesCategorySum(ts: seq<Transaction>, id: string)
    ensures ExpenseSum(ByCategory(Expenses(ts), id)) == ExpenseSum(ByCategory(ts, id))
    decreases |ts|
  {
    if ts != [] {
      ExpensesCategorySum(ts[1..], id);
      var head := if ts[0].amount < 0 then [ts[0]] else [];
      ByCategoryConcat(head, Expenses(ts[1..]), id);
      ExpenseSumConcat(ByCategory(head, id), ByCategory(Expenses(ts[1..]), id));
      var headC := if ts[0].categoryId == id then [ts[0]] else [];
      ExpenseSumConcat(headC, ByCategory(ts[1..], id));
      if ts[0].amount < 0 {
        assert ByCategory(head, id) == headC;
      }
    }
  }

  /** The "Spent" column is the month's sum of |amount| over the category's expenses (0 when none). */
  lemma {:induction false} MonthSpendingLookup(ts: seq<Transaction>, month: string, id: string)
    ensures Lookup(MonthSpending(ts, month), id) == ExpenseSum(ByCategory(FilterByMonth(ts, month), id))
    ensures Lookup(MonthSpending(ts, month), id) >= 0
  {
    var m := FilterByMonth(ts, month);
    SpendingTableLookup(Expenses(m), id);
    ExpensesCategorySum(m, id);
    ExpenseSumNonNegative(ByCategory(m, id));
  }

  // ---- one row ----

  datatype Row = Row(budget: Budget, category: Option<Category>, spent: int, remaining: int,
                     percentage: real, shownPercent: int, progress: real,
                     overspent: bool, overLimit: bool)

  /**
   * The row of one budget: the category badge (none for an unknown category), spent, remaining,
   * `(spent / amount) * 100` (0 for an amount that is not positive), the rounded percentage
   * shown, the progress bar capped at 100, and the two destructive highlights.
   */
  function RowOf(b: Budget, categories: seq<Category>, spending: seq<Spend>): Row {
    var spent := Lookup(spending, b.categoryId);
    var remaining := b.amount - spent;
    var percentage := if b.amount > 0 then (spent as real / b.amount as real) * 100.0 else 0.0;
    Row(b, FindCategory(categories, b.categoryId), spent, remaining, percentage, Round(percentage),
        MinReal(percentage, 100.0), remaining < 0, percentage > 100.0)
  }

  /**
   * The remaining cell is red exactly when more was spent than budgeted, and so is the progress bar
   * for a positive budget; a budget that is not positive shows 0%. The bar never passes 100 and,
   * for spending that is not negative, never drops below 0.
   */
  lemma {:induction false} RowFlags(b: Budget, categories: seq<Category>, spending: seq<Spend>)
    ensures var r := RowOf(b, categories, spending);
            && (r.overspent <==> r.spent > b.amount)
            && (b.amount > 0 ==> (r.overLimit <==> r.spent > b.amount))
            && (b.amount <= 0 ==> r.percentage == 0.0 && r.shownPercent == 0 && !r.overLimit)
            && r.progress <= 100.0
            && (r.percentage <= 100.0 ==> r.progress == r.percentage)
            && (r.spent >= 0 ==> r.progress >= 0.0)
  {
    var spent := Lookup(spending, b.categoryId);
    if b.amount > 0 {
      PercentAbove(spent, b.amount);
      if spent >= 0 {
        ShareBounds(spent, b.amount);
      }
    } else {
      RoundInt(0);
    }
  }

  /** The rows of the table, one per listed budget. */
  function Rows(ts: seq<Transaction>, budgets: seq<Budget>, categories: seq<Category>, month: string)
    : (r: seq<Row>)
    ensures |r| == |ListedBudgets(budgets, categories, month)|
  {
    var listed := ListedBudgets(budgets, categories, month);
    var spending := MonthSpending(ts, month);
    seq(|listed|, k requires 0 <= k < |listed| => RowOf(listed[k], categories, spending))
  }

  /** Row k belongs to the k-th listed budget and its "Spent" is that category's expenses this month. */
  lemma {:induction false} RowsSpent(ts: seq<Transaction>, budgets: seq<Budget>, categories: seq<Category>,
                                     month: string, k: int)
    requires 0 <= k < |ListedBudgets(budgets, categories, month)|
    ensures var r := Rows(ts, budgets, categories, month)[k];
            && r.budget == ListedBudgets(budgets, categories, month)[k]
            && r.spent == ExpenseSum(ByCategory(FilterByMonth(ts, month), r.budget.categoryId))
            && 0.0 <= r.progress <= 100.0
  {
    var b := ListedBudgets(budgets, categories, month)[k];
    MonthSpendingLookup(ts, month, b.categoryId);
    RowFlags(b, categories, MonthSpending(ts, month));
  }

  // ---- deletion ----

  /** `confirmDelete`: delete the pending budget when its id is truthy, then close the dialog. */
  method ConfirmDeleteBudget(dialog: DeleteDialog, store: FinanceStore)
    requires store.Valid()
    modifies dialog, store
    ensures store.Valid()
    ensures old(dialog.Open()) ==>
              dialog.deleteId == None && store.budgets == Remove(old(store.budgets), old(dialog.deleteId).value, BudgetId)
    ensures !old(dialog.Open()) ==> dialog.deleteId == old(dialog.deleteId) && store.budgets == old(store.budgets)
    ensures store.transactions == old(store.transactions) && store.currentMonth == old(store.currentMonth)
  {
    if dialog.deleteId.Some? && dialog.deleteId.value != "" {
      store.DeleteBudget(dialog.deleteId.value);
      dialog.deleteId := None;
    }
  }
}
