/**
 * The four summary cards of the dashboard (components/dashboard/SummaryCards.tsx): the month's
 * expenses, budget, what remains of the budget with the share already spent, and the savings.
 */
module SummaryCards {
  import opened Types
  import opened Strings
  import opened Sorting
  import opened Numbers
  import opened Utils
  import opened SpendingInsights

  function BudgetValue(b: Budget): int { b.amount }

  /** The sum of the amounts of the budgets whose month is exactly `month`. */
  function TotalBudget(budgets: seq<Budget>, month: string): int {
    SumOf(MonthBudgets(budgets, month), BudgetValue)
  }

  /** `.filter((t) => t.amount > 0)`. */
  function Incomes(ts: seq<Transaction>): (r: seq<Transaction>)
    ensures forall t :: t in r <==> t in ts && t.amount > 0
  {
    if ts == [] then []
    else (if ts[0].amount > 0 then [ts[0]] else []) + Incomes(ts[1..])
  }

  lemma {:induction false} IncomeSumNonNegative(ts: seq<Transaction>)
    ensures SumAmounts(Incomes(ts)) >= 0
    decreases |ts|
  {
    if ts != [] {
      IncomeSumNonNegative(ts[1..]);
      SumAmountsConcat(if ts[0].amount > 0 then [ts[0]] else [], Incomes(ts[1..]));
    }
  }

  /** The sum of the month's positive amounts: the filter keeps a transaction of the month with amount > 0. */
  function TotalIncome(ts: seq<Transaction>, month: string): (r: int)
    ensures r >= 0
  {
    IncomeSumNonNegative(FilterByMonth(ts, month));
    SumAmounts(Incomes(FilterByMonth(ts, month)))
  }

  /** `totalBudget > 0 ? Math.round((totalExpenses / totalBudget) * 100) : 0`. */
  function PercentageSpent(totalExpenses: int, totalBudget: int): int {
    if totalBudget > 0 then Round(totalExpenses as real / totalBudget as real * 100.0) else 0
  }

  datatype Summary = Summary(totalExpenses: int, totalBudget: int, remainingBudget: int,
                             percentageSpent: int, totalIncome: int, savings: int)

  /** The values the cards show for `currentMonth`. */
  function Summarize(ts: seq<Transaction>, budgets: seq<Budget>, currentMonth: string): (r: Summary)
    ensures r.totalExpenses >= 0 && r.totalIncome >= 0
  {
    var totalExpenses := MonthlyExpenses(ts, currentMonth);
    var totalBudget := TotalBudget(budgets, currentMonth);
    var totalIncome := TotalIncome(ts, currentMonth);
    Summary(totalExpenses, totalBudget, totalBudget - totalExpenses,
            PercentageSpent(totalExpenses, totalBudget), totalIncome, totalIncome - totalExpenses)
  }

  // ---- properties ----

  /** Adding a budget raises the month's total by its amount when it is for that month, else not at all. */
  lemma {:induction false} TotalBudgetAdd(budgets: seq<Budget>, b: Budget, month: string)
    ensures TotalBudget(budgets + [b], month)
         == TotalBudget(budgets, month) + (if b.month == month then b.amount else 0)
  {
    var s := budgets + [b];
    assert s[..|s| - 1] == budgets && s[|s| - 1] == b;
    if b.month == month {
      assert MonthBudgets(s, month) == MonthBudgets(budgets, month) + [b];
      SumOfAppend(MonthBudgets(budgets, month), b, BudgetValue);
    } else {
      assert MonthBudgets(s, month) == MonthBudgets(budgets, month) + [];
      assert MonthBudgets(budgets, month) + [] == MonthBudgets(budgets, month);
    }
  }

  /** Every amount of a month is income, an expense, or zero: the net sum splits accordingly. */
  lemma {:induction false} NetSplit(ts: seq<Transaction>)
    ensures SumAmounts(ts) == SumAmounts(Incomes(ts)) - ExpenseSum(ts)
    decreases |ts|
  {
    if ts != [] {
      NetSplit(ts[1..]);
      SumAmountsConcat(if ts[0].amount > 0 then [ts[0]] else [], Incomes(ts[1..]));
    }
  }

  /**
   * Savings are the month's net cash flow (the plain sum of its amounts), and the remaining
   * budget is the month's budget minus the month's sum of |expense|.
   */
  lemma {:induction false} SavingsIsNetFlow(ts: seq<Transaction>, budgets: seq<Budget>, month: string)
    ensures Summarize(ts, budgets, month).savings == SumAmounts(FilterByMonth(ts, month))
    ensures Summarize(ts, budgets, month).remainingBudget
         == TotalBudget(budgets, month) - ExpenseSum(FilterByMonth(ts, month))
  {
    MonthlyExpensesIsExpenseSum(ts, month);
    NetSplit(FilterByMonth(ts, month));
  }

  /**
   * The share spent is 0 without a positive budget; with one it is at most 100 while expenses stay
   * within the budget and at least 100 once they reach it.
   */
  lemma {:induction false} PercentageSpentRange(totalExpenses: int, totalBudget: int)
    requires totalExpenses >= 0
    ensures totalBudget <= 0 ==> PercentageSpent(totalExpenses, totalBudget) == 0
    ensures PercentageSpent(totalExpenses, totalBudget) >= 0
    ensures totalBudget > 0 && totalExpenses <= totalBudget ==> PercentageSpent(totalExpenses, totalBudget) <= 100
    ensures totalBudget > 0 && totalExpenses >= totalBudget ==> PercentageSpent(totalExpenses, totalBudget) >= 100
  {
    if totalBudget > 0 {
      var q := totalExpenses as real / totalBudget as real;
      ShareBounds(totalExpenses, totalBudget);
      RoundMono(0.0, q * 100.0);
      RoundInt(0);
      RoundInt(100);
      if totalExpenses <= totalBudget {
        RoundMono(q * 100.0, 100.0);
      }
      if totalExpenses >= totalBudget {
        ShareBounds(totalBudget, totalExpenses);
        var t := totalBudget as real;
        DivMul(totalExpenses as real, t);
        assert totalExpenses as real >= t;
        if q < 1.0 {
          MulMono(1.0, q, t);
        }
        assert q >= 1.0;
        RoundMono(100.0, q * 100.0);
      }
    }
  }

  /** A new expense of the month raises the expense card and lowers the savings by its size. */
  lemma {:induction false} SummaryAddExpense(ts: seq<Transaction>, budgets: seq<Budget>, t: Transaction, month: string)
    requires t.amount < 0 && StartsWith(t.date, month)
    ensures Summarize(ts + [t], budgets, month).totalExpenses == Summarize(ts, budgets, month).totalExpenses - t.amount
    ensures Summarize(ts + [t], budgets, month).savings == Summarize(ts, budgets, month).savings + t.amount
  {
    MonthlyExpensesAddsExpense(ts, t, month);
    SavingsIsNetFlow(ts, budgets, month);
    SavingsIsNetFlow(ts + [t], budgets, month);
    FilterByMonthConcat(ts, [t], month);
    assert FilterByMonth([t], month) == [t];
    SumAmountsConcat(FilterByMonth(ts, month), [t]);
  }
}
