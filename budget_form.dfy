/**
 * The add/edit budget form (components/budget/BudgetForm.tsx): a category and a positive amount;
 * the budget always goes to the current month. The amount field holds what `parseFloat` reads
 * from the typed text (None for NaN), in cents.
 */
module BudgetForm {
  import opened Types
  import opened SpendingInsights
  import opened Utils
  import opened FinanceContext

  datatype BudgetFormValues = BudgetFormValues(categoryId: string, amount: Option<int>)

  /**
   * The schema: the amount must read as a number above 0. The category is any string, so the
   * empty default passes.
   */
  predicate ValidBudget(v: BudgetFormValues) {
    v.amount.Some? && v.amount.value > 0
  }

  /** The default values: the edited budget's category and amount, or empty fields. */
  function BudgetDefaults(editing: Option<Budget>): BudgetFormValues {
    match editing
    case Some(b) => BudgetFormValues(b.categoryId, Some(b.amount))
    case None => BudgetFormValues("", None)
  }

  datatype BudgetSubmission = AddBudget(input: BudgetInput) | UpdateBudget(budget: Budget)

  /** `handleSubmit(onSubmit)`: nothing when invalid; else the budget for `currentMonth`, updated under the edited id or added. */
  function SubmitBudget(v: BudgetFormValues, editing: Option<Budget>, currentMonth: string): (r: Option<BudgetSubmission>)
    ensures r.Some? <==> ValidBudget(v)
  {
    if !ValidBudget(v) then None
    else
      match editing
      case Some(b) => Some(UpdateBudget(Budget(b.id, v.categoryId, v.amount.value, currentMonth)))
      case None => Some(AddBudget(BudgetInput(v.categoryId, v.amount.value, currentMonth)))
  }

  /** `availableCategories` as written: the set of existing categories holds only the edited budget's. */
  function AvailableCategories(categories: seq<Category>, editing: Option<Budget>): (r: seq<Category>)
    ensures |r| <= |categories|
  {
    var existing: set<string> := if editing.Some? then {editing.value.categoryId} else {};
    if categories == [] then []
    else
      var c := categories[0];
      (if c.id !in existing || (editing.Some? && c.id == editing.value.categoryId) then [c] else [])
      + AvailableCategories(categories[1..], editing)
  }

  /**
   * As written the filter keeps every category, so a category that already has a budget this
   * month is offered again and a second budget for it can be added.
   */
  lemma {:induction false} AvailableCategoriesKeepsAll(categories: seq<Category>, editing: Option<Budget>)
    ensures AvailableCategories(categories, editing) == categories
    decreases |categories|
  {
    if categories != [] {
      AvailableCategoriesKeepsAll(categories[1..], editing);
      assert categories == [categories[0]] + categories[1..];
    }
  }

  /** How many budgets of the list are for category `id` in `month`. */
  function MatchCount(budgets: seq<Budget>, id: string, month: string): nat {
    if budgets == [] then 0
    else MatchCount(budgets[..|budgets| - 1], id, month) + (if BudgetMatches(budgets[|budgets| - 1], id, month) then 1 else 0)
  }

  /**
   * For any month and any category that already has a budget in it, the new-budget form still
   * offers the category, accepts a positive amount for it, and saving gives the month at least
   * two budgets for that category.
   */
  lemma {:induction false} DuplicateBudgetOffered(categories: seq<Category>, budgets: seq<Budget>, month: string,
                                                  c: Category, existing: Budget, amount: int, newId: string)
    requires c in categories && existing in budgets && BudgetMatches(existing, c.id, month) && amount > 0
    ensures c in AvailableCategories(categories, None)
    ensures SubmitBudget(BudgetFormValues(c.id, Some(amount)), None, month)
            == Some(AddBudget(BudgetInput(c.id, amount, month)))
    ensures MatchCount(budgets + [Budget(newId, c.id, amount, month)], c.id, month) >= 2
  {
    AvailableCategoriesKeepsAll(categories, None);
    var after := budgets + [Budget(newId, c.id, amount, month)];
    assert after[..|after| - 1] == budgets;
    MatchCountPositive(budgets, existing, c.id, month);
  }

  /** A list holding a matching budget counts at least one match. */
  lemma {:induction false} MatchCountPositive(budgets: seq<Budget>, b: Budget, id: string, month: string)
    requires b in budgets && BudgetMatches(b, id, month)
    ensures MatchCount(budgets, id, month) >= 1
    decreases |budgets|
  {
    var init := budgets[..|budgets| - 1];
    if budgets[|budgets| - 1] != b {
      assert budgets == init + [budgets[|budgets| - 1]];
      assert b in init;
      MatchCountPositive(init, b, id, month);
    }
  }

  lemma {:induction false} MatchCountZero(budgets: seq<Budget>, id: string, month: string)
    requires forall b :: b in budgets ==> !BudgetMatches(b, id, month)
    ensures MatchCount(budgets, id, month) == 0
    decreases |budgets|
  {
    if budgets != [] {
      assert budgets[|budgets| - 1] in budgets;
      forall b | b in budgets[..|budgets| - 1] ensures !BudgetMatches(b, id, month) { assert b in budgets; }
      MatchCountZero(budgets[..|budgets| - 1], id, month);
    }
  }

  /**
   * The filter the comments describe: the categories without a budget in `month`, plus the
   * category of the budget being edited.
   */
  function IntendedAvailableCategories(categories: seq<Category>, budgets: seq<Budget>, month: string,
                                       editing: Option<Budget>): (r: seq<Category>)
    ensures |r| <= |categories|
    ensures forall c :: c in r <==>
              c in categories
              && ((editing.Some? && c.id == editing.value.categoryId)
                  || forall b :: b in MonthBudgets(budgets, month) ==> b.categoryId != c.id)
  {
    if categories == [] then []
    else
      var c := categories[0];
      var keep := (editing.Some? && c.id == editing.value.categoryId)
                  || forall b :: b in MonthBudgets(budgets, month) ==> b.categoryId != c.id;
      (if keep then [c] else []) + IntendedAvailableCategories(categories[1..], budgets, month, editing)
  }

  /**
   * Adding a budget through the intended filter never gives a category two budgets in the month:
   * the chosen category ends with exactly one, and every other category keeps its count.
   */
  lemma {:induction false} IntendedPreventsDuplicates(categories: seq<Category>, budgets: seq<Budget>,
                                                      month: string, c: Category, amount: int, newId: string,
                                                      other: string)
    requires c in IntendedAvailableCategories(categories, budgets, month, None)
    ensures var after := budgets + [Budget(newId, c.id, amount, month)];
            && MatchCount(after, c.id, month) == 1
            && (other != c.id ==> MatchCount(after, other, month) == MatchCount(budgets, other, month))
  {
    var after := budgets + [Budget(newId, c.id, amount, month)];
    assert after[..|after| - 1] == budgets;
    MatchCountZero(budgets, c.id, month);
  }

  // ---- properties ----

  /** Editing a budget of the current month and saving it unchanged writes back that budget. */
  lemma {:induction false} EditBudgetRoundTrip(b: Budget)
    requires b.amount > 0
    ensures SubmitBudget(BudgetDefaults(Some(b)), Some(b), b.month) == Some(UpdateBudget(b))
  {
  }

  /** Saving an edited budget moves it to the current month, keeping its id. */
  lemma {:induction false} EditMovesToCurrentMonth(v: BudgetFormValues, b: Budget, currentMonth: string)
    requires ValidBudget(v)
    ensures var r := SubmitBudget(v, Some(b), currentMonth).value;
            r.UpdateBudget? && r.budget.id == b.id && r.budget.month == currentMonth
  {
  }

  /** `onSubmit` against the store; `newId` stands for the id `addBudget` generates. */
  method SubmitBudgetForm(store: FinanceStore, v: BudgetFormValues, editing: Option<Budget>, newId: string)
    requires store.Valid()
    modifies store
    ensures store.Valid()
    ensures !ValidBudget(v) ==> store.budgets == old(store.budgets)
    ensures ValidBudget(v) && editing.None? ==>
              store.budgets == old(store.budgets) + [Budget(newId, v.categoryId, v.amount.value, old(store.currentMonth))]
    ensures ValidBudget(v) && editing.Some? ==>
              store.budgets == Replace(old(store.budgets),
                                       Budget(editing.value.id, v.categoryId, v.amount.value, old(store.currentMonth)),
                                       BudgetId)
    ensures store.transactions == old(store.transactions) && store.currentMonth == old(store.currentMonth)
  {
    var submission := SubmitBudget(v, editing, store.currentMonth);
    if submission.Some? {
      match submission.value
      case AddBudget(i) => store.AddBudget(i, newId);
      case UpdateBudget(b) => store.UpdateBudget(b);
    }
  }
}
