/**
 * The state of `FinanceProvider` (context/FinanceContext.tsx): the transaction and budget lists,
 * the fixed category list, the selected month, and the insights derived from them.
 */
module FinanceContext {
  import opened Types
  import opened SpendingInsights

  // ---- list operations behind the setters ----

  /** `list.map((e) => (e.id === x.id ? x : e))`. */
  function Replace<T>(s: seq<T>, x: T, key: T -> string): (r: seq<T>)
    ensures |r| == |s|
    ensures forall i :: 0 <= i < |s| ==> r[i] == if key(s[i]) == key(x) then x else s[i]
  {
    if s == [] then [] else [if key(s[0]) == key(x) then x else s[0]] + Replace(s[1..], x, key)
  }

  /** `list.filter((e) => e.id !== id)`. */
  function Remove<T(!new)>(s: seq<T>, id: string, key: T -> string): (r: seq<T>)
    ensures |r| <= |s|
    ensures forall y :: y in r <==> y in s && key(y) != id
  {
    if s == [] then [] else (if key(s[0]) != id then [s[0]] else []) + Remove(s[1..], id, key)
  }

  /** Replacing by an id no element has changes nothing. */
  lemma {:induction false} ReplaceAbsent<T(!new)>(s: seq<T>, x: T, key: T -> string)
    requires forall y :: y in s ==> key(y) != key(x)
    ensures Replace(s, x, key) == s
  {
    var r := Replace(s, x, key);
    forall i | 0 <= i < |s|
      ensures r[i] == s[i]
    {
      assert s[i] in s;
    }
  }

  /** Removing keeps the survivors in their original order: it distributes over concatenation. */
  lemma {:induction false} RemoveConcat<T(!new)>(a: seq<T>, b: seq<T>, id: string, key: T -> string)
    ensures Remove(a + b, id, key) == Remove(a, id, key) + Remove(b, id, key)
    decreases |a|
  {
    if a != [] {
      assert (a + b)[1..] == a[1..] + b;
      RemoveConcat(a[1..], b, id, key);
    } else {
      assert a + b == b;
    }
  }

  /** Removing an id no element has changes nothing. */
  lemma {:induction false} RemoveAbsent<T(!new)>(s: seq<T>, id: string, key: T -> string)
    requires forall y :: y in s ==> key(y) != id
    ensures Remove(s, id, key) == s
    decreases |s|
  {
    if s != [] {
      assert s[0] in s;
      forall y | y in s[1..] ensures key(y) != id { assert y in s; }
      RemoveAbsent(s[1..], id, key);
    }
  }

  /** Appending an element with a fresh id and then removing that id restores the list. */
  lemma {:induction false} AddThenRemove<T(!new)>(s: seq<T>, x: T, key: T -> string)
    requires forall y :: y in s ==> key(y) != key(x)
    ensures Remove(s + [x], key(x), key) == s
  {
    RemoveConcat(s, [x], key(x), key);
    RemoveAbsent(s, key(x), key);
    assert Remove([x], key(x), key) == [];
  }

  /** Replacing twice by the same record is the same as replacing once. */
  lemma {:induction false} ReplaceIdempotent<T>(s: seq<T>, x: T, key: T -> string)
    ensures Replace(Replace(s, x, key), x, key) == Replace(s, x, key)
  {
  }

  // ---- the provider state ----

  class FinanceStore {
    var transactions: seq<Transaction>
    /** `setCategories` is never called, so the category list is fixed. */
    const categories: seq<Category>
    var budgets: seq<Budget>
    var insights: seq<Insight>
    var currentMonth: string

    /** The effect has run: the insights are those of the current state. */
    ghost predicate Valid()
      reads this
    {
      insights == Insights(transactions, budgets, categories, currentMonth)
    }

    /** The initial state, after the insights effect has run once. */
    constructor (initialTransactions: seq<Transaction>, initialCategories: seq<Category>,
                 initialBudgets: seq<Budget>, initialMonth: string)
      ensures Valid()
      ensures transactions == initialTransactions && categories == initialCategories
      ensures budgets == initialBudgets && currentMonth == initialMonth
    {
      transactions := initialTransactions;
      categories := initialCategories;
      budgets := initialBudgets;
      currentMonth := initialMonth;
      new;
      insights := GenerateInsights(initialTransactions, initialBudgets, initialCategories, initialMonth);
    }

    /** The `useEffect` that recomputes the insights after a change. */
    method RefreshInsights()
      modifies this
      ensures Valid()
      ensures transactions == old(transactions) && budgets == old(budgets) && currentMonth == old(currentMonth)
    {
      insights := GenerateInsights(transactions, budgets, categories, currentMonth);
    }

    method SetCurrentMonth(month: string)
      modifies this
      ensures Valid()
      ensures currentMonth == month
      ensures transactions == old(transactions) && budgets == old(budgets)
    {
      currentMonth := month;
      RefreshInsights();
    }

    /** `addTransaction`, with the generated id as the parameter `newId`. */
    method AddTransaction(t: TransactionInput, newId: string)
      modifies this
      ensures Valid()
      ensures transactions == old(transactions)
                              + [Transaction(newId, t.amount, t.date, t.description, t.categoryId)]
      ensures budgets == old(budgets) && currentMonth == old(currentMonth)
    {
      var newTransaction := Transaction(newId, t.amount, t.date, t.description, t.categoryId);
      transactions := transactions + [newTransaction];
      RefreshInsights();
    }

    method UpdateTransaction(t: Transaction)
      modifies this
      ensures Valid()
      ensures transactions == Replace(old(transactions), t, TransactionId)
      ensures budgets == old(budgets) && currentMonth == old(currentMonth)
    {
      transactions := Replace(transactions, t, TransactionId);
      RefreshInsights();
    }

    method DeleteTransaction(id: string)
      modifies this
      ensures Valid()
      ensures transactions == Remove(old(transactions), id, TransactionId)
      ensures budgets == old(budgets) && currentMonth == old(currentMonth)
    {
      transactions := Remove(transactions, id, TransactionId);
      RefreshInsights();
    }

    /** `addBudget`, with the generated id as the parameter `newId`. */
    method AddBudget(b: BudgetInput, newId: string)
      modifies this
      ensures Valid()
      ensures budgets == old(budgets) + [Budget(newId, b.categoryId, b.amount, b.month)]
      ensures transactions == old(transactions) && currentMonth == old(currentMonth)
    {
      var newBudget := Budget(newId, b.categoryId, b.amount, b.month);
      budgets := budgets + [newBudget];
      RefreshInsights();
    }

    method UpdateBudget(b: Budget)
      modifies this
      ensures Valid()
      ensures budgets == Replace(old(budgets), b, BudgetId)
      ensures transactions == old(transactions) && currentMonth == old(currentMonth)
    {
      budgets := Replace(budgets, b, BudgetId);
      RefreshInsights();
    }

    method DeleteBudget(id: string)
      modifies this
      ensures Valid()
      ensures budgets == Remove(old(budgets), id, BudgetId)
      ensures transactions == old(transactions) && currentMonth == old(currentMonth)
    {
      budgets := Remove(budgets, id, BudgetId);
      RefreshInsights();
    }
  }

  /** Adding a transaction with a fresh id and deleting it again restores the transaction list. */
  method AddThenDeleteTransaction(store: FinanceStore, t: TransactionInput, newId: string)
    requires forall x :: x in store.transactions ==> x.id != newId
    modifies store
    ensures store.Valid()
    ensures store.transactions == old(store.transactions) && store.budgets == old(store.budgets)
  {
    ghost var before := store.transactions;
    store.AddTransaction(t, newId);
    AddThenRemove(before, Transaction(newId, t.amount, t.date, t.description, t.categoryId), TransactionId);
    store.DeleteTransaction(newId);
  }
}
