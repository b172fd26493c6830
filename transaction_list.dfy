/**
 * The transaction table (components/transactions/TransactionList.tsx): the month's transactions
 * that match the search box, newest first, with a confirmed delete.
 */
module TransactionList {
  import opened Types
  import opened Strings
  import opened Sorting
  import opened Utils
  import opened FinanceContext
  import opened ConfirmDelete
  import opened RecentTransactions

  /**
   * The search filter: the lower-cased query occurs in the lower-cased description, or in the
   * lower-cased name of the transaction's category (an unknown category never matches by name).
   */
  predicate MatchesQuery(t: Transaction, categories: seq<Category>, query: string) {
    || Includes(ToLower(t.description), ToLower(query))
    || (FindCategory(categories, t.categoryId).Some?
        && Includes(ToLower(FindCategory(categories, t.categoryId).value.name), ToLower(query)))
  }

  function Search(ts: seq<Transaction>, categories: seq<Category>, query: string): (r: seq<Transaction>)
    ensures forall t :: t in r <==> t in ts && MatchesQuery(t, categories, query)
  {
    if ts == [] then []
    else (if MatchesQuery(ts[0], categories, query) then [ts[0]] else []) + Search(ts[1..], categories, query)
  }

  /** `filteredTransactions`: the month's transactions matching the query, newest first. */
  function Listed(ts: seq<Transaction>, categories: seq<Category>, month: string, query: string)
    : seq<Transaction>
  {
    SortBy(Search(FilterByMonth(ts, month), categories, query), NewestFirst)
  }

  /** The table holds exactly the month's matching transactions, each as often as it occurs, newest first. */
  lemma {:induction false} ListedShape(ts: seq<Transaction>, categories: seq<Category>, month: string, query: string)
    ensures var r := Listed(ts, categories, month, query);
            && Sorted(r, NewestFirst)
            && multiset(r) == multiset(Search(FilterByMonth(ts, month), categories, query))
            && forall t :: t in r <==> t in ts && StartsWith(t.date, month) && MatchesQuery(t, categories, query)
  {
    var s := Search(FilterByMonth(ts, month), categories, query);
    var r := Listed(ts, categories, month, query);
    NewestFirstPreorder();
    SortBySorted(s, NewestFirst);
    forall t ensures t in r <==> t in s {
      assert t in r <==> t in multiset(r);
      assert t in s <==> t in multiset(s);
    }
  }

  /** A search that keeps everything returns the list unchanged. */
  lemma {:induction false} SearchKeepsAll(ts: seq<Transaction>, categories: seq<Category>, query: string)
    requires forall t :: t in ts ==> MatchesQuery(t, categories, query)
    ensures Search(ts, categories, query) == ts
    decreases |ts|
  {
    if ts != [] {
      assert ts[0] in ts;
      forall t | t in ts[1..] ensures MatchesQuery(t, categories, query) { assert t in ts; }
      SearchKeepsAll(ts[1..], categories, query);
    }
  }

  /** With an empty search box the table shows every transaction of the month. */
  lemma {:induction false} EmptyQueryShowsMonth(ts: seq<Transaction>, categories: seq<Category>, month: string)
    ensures multiset(Listed(ts, categories, month, "")) == multiset(FilterByMonth(ts, month))
  {
    ToLowerEmpty();
    forall t | t in FilterByMonth(ts, month) ensures MatchesQuery(t, categories, "") {
      IncludesEmpty(ToLower(t.description));
    }
    SearchKeepsAll(FilterByMonth(ts, month), categories, "");
  }

  /** The search ignores the case of ASCII letters in the query. */
  lemma {:induction false} QueryIgnoresCase(t: Transaction, categories: seq<Category>, query: string)
    ensures MatchesQuery(t, categories, query) <==> MatchesQuery(t, categories, ToLower(query))
  {
    ToLowerIdempotent(query);
  }

  /** `confirmDelete`: delete the pending transaction when its id is truthy, then close the dialog. */
  method ConfirmDeleteTransaction(dialog: DeleteDialog, store: FinanceStore)
    requires store.Valid()
    modifies dialog, store
    ensures store.Valid()
    ensures old(dialog.Open()) ==>
              dialog.deleteId == None
              && store.transactions == Remove(old(store.transactions), old(dialog.deleteId).value, TransactionId)
    ensures !old(dialog.Open()) ==>
              dialog.deleteId == old(dialog.deleteId) && store.transactions == old(store.transactions)
    ensures store.budgets == old(store.budgets) && store.currentMonth == old(store.currentMonth)
  {
    if dialog.deleteId.Some? && dialog.deleteId.value != "" {
      store.DeleteTransaction(dialog.deleteId.value);
      dialog.deleteId := None;
    }
  }
}
