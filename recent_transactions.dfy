/**
 * The "Recent Transactions" card (components/dashboard/RecentTransactions.tsx): the month's
 * transactions, newest first, cut to `limit` (5 by default).
 */
module RecentTransactions {
  import opened Types
  import opened Strings
  import opened Sorting
  import opened Utils

  /**
   * The comparator `new Date(b.date).getTime() - new Date(a.date).getTime()` on ISO dates:
   * a may stay before b when b is not newer.
   */
  predicate NewestFirst(a: Transaction, b: Transaction) {
    LessEq(b.date, a.date)
  }

  lemma {:induction false} NewestFirstPreorder()
    ensures TotalPreorder(NewestFirst)
  {
    forall a: Transaction, b: Transaction
      ensures NewestFirst(a, b) || NewestFirst(b, a)
    {
      LessEqTotal(a.date, b.date);
    }
    forall a: Transaction, b: Transaction, c: Transaction | NewestFirst(a, b) && NewestFirst(b, c)
      ensures NewestFirst(a, c)
    {
      LessEqTransitive(c.date, b.date, a.date);
    }
  }

  const DefaultLimit := 5

  /** The end index of `s.slice(0, limit)` on a list of length n: a negative limit counts from the end. */
  function SliceEnd(n: nat, limit: int): (e: nat)
    ensures e <= n
    ensures limit >= 0 ==> e == if limit <= n then limit else n
    ensures limit < 0 ==> e == if n + limit >= 0 then n + limit else 0
  {
    if limit < 0 then (if n + limit >= 0 then n + limit else 0)
    else if limit <= n then limit else n
  }

  /** `filterTransactionsByMonth(...).sort(newest first).slice(0, limit)`. */
  function Recent(ts: seq<Transaction>, month: string, limit: int): seq<Transaction> {
    var sorted := SortBy(FilterByMonth(ts, month), NewestFirst);
    sorted[..SliceEnd(|sorted|, limit)]
  }

  /**
   * The card shows transactions of the month only, newest first, at most `limit` of them (all of
   * them when the month has no more), and none that is older than one left out.
   */
  lemma {:induction false} RecentShape(ts: seq<Transaction>, month: string, limit: int)
    ensures var r := Recent(ts, month, limit);
            var sorted := SortBy(FilterByMonth(ts, month), NewestFirst);
            && Sorted(r, NewestFirst)
            && (forall t :: t in r ==> t in ts && StartsWith(t.date, month))
            && multiset(r) <= multiset(FilterByMonth(ts, month))
            && (limit >= 0 ==> |r| == if limit <= |sorted| then limit else |sorted|)
            && (forall i, j :: 0 <= i < |r| <= j < |sorted| ==> LessEq(sorted[j].date, r[i].date))
  {
    var m := FilterByMonth(ts, month);
    var sorted := SortBy(m, NewestFirst);
    var r := Recent(ts, month, limit);
    NewestFirstPreorder();
    SortBySorted(m, NewestFirst);
    SortedPrefix(sorted, |r|, NewestFirst);
    forall t | t in r ensures t in m {
      assert t in multiset(r);
    }
  }

  /** With the default limit the card shows the five newest transactions of the month, or all when fewer. */
  lemma {:induction false} RecentDefault(ts: seq<Transaction>, month: string)
    ensures |Recent(ts, month, DefaultLimit)| == if |FilterByMonth(ts, month)| <= 5 then |FilterByMonth(ts, month)| else 5
    ensures |FilterByMonth(ts, month)| <= 5 ==>
              multiset(Recent(ts, month, DefaultLimit)) == multiset(FilterByMonth(ts, month))
  {
    var sorted := SortBy(FilterByMonth(ts, month), NewestFirst);
    if |sorted| <= 5 {
      assert sorted[..|sorted|] == sorted;
    }
  }
}
