/**
 * `Array.prototype.sort` with a consistent comparator: a stable insertion sort, where
 * `le(a, b)` means "a may stay before b" (the comparator does not return a positive number).
 */
module Sorting {

  ghost predicate TotalPreorder<T(!new)>(le: (T, T) -> bool) {
    && (forall a, b :: le(a, b) || le(b, a))
    && (forall a, b, c :: le(a, b) && le(b, c) ==> le(a, c))
  }

  ghost predicate Sorted<T>(s: seq<T>, le: (T, T) -> bool) {
    forall i, j :: 0 <= i < j < |s| ==> le(s[i], s[j])
  }

  /** Places x after every leading element that may stay before it. */
  function Insert<T>(x: T, s: seq<T>, le: (T, T) -> bool): (r: seq<T>)
    ensures |r| == |s| + 1
    ensures multiset(r) == multiset(s) + multiset{x}
  {
    if s == [] then [x]
    else if le(s[0], x) then
      assert s == [s[0]] + s[1..];
      [s[0]] + Insert(x, s[1..], le)
    else [x] + s
  }

  /** Sorts the prefix first and inserts the last element, as a left-to-right insertion sort. */
  function SortBy<T>(s: seq<T>, le: (T, T) -> bool): (r: seq<T>)
    ensures |r| == |s|
    ensures multiset(r) == multiset(s)
  {
    if s == [] then []
    else
      assert s == s[..|s| - 1] + [s[|s| - 1]];
      Insert(s[|s| - 1], SortBy(s[..|s| - 1], le), le)
  }

  /** Putting an element that may stay before every element of a sorted sequence in front keeps it sorted. */
  lemma {:induction false} ConsSorted<T>(h: T, r: seq<T>, le: (T, T) -> bool)
    requires Sorted(r, le)
    requires forall y :: y in r ==> le(h, y)
    ensures Sorted([h] + r, le)
  {
    var c := [h] + r;
    forall i, j | 0 <= i < j < |c|
      ensures le(c[i], c[j])
    {
      assert c[j] == r[j - 1];
      if i == 0 {
        assert r[j - 1] in r;
      } else {
        assert c[i] == r[i - 1];
      }
    }
  }

  /** Every element of the insertion result is x or an element of s. */
  lemma {:induction false} InsertElements<T>(x: T, s: seq<T>, le: (T, T) -> bool, y: T)
    requires y in Insert(x, s, le)
    ensures y == x || y in s
  {
    assert y in multiset(Insert(x, s, le));
    assert y in multiset(s) + multiset{x};
  }

  lemma {:induction false} InsertSorted<T(!new)>(x: T, s: seq<T>, le: (T, T) -> bool)
    requires TotalPreorder(le)
    requires Sorted(s, le)
    ensures Sorted(Insert(x, s, le), le)
    decreases |s|
  {
    if s != [] && le(s[0], x) {
      assert Sorted(s[1..], le);
      InsertSorted(x, s[1..], le);
      var r := Insert(x, s[1..], le);
      forall y | y in r
        ensures le(s[0], y)
      {
        InsertElements(x, s[1..], le, y);
        if y != x {
          var k :| 0 <= k < |s[1..]| && s[1..][k] == y;
          assert s[k + 1] == y;
        }
      }
      ConsSorted(s[0], r, le);
    } else if s != [] {
      assert le(x, s[0]);
      forall y | y in s
        ensures le(x, y)
      {
        var k :| 0 <= k < |s| && s[k] == y;
        if k > 0 {
          assert le(s[0], s[k]);
        }
      }
      ConsSorted(x, s, le);
    }
  }

  lemma {:induction false} SortBySorted<T(!new)>(s: seq<T>, le: (T, T) -> bool)
    requires TotalPreorder(le)
    ensures Sorted(SortBy(s, le), le)
    decreases |s|
  {
    if s != [] {
      SortBySorted(s[..|s| - 1], le);
      InsertSorted(s[|s| - 1], SortBy(s[..|s| - 1], le), le);
    }
  }

  /** The sum of f over a sequence, from the front. */
  function SumOf<T>(s: seq<T>, f: T -> int): int {
    if s == [] then 0 else f(s[0]) + SumOf(s[1..], f)
  }

  lemma {:induction false} InsertSum<T>(x: T, s: seq<T>, le: (T, T) -> bool, f: T -> int)
    ensures SumOf(Insert(x, s, le), f) == f(x) + SumOf(s, f)
    decreases |s|
  {
    if s != [] && le(s[0], x) {
      InsertSum(x, s[1..], le, f);
      assert ([s[0]] + Insert(x, s[1..], le))[1..] == Insert(x, s[1..], le);
    } else if s != [] {
      assert ([x] + s)[1..] == s;
    }
  }

  lemma {:induction false} SumOfAppend<T>(s: seq<T>, x: T, f: T -> int)
    ensures SumOf(s + [x], f) == SumOf(s, f) + f(x)
    decreases |s|
  {
    if s != [] {
      assert (s + [x])[1..] == s[1..] + [x];
      SumOfAppend(s[1..], x, f);
    }
  }

  /** Sorting never changes a sum. */
  lemma {:induction false} SortBySum<T>(s: seq<T>, le: (T, T) -> bool, f: T -> int)
    ensures SumOf(SortBy(s, le), f) == SumOf(s, f)
    decreases |s|
  {
    if s != [] {
      var init, last := s[..|s| - 1], s[|s| - 1];
      assert SortBy(s, le) == Insert(last, SortBy(init, le), le);
      SortBySum(init, le, f);
      InsertSum(last, SortBy(init, le), le, f);
      assert init + [last] == s;
      SumOfAppend(init, last, f);
    }
  }

  /** A prefix of a sorted sequence is sorted, part of it, and in order before the rest. */
  lemma {:induction false} SortedPrefix<T>(s: seq<T>, n: nat, le: (T, T) -> bool)
    requires Sorted(s, le) && n <= |s|
    ensures Sorted(s[..n], le)
    ensures multiset(s[..n]) <= multiset(s)
    ensures forall i, j :: 0 <= i < n <= j < |s| ==> le(s[..n][i], s[j])
  {
    assert s == s[..n] + s[n..];
    assert multiset(s) == multiset(s[..n]) + multiset(s[n..]);
  }
}
