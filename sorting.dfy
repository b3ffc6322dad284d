/** Ordering of query results (`orderBy` on an integer column, ascending).
    The database leaves the order of rows with equal keys open; the model
    keeps their original order (a stable insertion sort). */
module Sorting {

  /** Every element's key is at most the next one's. */
  predicate SortedBy<T>(s: seq<T>, key: T -> int) {
    forall i, j :: 0 <= i < j < |s| ==> key(s[i]) <= key(s[j])
  }

  /** `x` placed in front of the first element whose key is not smaller. */
  function Insert<T>(x: T, s: seq<T>, key: T -> int): (r: seq<T>)
    requires SortedBy(s, key)
    ensures SortedBy(r, key)
    ensures multiset(r) == multiset(s) + multiset{x}
    ensures |r| == |s| + 1
    ensures forall i :: 0 <= i < |r| ==> key(r[i]) >= MinKey(x, s, key)
  {
    if |s| == 0 then [x]
    else if key(x) <= key(s[0]) then
      ConsSorted(x, s, key);
      [x] + s
    else
      var rest := Insert(x, s[1..], key);
      assert s == [s[0]] + s[1..];
      assert MinKey(x, s[1..], key) >= key(s[0]);
      ConsSorted(s[0], rest, key);
      [s[0]] + rest
  }

  /** A head no larger than every key of a sorted tail keeps the sequence sorted. */
  lemma ConsSorted<T>(h: T, r: seq<T>, key: T -> int)
    requires SortedBy(r, key)
    requires forall i :: 0 <= i < |r| ==> key(h) <= key(r[i])
    ensures SortedBy([h] + r, key)
  {
    var c := [h] + r;
    forall i, j | 0 <= i < j < |c| ensures key(c[i]) <= key(c[j]) {
      assert c[j] == r[j - 1];
      if i > 0 {
        assert c[i] == r[i - 1];
      }
    }
  }

  /** The smallest key among `x` and the sorted `s`. */
  function MinKey<T>(x: T, s: seq<T>, key: T -> int): int {
    if |s| == 0 || key(x) <= key(s[0]) then key(x) else key(s[0])
  }

  /** `orderBy: { key: 'asc' }`: the same rows, sorted by key. */
  function SortBy<T>(s: seq<T>, key: T -> int): (r: seq<T>)
    ensures SortedBy(r, key)
    ensures multiset(r) == multiset(s)
    ensures |r| == |s|
  {
    if |s| == 0 then []
    else
      assert s == [s[0]] + s[1..];
      Insert(s[0], SortBy(s[1..], key), key)
  }

  /** The elements satisfying `p`, in order (`where`). */
  function Filter<T(!new)>(s: seq<T>, p: T -> bool): (r: seq<T>)
    ensures forall x :: x in r <==> x in s && p(x)
    ensures |r| <= |s|
    ensures multiset(r) <= multiset(s)
  {
    if |s| == 0 then []
    else
      assert s == [s[0]] + s[1..];
      (if p(s[0]) then [s[0]] else []) + Filter(s[1..], p)
  }

  /** The number of elements satisfying `p` (`count` with a `where`). */
  function Count<T>(s: seq<T>, p: T -> bool): (n: nat)
    ensures n <= |s|
  {
    if |s| == 0 then 0 else (if p(s[0]) then 1 else 0) + Count(s[1..], p)
  }

  /** `take: n`. */
  function TakeRows<T>(s: seq<T>, n: nat): (r: seq<T>)
    ensures |r| == if |s| <= n then |s| else n
    ensures r <= s
  {
    if |s| <= n then s else s[..n]
  }

  /** `select` of one integer column: its value for each row, in order. */
  function Column<T>(s: seq<T>, col: T -> int): (r: seq<int>)
    ensures |r| == |s| && forall i :: 0 <= i < |s| ==> r[i] == col(s[i])
  {
    seq(|s|, i requires 0 <= i < |s| => col(s[i]))
  }

  // ---------------------------------------------------------------------------
  // Properties

  /** A filter keeps as many rows as the count of the same condition. */
  lemma {:induction false} FilterCount<T(!new)>(s: seq<T>, p: T -> bool)
    ensures |Filter(s, p)| == Count(s, p)
  {
    if |s| > 0 {
      FilterCount(s[1..], p);
    }
  }

  /** Counting splits over concatenation. */
  lemma {:induction false} CountAppend<T>(a: seq<T>, b: seq<T>, p: T -> bool)
    ensures Count(a + b, p) == Count(a, p) + Count(b, p)
  {
    if |a| == 0 {
      assert a + b == b;
    } else {
      assert (a + b)[1..] == a[1..] + b;
      CountAppend(a[1..], b, p);
    }
  }

  /** `r` is `s` with some elements left out, the rest in their order. */
  predicate InOrderWithin<T(==)>(r: seq<T>, s: seq<T>)
    decreases |s|
  {
    |r| == 0 ||
    (|s| > 0 && ((r[0] == s[0] && InOrderWithin(r[1..], s[1..])) || InOrderWithin(r, s[1..])))
  }

  /** A filter keeps every row satisfying `p` exactly as often as the table
      holds it, and no other row. */
  lemma {:induction false} FilterMultiset<T(!new)>(s: seq<T>, p: T -> bool)
    ensures forall x :: multiset(Filter(s, p))[x] == if p(x) then multiset(s)[x] else 0
  {
    if |s| > 0 {
      FilterMultiset(s[1..], p);
      assert s == [s[0]] + s[1..];
      assert multiset(s) == multiset{s[0]} + multiset(s[1..]);
    }
  }

  /** A filter keeps the table order. */
  lemma {:induction false} FilterInOrder<T(!new)>(s: seq<T>, p: T -> bool)
    ensures InOrderWithin(Filter(s, p), s)
  {
    if |s| > 0 {
      FilterInOrder(s[1..], p);
      var r := Filter(s, p);
      if p(s[0]) {
        assert r == [s[0]] + Filter(s[1..], p);
        assert r[1..] == Filter(s[1..], p);
      } else {
        assert r == Filter(s[1..], p);
      }
    }
  }

  /** A prefix of a sorted sequence is sorted. */
  lemma SortedPrefix<T>(s: seq<T>, n: nat, key: T -> int)
    requires SortedBy(s, key)
    ensures SortedBy(TakeRows(s, n), key)
  {
  }

  /** A page of the rows satisfying `p`, sorted by `key`, holds only such
      rows, in order, and all of them when there are at most `n`. */
  lemma PageOfFiltered<T(!new)>(s: seq<T>, p: T -> bool, key: T -> int, n: nat)
    ensures var r := TakeRows(SortBy(Filter(s, p), key), n);
      && |r| <= n
      && (forall x :: x in r ==> x in s && p(x))
      && SortedBy(r, key)
      && (Count(s, p) <= n ==> forall x :: x in s && p(x) ==> x in r)
  {
    var mine := Filter(s, p);
    var sorted := SortBy(mine, key);
    SortMembers(mine, key);
    FilterCount(s, p);
    SortedPrefix(sorted, n, key);
    var r := TakeRows(sorted, n);
    forall x | x in r ensures x in sorted {
      var i :| 0 <= i < |r| && r[i] == x;
      assert sorted[i] == x;
    }
    if Count(s, p) <= n {
      assert r == sorted;
    }
  }

  /** A page holds as many rows as there are, up to `n`, and every row
      satisfying `p` that the page leaves out sorts no earlier than any row
      the page holds. */
  lemma PageIsFirst<T(!new)>(s: seq<T>, p: T -> bool, key: T -> int, n: nat)
    ensures var r := TakeRows(SortBy(Filter(s, p), key), n);
      && |r| == (if Count(s, p) <= n then Count(s, p) else n)
      && forall x, y :: x in s && p(x) && x !in r && y in r ==> key(y) <= key(x)
  {
    var mine := Filter(s, p);
    var sorted := SortBy(mine, key);
    SortMembers(mine, key);
    FilterCount(s, p);
    var r := TakeRows(sorted, n);
    assert forall k :: 0 <= k < |r| ==> sorted[k] in r by {
      forall k | 0 <= k < |r| ensures sorted[k] in r {
        assert r[k] == sorted[k];
      }
    }
    forall x, y | x in s && p(x) && x !in r && y in r ensures key(y) <= key(x) {
      var i :| 0 <= i < |sorted| && sorted[i] == x;
      var j :| 0 <= j < |r| && r[j] == y;
      assert sorted[j] == y;
    }
  }

  /** A page never holds a row more often than the table does. */
  lemma PageWithinTable<T(!new)>(s: seq<T>, p: T -> bool, key: T -> int, n: nat)
    ensures multiset(TakeRows(SortBy(Filter(s, p), key), n)) <= multiset(s)
  {
    var mine := Filter(s, p);
    var sorted := SortBy(mine, key);
    TakeWithin(sorted, n);
    assert multiset(sorted) == multiset(mine);
  }

  /** The first `n` rows are rows of the table, each at most as often. */
  lemma TakeWithin<T>(s: seq<T>, n: nat)
    ensures multiset(TakeRows(s, n)) <= multiset(s)
  {
    if n < |s| {
      assert s == s[..n] + s[n..];
    }
  }

  /** Sorting keeps exactly the same elements. */
  lemma SortMembers<T(!new)>(s: seq<T>, key: T -> int)
    ensures forall x :: x in SortBy(s, key) <==> x in s
  {
    var r := SortBy(s, key);
    forall x ensures x in r <==> x in s {
      assert x in r <==> x in multiset(r);
      assert x in s <==> x in multiset(s);
    }
  }

  /** Sorting rows that already satisfy a condition keeps them satisfying it. */
  lemma SortKeeps<T(!new)>(s: seq<T>, key: T -> int, p: T -> bool)
    requires forall x :: x in s ==> p(x)
    ensures forall x :: x in SortBy(s, key) ==> p(x)
  {
    forall x | x in SortBy(s, key) ensures p(x) {
      assert x in multiset(SortBy(s, key));
    }
  }
}
