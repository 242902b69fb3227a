/**
 * The query shapes the server issues against its tables, over tables held as
 * sequences in insertion order: `limit n`, `where p`, and `orderBy` on a
 * nullable timestamp column.
 */
module Query {
  import opened Wrappers

  /** A nullable timestamp column, as an abstract instant. */
  type Stamp = Option<nat>

  function Min(a: nat, b: nat): nat
  {
    if a <= b then a else b
  }

  /** `limit n`: the first `n` rows, or all of them when there are fewer. */
  function Take<T>(s: seq<T>, n: nat): (r: seq<T>)
    ensures |r| == Min(n, |s|)
    ensures r <= s
  {
    if |s| <= n then s else s[..n]
  }

  /** Rows appended after the first `n` do not change `limit n`. */
  lemma TakeAppend<T>(a: seq<T>, b: seq<T>, n: nat)
    requires |a| >= n
    ensures Take(a + b, n) == Take(a, n)
  {
    assert (a + b)[..n] == a[..n];
  }

  /** `where p` / `Array.prototype.filter`: keeps, in order, the rows satisfying `p`. */
  function Filter<T>(s: seq<T>, p: T -> bool): (r: seq<T>)
    ensures |r| <= |s|
    ensures forall k :: 0 <= k < |r| ==> r[k] in s && p(r[k])
    ensures forall k :: 0 <= k < |s| && p(s[k]) ==> s[k] in r
  {
    if s == [] then []
    else if p(s[0]) then [s[0]] + Filter(s[1..], p)
    else Filter(s[1..], p)
  }

  /** A filter keeps every row satisfying `p` as many times as it occurs, and no other row. */
  lemma {:induction false} FilterCounts<T>(s: seq<T>, p: T -> bool)
    ensures forall x :: multiset(Filter(s, p))[x] == if p(x) then multiset(s)[x] else 0
  {
    if s != [] {
      assert s == [s[0]] + s[1..];
      FilterCounts(s[1..], p);
    }
  }

  /** `a` is obtained from `b` by deleting elements, without reordering. */
  predicate IsSubsequence<T(==)>(a: seq<T>, b: seq<T>)
    decreases |b|
  {
    if a == [] then true
    else if b == [] then false
    else if a[0] == b[0] then IsSubsequence(a[1..], b[1..])
    else IsSubsequence(a, b[1..])
  }

  /** A filter keeps the relative order of the rows it keeps. */
  lemma {:induction false} FilterIsSubsequence<T>(s: seq<T>, p: T -> bool)
    ensures IsSubsequence(Filter(s, p), s)
  {
    if s != [] {
      FilterIsSubsequence(s[1..], p);
      if !p(s[0]) {
        DropFirstKeepsSubsequence(Filter(s[1..], p), s[1..], s[0]);
      }
    }
  }

  /** A subsequence of `b` is still one of `[x] + b`. */
  lemma {:induction false} DropFirstKeepsSubsequence<T>(a: seq<T>, b: seq<T>, x: T)
    requires IsSubsequence(a, b)
    ensures IsSubsequence(a, [x] + b)
    decreases |b|, 1
  {
    assert ([x] + b)[1..] == b;
    if a != [] && a[0] == x {
      SubsequenceTail(a, b);
    }
  }

  /** Removing the head of a subsequence keeps it a subsequence. */
  lemma {:induction false} SubsequenceTail<T>(a: seq<T>, b: seq<T>)
    requires a != [] && IsSubsequence(a, b)
    ensures IsSubsequence(a[1..], b)
    decreases |b|, 0
  {
    assert [b[0]] + b[1..] == b;
    if a[0] == b[0] {
      DropFirstKeepsSubsequence(a[1..], b[1..], b[0]);
    } else {
      SubsequenceTail(a, b[1..]);
      DropFirstKeepsSubsequence(a[1..], b[1..], b[0]);
    }
  }

  /** A prefix is a subsequence. */
  lemma {:induction false} PrefixIsSubsequence<T>(a: seq<T>, b: seq<T>)
    requires a <= b
    ensures IsSubsequence(a, b)
  {
    if a != [] {
      assert a[1..] <= b[1..];
      PrefixIsSubsequence(a[1..], b[1..]);
    }
  }

  /** Deleting elements twice is deleting elements once. */
  lemma {:induction false} SubsequenceTransitive<T>(a: seq<T>, b: seq<T>, c: seq<T>)
    requires IsSubsequence(a, b) && IsSubsequence(b, c)
    ensures IsSubsequence(a, c)
    decreases |c|
  {
    if a != [] {
      if b[0] == c[0] {
        if a[0] == b[0] {
          SubsequenceTransitive(a[1..], b[1..], c[1..]);
        } else {
          SubsequenceTransitive(a, b[1..], c[1..]);
        }
      } else {
        SubsequenceTransitive(a, b, c[1..]);
        if a[0] == c[0] {
          SubsequenceTail(a, c[1..]);
        }
      }
    }
  }

  /** A filter whose predicate holds of every row keeps the whole table. */
  lemma {:induction false} FilterKeepsAll<T>(s: seq<T>, p: T -> bool)
    requires forall k :: 0 <= k < |s| ==> p(s[k])
    ensures Filter(s, p) == s
  {
    if s != [] {
      assert p(s[0]);
      FilterKeepsAll(s[1..], p);
      assert [s[0]] + s[1..] == s;
    }
  }

  /** Two predicates that agree on every row select the same rows. */
  lemma {:induction false} FilterCongruent<T>(s: seq<T>, p: T -> bool, q: T -> bool)
    requires forall k :: 0 <= k < |s| ==> p(s[k]) == q(s[k])
    ensures Filter(s, p) == Filter(s, q)
  {
    if s != [] {
      assert p(s[0]) == q(s[0]);
      FilterCongruent(s[1..], p, q);
    }
  }

  /** Filtering distributes over concatenation. */
  lemma {:induction false} FilterAppend<T>(a: seq<T>, b: seq<T>, p: T -> bool)
    ensures Filter(a + b, p) == Filter(a, p) + Filter(b, p)
  {
    if a == [] {
      assert a + b == b;
    } else {
      assert (a + b)[1..] == a[1..] + b;
      FilterAppend(a[1..], b, p);
    }
  }

  /**
   * The order PostgreSQL uses on a nullable column: NULL sorts as greater than
   * every instant (so NULLS LAST ascending and NULLS FIRST descending).
   */
  predicate StampLe(a: Stamp, b: Stamp)
  {
    b.None? || (a.Some? && a.value <= b.value)
  }

  /** `a` may come before `b` under `orderBy` ascending (`desc` false) or descending. */
  predicate InOrder(desc: bool, a: Stamp, b: Stamp)
  {
    if desc then StampLe(b, a) else StampLe(a, b)
  }

  lemma InOrderTotal(desc: bool, a: Stamp, b: Stamp)
    ensures InOrder(desc, a, b) || InOrder(desc, b, a)
  {
  }

  ghost predicate SortedBy<T>(s: seq<T>, key: T -> Stamp, desc: bool)
  {
    forall i, j :: 0 <= i < j < |s| ==> InOrder(desc, key(s[i]), key(s[j]))
  }

  /** Inserts `x` before the first row it may precede. */
  function InsertBy<T>(x: T, s: seq<T>, key: T -> Stamp, desc: bool): (r: seq<T>)
    ensures multiset(r) == multiset(s) + multiset{x}
    ensures |r| == |s| + 1
  {
    if s == [] then [x]
    else if InOrder(desc, key(x), key(s[0])) then [x] + s
    else
      assert s == [s[0]] + s[1..];
      [s[0]] + InsertBy(x, s[1..], key, desc)
  }

  lemma SortedTail<T>(s: seq<T>, key: T -> Stamp, desc: bool)
    requires SortedBy(s, key, desc) && s != []
    ensures SortedBy(s[1..], key, desc)
  {
    forall i, j | 0 <= i < j < |s| - 1
      ensures InOrder(desc, key(s[1..][i]), key(s[1..][j]))
    {
      assert s[1..][i] == s[i + 1] && s[1..][j] == s[j + 1];
    }
  }

  /** A row in order before every row of an ordered table may be put in front of it. */
  lemma ConsSorted<T>(h: T, t: seq<T>, key: T -> Stamp, desc: bool)
    requires SortedBy(t, key, desc)
    requires forall k :: 0 <= k < |t| ==> InOrder(desc, key(h), key(t[k]))
    ensures SortedBy([h] + t, key, desc)
  {
    var r := [h] + t;
    forall i, j | 0 <= i < j < |r| ensures InOrder(desc, key(r[i]), key(r[j])) {
      assert r[j] == t[j - 1];
      if i > 0 {
        assert r[i] == t[i - 1];
      }
    }
  }

  /** Every row of the insertion is the inserted row or a row of the table. */
  lemma InsertByRows<T>(x: T, s: seq<T>, key: T -> Stamp, desc: bool)
    ensures forall k :: 0 <= k < |s| + 1 ==> InsertBy(x, s, key, desc)[k] == x || InsertBy(x, s, key, desc)[k] in s
  {
    var r := InsertBy(x, s, key, desc);
    forall k | 0 <= k < |r| ensures r[k] == x || r[k] in s {
      assert r[k] in multiset(r);
      if r[k] != x {
        assert r[k] in multiset(s);
      }
    }
  }

  /** Inserting into an ordered table keeps it ordered. */
  lemma {:induction false} InsertBySorted<T>(x: T, s: seq<T>, key: T -> Stamp, desc: bool)
    requires SortedBy(s, key, desc)
    ensures SortedBy(InsertBy(x, s, key, desc), key, desc)
  {
    if s == [] {
    } else if InOrder(desc, key(x), key(s[0])) {
      ConsSorted(x, s, key, desc);
    } else {
      InOrderTotal(desc, key(x), key(s[0]));
      SortedTail(s, key, desc);
      InsertBySorted(x, s[1..], key, desc);
      var tail := InsertBy(x, s[1..], key, desc);
      InsertByRows(x, s[1..], key, desc);
      forall k | 0 <= k < |tail| ensures InOrder(desc, key(s[0]), key(tail[k])) {
        if tail[k] != x {
          var m :| 0 <= m < |s| - 1 && s[1..][m] == tail[k];
          assert s[m + 1] == tail[k];
        }
      }
      ConsSorted(s[0], tail, key, desc);
    }
  }

  /**
   * `orderBy`: a stable insertion sort. The result is ordered by `key` and is a
   * permutation of the table.
   */
  function SortBy<T>(s: seq<T>, key: T -> Stamp, desc: bool): (r: seq<T>)
    ensures SortedBy(r, key, desc)
    ensures multiset(r) == multiset(s)
    ensures |r| == |s|
  {
    if s == [] then []
    else
      assert s == [s[0]] + s[1..];
      var rest := SortBy(s[1..], key, desc);
      InsertBySorted(s[0], rest, key, desc);
      InsertBy(s[0], rest, key, desc)
  }

  /** A table already in order is returned unchanged by the sort. */
  lemma {:induction false} SortSorted<T>(s: seq<T>, key: T -> Stamp, desc: bool)
    requires SortedBy(s, key, desc)
    ensures SortBy(s, key, desc) == s
  {
    if s != [] {
      SortedTail(s, key, desc);
      SortSorted(s[1..], key, desc);
      if |s| > 1 {
        assert InOrder(desc, key(s[0]), key(s[1]));
      }
      assert [s[0]] + s[1..] == s;
    }
  }

  /** Filtering an ordered table leaves it ordered. */
  lemma {:induction false} FilterKeepsSorted<T>(s: seq<T>, p: T -> bool, key: T -> Stamp, desc: bool)
    requires SortedBy(s, key, desc)
    ensures SortedBy(Filter(s, p), key, desc)
  {
    if s != [] {
      SortedTail(s, key, desc);
      FilterKeepsSorted(s[1..], p, key, desc);
      var f := Filter(s[1..], p);
      if p(s[0]) {
        forall j | 0 <= j < |f| ensures InOrder(desc, key(s[0]), key(f[j])) {
          assert f[j] in s[1..];
          var m :| 0 <= m < |s| - 1 && s[1..][m] == f[j];
          assert s[m + 1] == f[j];
        }
        ConsSorted(s[0], f, key, desc);
      }
    }
  }

  /** The first row of an ordered table is in order with every row of the table. */
  lemma SortedHeadFirst<T>(s: seq<T>, key: T -> Stamp, desc: bool)
    requires SortedBy(s, key, desc) && s != []
    ensures forall x :: x in s ==> InOrder(desc, key(s[0]), key(x))
  {
    forall x | x in s ensures InOrder(desc, key(s[0]), key(x)) {
      var j :| 0 <= j < |s| && s[j] == x;
      if j == 0 {
        InOrderTotal(desc, key(x), key(x));
      }
    }
  }

  /**
   * `orderBy … limit n`: every row left out of the first `n` is in order after
   * every row that was kept.
   */
  lemma TopRows<T>(s: seq<T>, key: T -> Stamp, desc: bool, n: nat)
    ensures var r := Take(SortBy(s, key, desc), n);
      forall x, i :: x in multiset(s) - multiset(r) && 0 <= i < |r| ==> InOrder(desc, key(r[i]), key(x))
  {
    var sorted := SortBy(s, key, desc);
    var r := Take(sorted, n);
    var rest := sorted[|r|..];
    assert sorted == r + rest;
    assert multiset(s) - multiset(r) == multiset(rest);
    forall x, i | x in multiset(s) - multiset(r) && 0 <= i < |r|
      ensures InOrder(desc, key(r[i]), key(x))
    {
      assert x in rest;
      var j :| 0 <= j < |rest| && rest[j] == x;
      assert sorted[|r| + j] == x && sorted[i] == r[i];
    }
  }
}
