/**
 * Tables as maps from a serial id to a row, the order in which their rows
 * are read, and the `ORDER BY … DESC` on a timestamp column.
 */
module Tables {
  import opened Time

  /** The rows whose ids lie in `[lo, hi)`, in ascending id order. */
  function Rows<T(!new)>(m: map<int, T>, lo: int, hi: int): (r: seq<T>)
    ensures forall x :: x in r <==> exists id :: id in m && lo <= id < hi && m[id] == x
    decreases hi - lo
  {
    if hi <= lo then []
    else if lo in m then [m[lo]] + Rows(m, lo + 1, hi)
    else Rows(m, lo + 1, hi)
  }

  /** Every id in use lies in `[1, next)`: serial ids start at 1 and `next` has not been handed out. */
  predicate KeysIn<T>(m: map<int, T>, next: int) {
    forall id :: id in m ==> 1 <= id < next
  }

  /** `x` is a row of the table `m`, under some id. */
  ghost predicate Stored<T>(m: map<int, T>, x: T) {
    exists id :: id in m && m[id] == x
  }

  /** With every key in `[1, next)`, the listing holds exactly the table's rows. */
  lemma RowsValues<T(!new)>(m: map<int, T>, next: int)
    requires KeysIn(m, next)
    ensures forall x :: x in Rows(m, 1, next) <==> Stored(m, x)
  {
    forall x: T | Stored(m, x) ensures x in Rows(m, 1, next) {
      var k :| k in m && m[k] == x;
      assert 1 <= k < next;
    }
  }

  /** Removing one key removes exactly that row from the listing. */
  lemma {:induction false} RowsRemove<T(!new)>(m: map<int, T>, k: int, lo: int, hi: int)
    requires k in m && lo <= k < hi
    ensures multiset(Rows(m, lo, hi)) == multiset(Rows(m - {k}, lo, hi)) + multiset{m[k]}
    decreases hi - lo
  {
    if lo == k {
      RowsUnchanged(m, m - {k}, lo + 1, hi);
    } else {
      RowsRemove(m, k, lo + 1, hi);
    }
  }

  /** Rows listed from two maps that agree on `[lo, hi)` are the same. */
  lemma {:induction false} RowsUnchanged<T(!new)>(m: map<int, T>, n: map<int, T>, lo: int, hi: int)
    requires forall id :: lo <= id < hi ==> (id in m <==> id in n)
    requires forall id :: lo <= id < hi && id in m ==> m[id] == n[id]
    ensures Rows(m, lo, hi) == Rows(n, lo, hi)
    decreases hi - lo
  {
    if lo < hi {
      RowsUnchanged(m, n, lo + 1, hi);
    }
  }

  /** Adding a row at the top id appends it to the listing. */
  lemma {:induction false} RowsAppend<T(!new)>(m: map<int, T>, k: int, x: T, lo: int)
    requires lo <= k && KeysIn(m, k)
    ensures Rows(m[k := x], lo, k + 1) == Rows(m, lo, k) + [x]
    decreases k - lo
  {
    if lo < k {
      RowsAppend(m, k, x, lo + 1);
    } else {
      assert Rows(m[k := x], lo + 1, k + 1) == [];
    }
  }

  /** Each row occurs once in the listing: distinct ids give distinct positions. */
  lemma {:induction false} RowsLength<T(!new)>(m: map<int, T>, lo: int, hi: int)
    requires KeysIn(m, hi) && forall id :: id in m ==> lo <= id
    ensures |Rows(m, lo, hi)| == |m|
    decreases hi - lo
  {
    if hi <= lo {
      assert m.Keys == {};
    } else if lo in m {
      RowsUnchanged(m, m - {lo}, lo + 1, hi);
      RowsLength(m - {lo}, lo + 1, hi);
    } else {
      RowsLength(m, lo + 1, hi);
    }
  }

  /** `s` is ordered by `key` from newest to oldest. */
  predicate NewestFirst<T>(s: seq<T>, key: T -> Instant) {
    forall i, j :: 0 <= i < j < |s| ==> !Before(key(s[i]), key(s[j]))
  }

  /** Putting the head of `s` back in front of `x` inserted into the tail keeps the order and the elements. */
  lemma InsertBehindHead<T(!new)>(x: T, s: seq<T>, t: seq<T>, key: T -> Instant)
    requires s != [] && NewestFirst(s, key) && Before(key(x), key(s[0]))
    requires multiset(t) == multiset(s[1..]) + multiset{x} && NewestFirst(t, key)
    ensures multiset([s[0]] + t) == multiset(s) + multiset{x}
    ensures NewestFirst([s[0]] + t, key)
  {
    assert multiset(s) == multiset{s[0]} + multiset(s[1..]) by { assert s == [s[0]] + s[1..]; }
    forall j | 0 <= j < |t| ensures !Before(key(s[0]), key(t[j])) {
      assert t[j] in multiset(t);
      if t[j] != x {
        assert t[j] in s[1..];
        var k :| 0 <= k < |s[1..]| && s[1..][k] == t[j];
        assert s[k + 1] == t[j];
      }
    }
  }

  /** Inserts `x` before the first element that is not newer than it. */
  function InsertNewestFirst<T(!new)>(x: T, s: seq<T>, key: T -> Instant): (r: seq<T>)
    requires NewestFirst(s, key)
    ensures multiset(r) == multiset(s) + multiset{x}
    ensures NewestFirst(r, key)
  {
    if s == [] then [x]
    else if !Before(key(x), key(s[0])) then [x] + s
    else
      var t := InsertNewestFirst(x, s[1..], key);
      InsertBehindHead(x, s, t, key);
      [s[0]] + t
  }

  /** `ORDER BY key DESC`: a permutation of `s`, newest first. */
  function SortNewestFirst<T(!new)>(s: seq<T>, key: T -> Instant): (r: seq<T>)
    ensures multiset(r) == multiset(s)
    ensures NewestFirst(r, key)
  {
    if s == [] then []
    else
      assert s == [s[0]] + s[1..];
      InsertNewestFirst(s[0], SortNewestFirst(s[1..], key), key)
  }

  /** The rows of `s` that satisfy `p`, in their order. */
  function Filter<T(!new)>(s: seq<T>, p: T -> bool): (r: seq<T>)
    ensures |r| <= |s|
    ensures forall x :: x in r <==> x in s && p(x)
  {
    if s == [] then []
    else if p(s[0]) then [s[0]] + Filter(s[1..], p)
    else Filter(s[1..], p)
  }

  /** Filtering a concatenation filters each part. */
  lemma {:induction false} FilterAppend<T(!new)>(a: seq<T>, b: seq<T>, p: T -> bool)
    ensures Filter(a + b, p) == Filter(a, p) + Filter(b, p)
  {
    if a == [] {
      assert a + b == b;
    } else {
      assert (a + b)[1..] == a[1..] + b;
      FilterAppend(a[1..], b, p);
    }
  }

  /** `r` is `s` with some elements dropped and the rest kept in their original order. */
  predicate IsSubsequence<T(==)>(r: seq<T>, s: seq<T>)
    decreases |s|
  {
    if r == [] then true
    else if s == [] then false
    else (r[0] == s[0] && IsSubsequence(r[1..], s[1..])) || IsSubsequence(r, s[1..])
  }

  /** `Array.prototype.filter` keeps the order of what it keeps. */
  lemma {:induction false} FilterIsSubsequence<T(!new)>(s: seq<T>, p: T -> bool)
    ensures IsSubsequence(Filter(s, p), s)
  {
    if s != [] {
      FilterIsSubsequence(s[1..], p);
    }
  }

  /** A filter every element passes returns the sequence itself. */
  lemma {:induction false} FilterKeepsAll<T(!new)>(s: seq<T>, p: T -> bool)
    requires forall x :: x in s ==> p(x)
    ensures Filter(s, p) == s
  {
    if s != [] {
      assert s[0] in s;
      FilterKeepsAll(s[1..], p);
    }
  }

  /** A filter no element passes returns nothing. */
  lemma {:induction false} FilterDropsAll<T(!new)>(s: seq<T>, p: T -> bool)
    requires forall x :: x in s ==> !p(x)
    ensures Filter(s, p) == []
  {
    if s != [] {
      assert s[0] in s;
      FilterDropsAll(s[1..], p);
    }
  }

  /** A filter that keeps all of `a` and rejects `x` returns `a` from `a + [x]`. */
  lemma FilterDropsLast<T(!new)>(a: seq<T>, x: T, p: T -> bool)
    requires !p(x) && forall y :: y in a ==> p(y)
    ensures Filter(a + [x], p) == a
  {
    FilterAppend(a, [x], p);
    FilterKeepsAll(a, p);
    FilterDropsAll([x], p);
  }

  /** A filter that rejects only `x` returns the rest, in order. */
  lemma FilterDropsOne<T(!new)>(a: seq<T>, x: T, b: seq<T>, p: T -> bool)
    requires !p(x) && (forall y :: y in a ==> p(y)) && (forall y :: y in b ==> p(y))
    ensures Filter(a + [x] + b, p) == a + b
  {
    FilterAppend(a + [x], b, p);
    FilterDropsLast(a, x, p);
    FilterKeepsAll(b, p);
  }

  /** `coalesce(sum(f), 0)` over the rows in `s`. */
  function Sum<T>(s: seq<T>, f: T -> int): int {
    if s == [] then 0 else f(s[0]) + Sum(s[1..], f)
  }

  lemma {:induction false} SumAppend<T>(a: seq<T>, b: seq<T>, f: T -> int)
    ensures Sum(a + b, f) == Sum(a, f) + Sum(b, f)
  {
    if a == [] {
      assert a + b == b;
    } else {
      assert (a + b)[1..] == a[1..] + b;
      SumAppend(a[1..], b, f);
    }
  }

  /** A sum of non-negative terms over a filtered part is at most the sum over the whole. */
  lemma {:induction false} SumFilterBound<T(!new)>(s: seq<T>, p: T -> bool, f: T -> int)
    requires forall x :: x in s ==> f(x) >= 0
    ensures 0 <= Sum(Filter(s, p), f) <= Sum(s, f)
  {
    if s != [] {
      SumFilterBound(s[1..], p, f);
    }
  }
}
