/** The row-set operations the SQL statements use, over tables kept as sequences in
    rowid order: `WHERE` (Filter), `ORDER BY` (a stable insertion sort by a strict
    order, so rows that tie keep their rowid order, an order SQL leaves open),
    `LIMIT`, and the uniqueness constraints of a table (Distinct). */
module Queries {
  import opened Wrappers


  /** `before(a, b)`: `a` must come before `b`. A strict order is asymmetric and transitive. */
  ghost predicate StrictOrder<T(!new)>(before: (T, T) -> bool) {
    && (forall a, b :: before(a, b) ==> !before(b, a))
    && (forall a, b, c :: before(a, b) && before(b, c) ==> before(a, c))
  }

  /** No element is required to come before an element that precedes it. */
  ghost predicate SortedBy<T>(s: seq<T>, before: (T, T) -> bool) {
    forall i, j :: 0 <= i < j < |s| ==> !before(s[j], s[i])
  }

  /** `x` placed in front of the first element it must precede (after all ties). */
  function Insert<T>(x: T, s: seq<T>, before: (T, T) -> bool): (r: seq<T>)
    ensures |r| == |s| + 1
    ensures multiset(r) == multiset(s) + multiset{x}
  {
    if |s| == 0 then [x]
    else if before(x, s[0]) then [x] + s
    else
      assert s == [s[0]] + s[1..];
      [s[0]] + Insert(x, s[1..], before)
  }

  function Sort<T>(s: seq<T>, before: (T, T) -> bool): (r: seq<T>)
    ensures |r| == |s|
    ensures multiset(r) == multiset(s)
  {
    if |s| == 0 then []
    else
      var r := Insert(s[|s| - 1], Sort(s[..|s| - 1], before), before);
      assert s == s[..|s| - 1] + [s[|s| - 1]];
      r
  }

  lemma {:induction false} InsertSorted<T(!new)>(x: T, s: seq<T>, before: (T, T) -> bool)
    requires StrictOrder(before) && SortedBy(s, before)
    ensures SortedBy(Insert(x, s, before), before)
    decreases |s|
  {
    if |s| == 0 || before(x, s[0]) {
    } else {
      var tail := Insert(x, s[1..], before);
      InsertSorted(x, s[1..], before);
      var r := [s[0]] + tail;
      forall j | 0 < j < |r| ensures !before(r[j], s[0]) {
        assert r[j] in multiset(tail);
        assert r[j] in multiset(s[1..]) + multiset{x};
        if r[j] != x {
          assert r[j] in multiset(s[1..]);
          var k :| 0 <= k < |s[1..]| && s[1..][k] == r[j];
          assert s[k + 1] == r[j];
        }
      }
    }
  }

  /** The result of `Sort` is ordered. */
  lemma {:induction false} SortSorted<T(!new)>(s: seq<T>, before: (T, T) -> bool)
    requires StrictOrder(before)
    ensures SortedBy(Sort(s, before), before)
    decreases |s|
  {
    if |s| > 0 {
      SortSorted(s[..|s| - 1], before);
      InsertSorted(s[|s| - 1], Sort(s[..|s| - 1], before), before);
    }
  }

  /** The elements of `s` satisfying `p`, in order (SQL `WHERE`, JavaScript `filter`). */
  function Filter<T(!new)>(s: seq<T>, p: T -> bool): (r: seq<T>)
    ensures |r| <= |s|
    ensures forall x :: x in r <==> x in s && p(x)
  {
    if |s| == 0 then []
    else
      var rest := Filter(s[..|s| - 1], p);
      assert s == s[..|s| - 1] + [s[|s| - 1]];
      if p(s[|s| - 1]) then rest + [s[|s| - 1]] else rest
  }

  /** A subsequence of a sorted sequence is sorted. */
  lemma {:induction false} FilterSorted<T(!new)>(s: seq<T>, p: T -> bool, before: (T, T) -> bool)
    requires SortedBy(s, before)
    ensures SortedBy(Filter(s, p), before)
    decreases |s|
  {
    if |s| > 0 {
      var init := s[..|s| - 1];
      FilterSorted(init, p, before);
      var rest := Filter(init, p);
      if p(s[|s| - 1]) {
        var r := rest + [s[|s| - 1]];
        forall i, j | 0 <= i < j < |r| ensures !before(r[j], r[i]) {
          if j == |r| - 1 {
            assert r[i] in rest;
            var k :| 0 <= k < |init| && init[k] == r[i];
            assert s[k] == r[i];
          }
        }
      }
    }
  }

  /** `LIMIT n`: SQLite reads a negative limit as no limit at all. */
  function Limit<T>(s: seq<T>, n: int): (r: seq<T>)
    ensures n < 0 ==> r == s
    ensures 0 <= n ==> |r| == (if n <= |s| then n else |s|)
    ensures r == s[..|r|]
  {
    if n < 0 || |s| <= n then s else s[..n]
  }

  /** The set of the elements of a sequence. */
  function Elements<T(!new)>(s: seq<T>): (r: set<T>)
    ensures forall x :: x in r <==> x in s
  {
    set x | x in s
  }

  lemma ElementsAppend<T(!new)>(s: seq<T>, x: T)
    ensures Elements(s + [x]) == Elements(s) + {x}
  {
    assert forall y :: y in s + [x] <==> y in s || y == x;
  }

  /** No two rows at different positions clash (a PRIMARY KEY or UNIQUE constraint). */
  ghost predicate Distinct<T>(s: seq<T>, clash: (T, T) -> bool) {
    forall i, j {:trigger clash(s[i], s[j])} :: 0 <= i < j < |s| ==> !clash(s[i], s[j])
  }

  /** Appending a row keeps a constraint exactly when the row clashes with no earlier one. */
  lemma AppendDistinct<T>(s: seq<T>, v: T, clash: (T, T) -> bool)
    requires Distinct(s, clash)
    ensures Distinct(s + [v], clash) <==> forall k :: 0 <= k < |s| ==> !clash(s[k], v)
  {
    if forall k :: 0 <= k < |s| ==> !clash(s[k], v) {
      var r := s + [v];
      forall i, j | 0 <= i < j < |r| ensures !clash(r[i], r[j]) {
        if j < |s| {
          assert r[i] == s[i] && r[j] == s[j];
        }
      }
    } else {
      var k :| 0 <= k < |s| && clash(s[k], v);
      assert (s + [v])[k] == s[k] && (s + [v])[|s|] == v;
    }
  }

  /** Deleting rows (`DELETE ... WHERE`) never breaks a constraint. */
  lemma {:induction false} FilterDistinct<T(!new)>(s: seq<T>, p: T -> bool, clash: (T, T) -> bool)
    requires Distinct(s, clash)
    ensures Distinct(Filter(s, p), clash)
    decreases |s|
  {
    if |s| > 0 {
      var init := s[..|s| - 1];
      var last := s[|s| - 1];
      assert Distinct(init, clash) by {
        forall i, j | 0 <= i < j < |init| ensures !clash(init[i], init[j]) {
          assert init[i] == s[i] && init[j] == s[j];
        }
      }
      FilterDistinct(init, p, clash);
      var rest := Filter(init, p);
      if p(last) {
        forall k | 0 <= k < |rest| ensures !clash(rest[k], last) {
          assert rest[k] in init;
          var m :| 0 <= m < |init| && init[m] == rest[k];
          assert s[m] == rest[k];
        }
        AppendDistinct(rest, last, clash);
      }
    }
  }

  /** Replacing one row by a row that clashes with exactly the same rows keeps a
      constraint (an `UPDATE` that leaves the key columns alone). */
  lemma ReplaceDistinct<T(!new)>(s: seq<T>, k: nat, v: T, clash: (T, T) -> bool)
    requires k < |s| && Distinct(s, clash)
    requires forall x :: clash(x, v) == clash(x, s[k]) && clash(v, x) == clash(s[k], x)
    ensures Distinct(s[k := v], clash)
  {
  }

  /** The number of elements satisfying `p` (`COUNT` over a join). */
  function Count<T>(s: seq<T>, p: T -> bool): (n: nat)
    ensures n <= |s|
    ensures n == 0 <==> forall i :: 0 <= i < |s| ==> !p(s[i])
  {
    if |s| == 0 then 0
    else
      assert forall i :: 1 <= i < |s| ==> s[i] == s[1..][i - 1];
      (if p(s[0]) then 1 else 0) + Count(s[1..], p)
  }

  /** The first element satisfying `p` (`.first()` on a query without ORDER BY). */
  function First<T>(s: seq<T>, p: T -> bool): (r: Option<T>)
    ensures r.Some? ==> r.value in s && p(r.value)
    ensures r.None? <==> forall i :: 0 <= i < |s| ==> !p(s[i])
  {
    if |s| == 0 then None
    else if p(s[0]) then Some(s[0])
    else
      assert forall i :: 1 <= i < |s| ==> s[i] == s[1..][i - 1];
      First(s[1..], p)
  }

  /** The rows whose key column holds `k` (`WHERE key = ?`). */
  function KeyIs<T>(key: T -> string, k: string): T -> bool {
    (y: T) => key(y) == k
  }

  /** The rows whose key column does not hold `k`. */
  function NotKey<T>(key: T -> string, k: string): T -> bool {
    (y: T) => key(y) != k
  }

  /** `DELETE FROM t WHERE key = ?`: the table without the rows holding `k`. */
  function WithoutKey<T(!new)>(s: seq<T>, key: T -> string, k: string): (r: seq<T>)
    ensures forall x :: x in r <==> x in s && key(x) != k
  {
    Filter(s, NotKey(key, k))
  }

  /** After deleting by key, a lookup of that key finds nothing. */
  lemma WithoutKeyNotFound<T(!new)>(s: seq<T>, key: T -> string, k: string)
    ensures First(WithoutKey(s, key, k), KeyIs(key, k)).None?
  {
    var r := WithoutKey(s, key, k);
    forall i | 0 <= i < |r| ensures !KeyIs(key, k)(r[i]) {
      assert r[i] in r;
    }
  }

  /** Under a key constraint, the first row with a key is the only one with it. */
  lemma {:induction false} FirstUnique<T>(s: seq<T>, key: T -> string, k: string, x: T)
    requires Distinct(s, SameKeyOf(key)) && x in s && key(x) == k
    ensures First(s, KeyIs(key, k)) == Some(x)
    decreases |s|
  {
    if key(s[0]) != k {
      assert Distinct(s[1..], SameKeyOf(key)) by {
        forall i, j | 0 <= i < j < |s[1..]| ensures !SameKeyOf(key)(s[1..][i], s[1..][j]) {
          assert s[1..][i] == s[i + 1] && s[1..][j] == s[j + 1];
        }
      }
      FirstUnique(s[1..], key, k, x);
    } else {
      var m :| 0 <= m < |s| && s[m] == x;
      assert SameKeyOf(key)(s[0], s[m]);
    }
  }

  /** Two rows clash on a key column. */
  function SameKeyOf<T>(key: T -> string): (T, T) -> bool {
    (a: T, b: T) => key(a) == key(b)
  }

  /** A clash relation that does not depend on the order of its arguments. */
  ghost predicate Symmetric<T(!new)>(clash: (T, T) -> bool) {
    forall a, b :: clash(a, b) ==> clash(b, a)
  }

  lemma {:induction false} InsertDistinct<T(!new)>(x: T, s: seq<T>, before: (T, T) -> bool, clash: (T, T) -> bool)
    requires Symmetric(clash) && Distinct(s, clash)
    requires forall k :: 0 <= k < |s| ==> !clash(x, s[k])
    ensures Distinct(Insert(x, s, before), clash)
    decreases |s|
  {
    var r := Insert(x, s, before);
    if |s| == 0 {
    } else if before(x, s[0]) {
      forall i, j | 0 <= i < j < |r| ensures !clash(r[i], r[j]) {
        assert r[j] == s[j - 1];
        if i > 0 {
          assert r[i] == s[i - 1] && !clash(s[i - 1], s[j - 1]);
        }
      }
    } else {
      var tail := Insert(x, s[1..], before);
      assert Distinct(s[1..], clash) by {
        forall i, j | 0 <= i < j < |s[1..]| ensures !clash(s[1..][i], s[1..][j]) {
          assert !clash(s[i + 1], s[j + 1]);
        }
      }
      InsertDistinct(x, s[1..], before, clash);
      assert r == [s[0]] + tail;
      forall j | 0 < j < |r| ensures !clash(r[0], r[j]) {
        assert r[j] in multiset(s[1..]) + multiset{x} by {
          assert r[j] == tail[j - 1];
        }
        if r[j] == x {
          assert !clash(x, s[0]);
        } else {
          assert r[j] in s[1..];
          var k :| 0 <= k < |s[1..]| && s[1..][k] == r[j];
          assert !clash(s[0], s[k + 1]);
        }
      }
      forall i, j | 0 < i < j < |r| ensures !clash(r[i], r[j]) {
        assert r[i] == tail[i - 1] && r[j] == tail[j - 1];
        assert !clash(tail[i - 1], tail[j - 1]);
      }
    }
  }

  /** Ordering rows keeps a uniqueness constraint. */
  lemma {:induction false} SortDistinct<T(!new)>(s: seq<T>, before: (T, T) -> bool, clash: (T, T) -> bool)
    requires Symmetric(clash) && Distinct(s, clash)
    ensures Distinct(Sort(s, before), clash)
    decreases |s|
  {
    if |s| > 0 {
      var init, last := s[..|s| - 1], s[|s| - 1];
      assert Distinct(init, clash) by {
        forall i, j | 0 <= i < j < |init| ensures !clash(init[i], init[j]) {
          assert !clash(s[i], s[j]);
        }
      }
      SortDistinct(init, before, clash);
      var sorted := Sort(init, before);
      forall k | 0 <= k < |sorted| ensures !clash(last, sorted[k]) {
        assert sorted[k] in multiset(init);
        var m :| 0 <= m < |init| && init[m] == sorted[k];
        assert !clash(s[m], s[|s| - 1]);
      }
      InsertDistinct(last, sorted, before, clash);
    }
  }

  /** A prefix of an ordered sequence is ordered (what `LIMIT` returns). */
  lemma PrefixSorted<T>(s: seq<T>, n: nat, before: (T, T) -> bool)
    requires n <= |s| && SortedBy(s, before)
    ensures SortedBy(s[..n], before)
  {
    assert forall i :: 0 <= i < n ==> s[..n][i] == s[i];
  }
}
