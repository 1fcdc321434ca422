/**
  The array operations the planner is written with: `filter`, `map`, `find`
  and the (stable) `sort` of JavaScript arrays, as functions on sequences.
 */
module Seqs {
  import opened Types

  /** `s.filter(keep)`: the elements of `s` that satisfy `keep`, in their original order. */
  function Filter<T(!new)>(s: seq<T>, keep: T -> bool): (r: seq<T>)
    ensures |r| <= |s|
    ensures forall x :: x in r <==> x in s && keep(x)
  {
    if s == [] then []
    else
      assert s == s[..|s| - 1] + [s[|s| - 1]];
      Filter(s[..|s| - 1], keep) + (if keep(s[|s| - 1]) then [s[|s| - 1]] else [])
  }

  /** Filtering distributes over concatenation: the kept elements stay in order. */
  lemma {:induction false} FilterConcat<T(!new)>(a: seq<T>, b: seq<T>, keep: T -> bool)
    ensures Filter(a + b, keep) == Filter(a, keep) + Filter(b, keep)
  {
    if b == [] {
      assert a + b == a;
    } else {
      var init, last := b[..|b| - 1], b[|b| - 1];
      var ab := a + b;
      var tail := if keep(last) then [last] else [];
      assert ab[..|ab| - 1] == a + init && ab[|ab| - 1] == last;
      FilterConcat(a, init, keep);
      calc {
        Filter(ab, keep);
        Filter(a + init, keep) + tail;
        (Filter(a, keep) + Filter(init, keep)) + tail;
        { assert (Filter(a, keep) + Filter(init, keep)) + tail == Filter(a, keep) + (Filter(init, keep) + tail); }
        Filter(a, keep) + (Filter(init, keep) + tail);
        Filter(a, keep) + Filter(b, keep);
      }
    }
  }

  /** A filter that rejects nothing is the identity. */
  lemma {:induction false} FilterKeepsAll<T(!new)>(s: seq<T>, keep: T -> bool)
    requires forall x :: x in s ==> keep(x)
    ensures Filter(s, keep) == s
  {
    if s != [] {
      assert s == s[..|s| - 1] + [s[|s| - 1]];
      FilterKeepsAll(s[..|s| - 1], keep);
    }
  }

  /** A filter that keeps nothing yields the empty sequence. */
  lemma {:induction false} FilterKeepsNone<T(!new)>(s: seq<T>, keep: T -> bool)
    requires forall i :: 0 <= i < |s| ==> !keep(s[i])
    ensures Filter(s, keep) == []
  {
    if s != [] {
      FilterKeepsNone(s[..|s| - 1], keep);
    }
  }

  /** Two filters in a row keep what satisfies both. */
  lemma {:induction false} FilterFilter<T(!new)>(s: seq<T>, p: T -> bool, q: T -> bool, both: T -> bool)
    requires forall x :: both(x) == (p(x) && q(x))
    ensures Filter(Filter(s, p), q) == Filter(s, both)
  {
    if s != [] {
      var init, last := s[..|s| - 1], s[|s| - 1];
      var tail := if p(last) then [last] else [];
      assert Filter(s, p) == Filter(init, p) + tail;
      FilterConcat(Filter(init, p), tail, q);
      assert [last][..0] == [];
      assert Filter(tail, q) == if both(last) then [last] else [];
      FilterFilter(init, p, q, both);
    }
  }

  /** Two kept elements keep their relative order in the filtered sequence. */
  lemma {:induction false} FilterKeepsOrder<T(!new)>(s: seq<T>, keep: T -> bool, i: int, j: int)
    requires 0 <= i < j < |s| && keep(s[i]) && keep(s[j])
    ensures exists p, q :: 0 <= p < q < |Filter(s, keep)| && Filter(s, keep)[p] == s[i] && Filter(s, keep)[q] == s[j]
  {
    var init := s[..|s| - 1];
    var fi := Filter(init, keep);
    assert Filter(s, keep) == fi + (if keep(s[|s| - 1]) then [s[|s| - 1]] else []);
    if j == |s| - 1 {
      assert s[i] == init[i];
      assert s[i] in fi;
      var p :| 0 <= p < |fi| && fi[p] == s[i];
      assert Filter(s, keep)[p] == s[i] && Filter(s, keep)[|fi|] == s[j];
    } else {
      assert s[i] == init[i] && s[j] == init[j];
      FilterKeepsOrder(init, keep, i, j);
      var p, q :| 0 <= p < q < |fi| && fi[p] == s[i] && fi[q] == s[j];
      assert Filter(s, keep)[p] == s[i] && Filter(s, keep)[q] == s[j];
    }
  }

  /** `s.map(f)`. */
  function Map<T, U>(s: seq<T>, f: T -> U): (r: seq<U>)
    ensures |r| == |s|
    ensures forall i :: 0 <= i < |s| ==> r[i] == f(s[i])
  {
    if s == [] then [] else Map(s[..|s| - 1], f) + [f(s[|s| - 1])]
  }

  /** `s.find(p)`: the first element satisfying `p`, or none when there is none. */
  function Find<T(==, !new)>(s: seq<T>, p: T -> bool): (r: Option<T>)
    ensures r.None? <==> forall x :: x in s ==> !p(x)
    ensures r.Some? ==> exists i :: 0 <= i < |s| && s[i] == r.value && p(s[i]) && forall j :: 0 <= j < i ==> !p(s[j])
  {
    if s == [] then None
    else if p(s[0]) then Some(s[0])
    else
      var r := Find(s[1..], p);
      assert forall x :: x in s ==> x == s[0] || x in s[1..];
      assert r.Some? ==> exists i :: 0 <= i < |s| && s[i] == r.value && p(s[i]) && forall j :: 0 <= j < i ==> !p(s[j]) by {
        if r.Some? {
          var i :| 0 <= i < |s[1..]| && s[1..][i] == r.value && p(s[1..][i]) && forall j :: 0 <= j < i ==> !p(s[1..][j]);
          assert s[i + 1] == r.value && forall j :: 0 <= j < i + 1 ==> !p(s[j]);
        }
      }
      r
  }

  /** `s.some(p)`. */
  predicate Any<T>(s: seq<T>, p: T -> bool)
  {
    exists i :: 0 <= i < |s| && p(s[i])
  }

  /** Non-decreasing by `key`. */
  predicate SortedBy<T>(s: seq<T>, key: T -> int)
  {
    forall i, j :: 0 <= i < j < |s| ==> key(s[i]) <= key(s[j])
  }

  /** The elements of `s` whose key is `k`, in their order in `s`. */
  function WithKey<T(!new)>(s: seq<T>, key: T -> int, k: int): seq<T>
  {
    Filter(s, x => key(x) == k)
  }

  /** Inserts `x` after every element whose key is not greater than its own. */
  function Insert<T>(x: T, s: seq<T>, key: T -> int): (r: seq<T>)
    ensures |r| == |s| + 1
    ensures multiset(r) == multiset(s) + multiset{x}
  {
    if s == [] then [x]
    else if key(x) < key(s[0]) then [x] + s
    else
      assert s == [s[0]] + s[1..];
      [s[0]] + Insert(x, s[1..], key)
  }

  /** Inserting into a sorted sequence keeps it sorted. */
  lemma {:induction false} InsertKeepsSorted<T>(x: T, s: seq<T>, key: T -> int)
    requires SortedBy(s, key)
    ensures SortedBy(Insert(x, s, key), key)
  {
    if s == [] {
    } else if key(x) < key(s[0]) {
      assert forall i :: 0 <= i < |s| ==> key(s[0]) <= key(s[i]);
      PrependKeepsSorted(x, s, key);
    } else {
      var rest := s[1..];
      assert SortedBy(rest, key);
      InsertKeepsSorted(x, rest, key);
      assert forall i :: 0 <= i < |rest| ==> key(s[0]) <= key(rest[i]);
      InsertFloor(x, rest, key, key(s[0]));
      PrependKeepsSorted(s[0], Insert(x, rest, key), key);
    }
  }

  /** A sorted sequence stays sorted behind an element no greater than any of it. */
  lemma PrependKeepsSorted<T>(y: T, s: seq<T>, key: T -> int)
    requires SortedBy(s, key) && forall i :: 0 <= i < |s| ==> key(y) <= key(s[i])
    ensures SortedBy([y] + s, key)
  {
    var r := [y] + s;
    forall i, j | 0 <= i < j < |r|
      ensures key(r[i]) <= key(r[j])
    {
      assert r[j] == s[j - 1];
      if i > 0 {
        assert r[i] == s[i - 1];
      }
    }
  }

  /** A lower bound of `x` and of every element of `s` bounds every element of the insertion. */
  lemma InsertFloor<T>(x: T, s: seq<T>, key: T -> int, lo: int)
    requires lo <= key(x) && forall i :: 0 <= i < |s| ==> lo <= key(s[i])
    ensures forall i :: 0 <= i < |s| + 1 ==> lo <= key(Insert(x, s, key)[i])
  {
    var r := Insert(x, s, key);
    forall i | 0 <= i < |r|
      ensures lo <= key(r[i])
    {
      assert r[i] in multiset(r);
      assert r[i] == x || r[i] in multiset(s);
      if r[i] != x {
        var j :| 0 <= j < |s| && s[j] == r[i];
      }
    }
  }

  /**
    `s.sort((a, b) => key(a) - key(b))`: JavaScript's sort is stable, so this is
    an insertion sort that places each element after all equal keys.
   */
  function SortBy<T>(s: seq<T>, key: T -> int): (r: seq<T>)
    ensures |r| == |s|
    ensures multiset(r) == multiset(s)
    ensures SortedBy(r, key)
  {
    if s == [] then []
    else
      assert s == s[..|s| - 1] + [s[|s| - 1]];
      var sorted := SortBy(s[..|s| - 1], key);
      InsertKeepsSorted(s[|s| - 1], sorted, key);
      Insert(s[|s| - 1], sorted, key)
  }

  lemma WithKeyConcat<T(!new)>(a: seq<T>, b: seq<T>, key: T -> int, k: int)
    ensures WithKey(a + b, key, k) == WithKey(a, key, k) + WithKey(b, key, k)
  {
    FilterConcat(a, b, x => key(x) == k);
  }

  lemma WithKeySingleton<T(!new)>(x: T, key: T -> int, k: int)
    ensures WithKey([x], key, k) == if key(x) == k then [x] else []
  {
    assert [x][..0] == [];
  }

  lemma WithKeyNone<T(!new)>(s: seq<T>, key: T -> int, k: int)
    requires forall i :: 0 <= i < |s| ==> key(s[i]) != k
    ensures WithKey(s, key, k) == []
  {
    FilterKeepsNone(s, x => key(x) == k);
  }

  /** Two elements with key `k` keep their relative order among the elements with key `k`. */
  lemma WithKeyKeepsOrder<T(!new)>(s: seq<T>, key: T -> int, k: int, i: int, j: int)
    requires 0 <= i < j < |s| && key(s[i]) == k && key(s[j]) == k
    ensures exists p, q :: 0 <= p < q < |WithKey(s, key, k)| && WithKey(s, key, k)[p] == s[i] && WithKey(s, key, k)[q] == s[j]
  {
    var w := WithKey(s, key, k);
    FilterKeepsOrder(s, x => key(x) == k, i, j);
    assert w == Filter(s, x => key(x) == k);
    var p, q :| 0 <= p < q < |w| && w[p] == s[i] && w[q] == s[j];
  }

  lemma {:induction false} InsertWithKey<T(!new)>(x: T, s: seq<T>, key: T -> int, k: int)
    requires SortedBy(s, key)
    ensures WithKey(Insert(x, s, key), key, k) == WithKey(s, key, k) + (if key(x) == k then [x] else [])
  {
    WithKeySingleton(x, key, k);
    if s == [] {
    } else if key(x) < key(s[0]) {
      InsertInFront(x, s, key, k);
    } else {
      var rest := s[1..];
      var ir := Insert(x, rest, key);
      var tail := if key(x) == k then [x] else [];
      assert s == [s[0]] + rest;
      assert Insert(x, s, key) == [s[0]] + ir;
      assert SortedBy(rest, key);
      InsertWithKey(x, rest, key, k);
      assert WithKey(ir, key, k) == WithKey(rest, key, k) + tail;
      WithKeyConcat([s[0]], ir, key, k);
      assert WithKey(Insert(x, s, key), key, k) == WithKey([s[0]], key, k) + (WithKey(rest, key, k) + tail);
      WithKeyConcat([s[0]], rest, key, k);
      assert WithKey(s, key, k) == WithKey([s[0]], key, k) + WithKey(rest, key, k);
      ConcatAssoc(WithKey([s[0]], key, k), WithKey(rest, key, k), tail);
    }
  }

  lemma ConcatAssoc<T>(a: seq<T>, b: seq<T>, c: seq<T>)
    ensures a + (b + c) == (a + b) + c
  {
  }

  lemma InsertInFront<T(!new)>(x: T, s: seq<T>, key: T -> int, k: int)
    requires SortedBy(s, key) && s != [] && key(x) < key(s[0])
    ensures WithKey([x] + s, key, k) == WithKey(s, key, k) + (if key(x) == k then [x] else [])
  {
    WithKeySingleton(x, key, k);
    WithKeyConcat([x], s, key, k);
    if key(x) == k {
      assert forall i :: 0 <= i < |s| ==> key(s[0]) <= key(s[i]);
      WithKeyNone(s, key, k);
    }
  }

  /**
    The sort is stable: for every key, the elements with that key come out in
    the order they went in.
   */
  lemma {:induction false} SortByIsStable<T(!new)>(s: seq<T>, key: T -> int, k: int)
    ensures WithKey(SortBy(s, key), key, k) == WithKey(s, key, k)
  {
    if s != [] {
      var init, last := s[..|s| - 1], s[|s| - 1];
      assert s == init + [last];
      SortByIsStable(init, key, k);
      InsertWithKey(last, SortBy(init, key), key, k);
      WithKeyConcat(init, [last], key, k);
      WithKeySingleton(last, key, k);
    }
  }
}
