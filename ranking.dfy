/**
 * Python's `list.sort(key=k, reverse=True)`: a stable sort into
 * non-increasing key order, where elements with equal keys keep their
 * original relative order. Both the knowledge-base search and the mock
 * legal corpus rank their results this way.
 */
module Ranking {

  /** Keys never increase from left to right. */
  predicate NonIncreasing<T>(s: seq<T>, key: T -> real) {
    forall i, j | 0 <= i < j < |s| :: key(s[i]) >= key(s[j])
  }

  /** The elements of `s` whose key is `v`, in their order in `s`. */
  function WithKey<T>(s: seq<T>, key: T -> real, v: real): seq<T> {
    if s == [] then []
    else WithKey(s[..|s| - 1], key, v) + (if key(s[|s| - 1]) == v then [s[|s| - 1]] else [])
  }

  /** `x` placed after every element whose key is at least its own. */
  function InsertDesc<T>(s: seq<T>, x: T, key: T -> real): (r: seq<T>)
    ensures |r| == |s| + 1
    ensures multiset(r) == multiset(s) + multiset{x}
  {
    if s == [] then [x]
    else if key(s[|s| - 1]) >= key(x) then s + [x]
    else
      assert s == s[..|s| - 1] + [s[|s| - 1]];
      InsertDesc(s[..|s| - 1], x, key) + [s[|s| - 1]]
  }

  /** The stable descending sort: each element in turn inserted into the sorted prefix. */
  function SortDesc<T>(s: seq<T>, key: T -> real): (r: seq<T>)
    ensures |r| == |s|
    ensures multiset(r) == multiset(s)
  {
    if s == [] then []
    else
      assert s == s[..|s| - 1] + [s[|s| - 1]];
      InsertDesc(SortDesc(s[..|s| - 1], key), s[|s| - 1], key)
  }

  /** Every key of the insertion's result is bounded below when the keys of its inputs are. */
  lemma InsertDescBound<T>(s: seq<T>, x: T, key: T -> real, b: real)
    requires forall k | 0 <= k < |s| :: key(s[k]) >= b
    requires key(x) >= b
    ensures forall k | 0 <= k < |InsertDesc(s, x, key)| :: key(InsertDesc(s, x, key)[k]) >= b
  {
    var r := InsertDesc(s, x, key);
    forall k | 0 <= k < |r| ensures key(r[k]) >= b {
      assert r[k] in multiset(r);
      if r[k] != x {
        assert r[k] in multiset(s);
        var j :| 0 <= j < |s| && s[j] == r[k];
      }
    }
  }

  /** Appending an element no larger than every key keeps a list non-increasing. */
  lemma AppendSorted<T>(r: seq<T>, last: T, key: T -> real)
    requires NonIncreasing(r, key)
    requires forall k | 0 <= k < |r| :: key(r[k]) >= key(last)
    ensures NonIncreasing(r + [last], key)
  {
  }

  /** Inserting into a non-increasing list keeps it non-increasing. */
  lemma {:induction false} InsertDescSorted<T>(s: seq<T>, x: T, key: T -> real)
    requires NonIncreasing(s, key)
    ensures NonIncreasing(InsertDesc(s, x, key), key)
  {
    if s != [] && key(s[|s| - 1]) < key(x) {
      var init := s[..|s| - 1];
      var last := s[|s| - 1];
      assert NonIncreasing(init, key);
      InsertDescSorted(init, x, key);
      assert forall k | 0 <= k < |init| :: key(init[k]) >= key(last) by {
        forall k | 0 <= k < |init| ensures key(init[k]) >= key(last) {
          assert init[k] == s[k];
        }
      }
      InsertDescBound(init, x, key, key(last));
      AppendSorted(InsertDesc(init, x, key), last, key);
    }
  }

  /** The sort's result is in non-increasing key order. */
  lemma {:induction false} SortDescSorted<T>(s: seq<T>, key: T -> real)
    ensures NonIncreasing(SortDesc(s, key), key)
  {
    if s != [] {
      SortDescSorted(s[..|s| - 1], key);
      InsertDescSorted(SortDesc(s[..|s| - 1], key), s[|s| - 1], key);
    }
  }

  /** Selecting by key distributes over concatenation. */
  lemma {:induction false} WithKeyAppend<T>(a: seq<T>, b: seq<T>, key: T -> real, v: real)
    ensures WithKey(a + b, key, v) == WithKey(a, key, v) + WithKey(b, key, v)
  {
    if b == [] {
      assert a + b == a;
    } else {
      assert (a + b)[..|a + b| - 1] == a + b[..|b| - 1];
      WithKeyAppend(a, b[..|b| - 1], key, v);
    }
  }

  /** Selecting from a one-element list. */
  lemma WithKeySingle<T>(z: T, key: T -> real, v: real)
    ensures WithKey([z], key, v) == if key(z) == v then [z] else []
  {
    assert [z][..0] == [];
  }

  /** Inserting `x` puts it after every element that shares its key. */
  lemma {:induction false} InsertDescWithKey<T>(s: seq<T>, x: T, key: T -> real, v: real)
    ensures WithKey(InsertDesc(s, x, key), key, v) == WithKey(s, key, v) + WithKey([x], key, v)
  {
    if s == [] {
      WithKeySingle(x, key, v);
    } else if key(s[|s| - 1]) >= key(x) {
      WithKeyAppend(s, [x], key, v);
    } else {
      var init := s[..|s| - 1];
      var last := s[|s| - 1];
      InsertDescWithKey(init, x, key, v);
      assert InsertDesc(s, x, key) == InsertDesc(init, x, key) + [last];
      assert init + [last] == s;
      PassLast(InsertDesc(init, x, key), init, x, last, key, v);
    }
  }

  /** Selecting from a list with one more element at the end. */
  lemma WithKeySnoc<T>(s: seq<T>, z: T, key: T -> real, v: real)
    ensures WithKey(s + [z], key, v) == WithKey(s, key, v) + (if key(z) == v then [z] else [])
  {
    assert (s + [z])[..|s + [z]| - 1] == s;
  }

  /** Moving `x` past an element with a smaller key does not reorder elements of equal key. */
  lemma PassLast<T>(r: seq<T>, init: seq<T>, x: T, last: T, key: T -> real, v: real)
    requires key(last) < key(x)
    requires WithKey(r, key, v) == WithKey(init, key, v) + WithKey([x], key, v)
    ensures WithKey(r + [last], key, v) == WithKey(init + [last], key, v) + WithKey([x], key, v)
  {
    WithKeySingle(x, key, v);
    WithKeySnoc(r, last, key, v);
    WithKeySnoc(init, last, key, v);
    if key(last) == v {
      assert WithKey([x], key, v) == [];
    }
  }

  /** Stability: for every key, the elements carrying it appear in the same order before and after sorting. */
  lemma {:induction false} SortDescStable<T>(s: seq<T>, key: T -> real, v: real)
    ensures WithKey(SortDesc(s, key), key, v) == WithKey(s, key, v)
  {
    if s != [] {
      var init := s[..|s| - 1];
      var last := s[|s| - 1];
      assert init + [last] == s;
      calc {
        WithKey(SortDesc(s, key), key, v);
        WithKey(InsertDesc(SortDesc(init, key), last, key), key, v);
        { InsertDescWithKey(SortDesc(init, key), last, key, v); }
        WithKey(SortDesc(init, key), key, v) + WithKey([last], key, v);
        { SortDescStable(init, key, v); }
        WithKey(init, key, v) + WithKey([last], key, v);
        { WithKeyAppend(init, [last], key, v); }
        WithKey(s, key, v);
      }
    }
  }

  /** A list that is already in non-increasing order is left as it is. */
  lemma {:induction false} SortDescSortedUnchanged<T>(s: seq<T>, key: T -> real)
    requires NonIncreasing(s, key)
    ensures SortDesc(s, key) == s
  {
    if s != [] {
      var init := s[..|s| - 1];
      assert NonIncreasing(init, key);
      SortDescSortedUnchanged(init, key);
      if |init| > 0 {
        assert key(init[|init| - 1]) >= key(s[|s| - 1]);
      }
      assert init + [s[|s| - 1]] == s;
    }
  }
}
