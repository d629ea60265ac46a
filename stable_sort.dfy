/**
 * `[...xs].sort(cmp)` for a comparator that compares a pair of integer keys
 * lexicographically.  Array.prototype.sort is stable, so for such a
 * comparator its result is the unique sorted permutation in which elements
 * with equal keys keep their input order; the insertion sort below
 * computes exactly that permutation.
 */
module StableSort {

  /** Lexicographic order on keys. */
  predicate KeyLeq(a: (int, int), b: (int, int))
  {
    a.0 < b.0 || (a.0 == b.0 && a.1 <= b.1)
  }

  ghost predicate SortedBy<T>(s: seq<T>, key: T -> (int, int))
  {
    forall i, j :: 0 <= i < j < |s| ==> KeyLeq(key(s[i]), key(s[j]))
  }

  /** Every element of s has a key at most b. */
  ghost predicate AllAtMost<T>(s: seq<T>, key: T -> (int, int), b: (int, int))
  {
    forall i :: 0 <= i < |s| ==> KeyLeq(key(s[i]), b)
  }

  /** Puts x after every element whose key is at most x's. */
  function Insert<T>(t: seq<T>, x: T, key: T -> (int, int)): (r: seq<T>)
    ensures |r| == |t| + 1
    ensures multiset(r) == multiset(t) + multiset{x}
  {
    if t == [] || KeyLeq(key(t[|t| - 1]), key(x)) then t + [x]
    else
      assert t == t[..|t| - 1] + [t[|t| - 1]];
      Insert(t[..|t| - 1], x, key) + [t[|t| - 1]]
  }

  /** Stable insertion sort: sorts each prefix and inserts the next element. */
  function Sort<T>(s: seq<T>, key: T -> (int, int)): (r: seq<T>)
    ensures |r| == |s|
    ensures multiset(r) == multiset(s)
  {
    if s == [] then []
    else
      assert s == s[..|s| - 1] + [s[|s| - 1]];
      Insert(Sort(s[..|s| - 1], key), s[|s| - 1], key)
  }

  lemma {:induction false} InsertBounded<T>(t: seq<T>, x: T, key: T -> (int, int), b: (int, int))
    requires AllAtMost(t, key, b) && KeyLeq(key(x), b)
    ensures AllAtMost(Insert(t, x, key), key, b)
  {
    var r := Insert(t, x, key);
    forall i | 0 <= i < |r| ensures KeyLeq(key(r[i]), b) {
      assert r[i] in multiset(r);
      assert r[i] in multiset(t) || r[i] == x;
      if r[i] != x {
        assert r[i] in t;
        var k :| 0 <= k < |t| && t[k] == r[i];
      }
    }
  }

  lemma {:induction false} InsertSorted<T>(t: seq<T>, x: T, key: T -> (int, int))
    requires SortedBy(t, key)
    ensures SortedBy(Insert(t, x, key), key)
    decreases |t|
  {
    if t == [] || KeyLeq(key(t[|t| - 1]), key(x)) {
    } else {
      var last := t[|t| - 1];
      var init := t[..|t| - 1];
      InsertSorted(init, x, key);
      assert AllAtMost(init, key, key(last));
      InsertBounded(init, x, key, key(last));
    }
  }

  /** The result is ordered by key. */
  lemma {:induction false} SortSorted<T>(s: seq<T>, key: T -> (int, int))
    ensures SortedBy(Sort(s, key), key)
    decreases |s|
  {
    if s != [] {
      SortSorted(s[..|s| - 1], key);
      InsertSorted(Sort(s[..|s| - 1], key), s[|s| - 1], key);
    }
  }

  /** Sorting an already ordered sequence leaves it as it is: the sort is stable. */
  lemma {:induction false} SortOfSorted<T>(s: seq<T>, key: T -> (int, int))
    requires SortedBy(s, key)
    ensures Sort(s, key) == s
    decreases |s|
  {
    if s != [] {
      var init := s[..|s| - 1];
      var last := s[|s| - 1];
      assert SortedBy(init, key) by {
        forall i, j | 0 <= i < j < |init| ensures KeyLeq(key(init[i]), key(init[j])) {
          assert init[i] == s[i] && init[j] == s[j];
        }
      }
      SortOfSorted(init, key);
      assert Sort(s, key) == Insert(init, last, key);
      if init != [] {
        assert init[|init| - 1] == s[|s| - 2];
        assert KeyLeq(key(init[|init| - 1]), key(last));
      }
      assert Insert(init, last, key) == init + [last];
      assert s == init + [last];
    }
  }
}
