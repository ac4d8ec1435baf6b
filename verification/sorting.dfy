/** Sorting by a real-valued key, the one ordering concept the engine needs:
    percentiles read outcomes in ascending order and the sensitivity ranking
    reads coefficients in descending order of magnitude. No tie order is
    promised, matching numpy's and pandas' default (unstable) sorts. */
module Sorting {

  /** Keys never decrease from left to right. */
  ghost predicate Ascending<T>(s: seq<T>, key: T -> real) {
    forall i, j :: 0 <= i < j < |s| ==> key(s[i]) <= key(s[j])
  }

  /** Places `x` in front of the first element whose key is not smaller. */
  function Insert<T>(x: T, s: seq<T>, key: T -> real): (r: seq<T>)
    requires Ascending(s, key)
    ensures multiset(r) == multiset(s) + multiset{x}
    ensures Ascending(r, key)
    decreases |s|
  {
    if |s| == 0 then [x]
    else if key(x) <= key(s[0]) then [x] + s
    else
      var rest := Insert(x, s[1..], key);
      assert s == [s[0]] + s[1..];
      LowerBound(rest, s[1..], x, key, key(s[0]));
      [s[0]] + rest
  }

  /** A bound below the keys of `s` and of `x` bounds every key of a
      sequence holding exactly those elements. */
  lemma LowerBound<T>(r: seq<T>, s: seq<T>, x: T, key: T -> real, b: real)
    requires multiset(r) == multiset(s) + multiset{x}
    requires b <= key(x) && forall k :: 0 <= k < |s| ==> b <= key(s[k])
    ensures forall k :: 0 <= k < |r| ==> b <= key(r[k])
  {
    forall k | 0 <= k < |r| ensures b <= key(r[k]) {
      assert r[k] in multiset(r);
      if r[k] != x {
        assert r[k] in multiset(s);
        var m :| 0 <= m < |s| && s[m] == r[k];
      }
    }
  }

  /** Insertion sort: a permutation of `s` in ascending key order. */
  function SortBy<T>(s: seq<T>, key: T -> real): (r: seq<T>)
    ensures multiset(r) == multiset(s)
    ensures Ascending(r, key)
    decreases |s|
  {
    if |s| == 0 then []
    else
      assert s == [s[0]] + s[1..];
      Insert(s[0], SortBy(s[1..], key), key)
  }

  /** A permutation has the same length as the sequence it permutes. */
  lemma PermutationLength<T>(a: seq<T>, b: seq<T>)
    requires multiset(a) == multiset(b)
    ensures |a| == |b|
  {
    assert |multiset(a)| == |a| && |multiset(b)| == |b|;
  }
}
