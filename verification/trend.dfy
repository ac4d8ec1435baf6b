/** Running-mean trend of a completed `result` column: the mean of the first
    k outcomes, in trial order, at evenly spaced counts k. */
module Trend {
  import opened Common
  import opened Series

  /** The first count of the trend; later counts run evenly to the total. */
  const FirstCount: nat := 100

  function MinInt(a: int, b: int): int {
    if a <= b then a else b
  }

  function MaxInt(a: int, b: int): int {
    if a <= b then b else a
  }

  /** The point a fraction t of the way from a to b lies between them. */
  lemma FractionBetween(a: int, b: int, t: real)
    requires 0.0 <= t <= 1.0
    ensures MinInt(a, b) as real <= a as real + t * (b - a) as real <= MaxInt(a, b) as real
  {
    if a <= b {
      MulMono(0.0, t, (b - a) as real);
      MulMono(t, 1.0, (b - a) as real);
    } else {
      MulMono(0.0, t, (a - b) as real);
      MulMono(t, 1.0, (a - b) as real);
      assert t * (b - a) as real == -(t * (a - b) as real);
    }
  }

  /** The k-th of `num` counts spaced evenly from `start` to `stop`, truncated
      to a whole number: numpy's `linspace(start, stop, num, dtype=int)`,
      whose first point is `start` and whose last (when there are at least
      two) is exactly `stop`. */
  function Point(start: nat, stop: nat, num: nat, k: nat): (p: nat)
    requires k < num
    ensures MinInt(start, stop) <= p <= MaxInt(start, stop)
  {
    if k == 0 then start
    else if k == num - 1 then stop
    else
      var t := k as real / (num - 1) as real;
      FractionBetween(start, stop, t);
      (start as real + t * (stop - start) as real).Floor
  }

  function Linspace(start: nat, stop: nat, num: nat): (r: seq<nat>)
    ensures |r| == num
    ensures forall k :: 0 <= k < num ==> r[k] == Point(start, stop, num, k)
    ensures num > 0 ==> r[0] == start
    ensures num > 1 ==> r[num - 1] == stop
  {
    seq(num, k requires 0 <= k < num => Point(start, stop, num, k))
  }

  /** The counts at which `calc_running_mean` samples the trend. */
  function Counts(total: nat, nPoints: nat): seq<nat> {
    Linspace(FirstCount, total, nPoints)
  }

  /** The mean of the first `i` outcomes (all of them when `i` exceeds the
      total, as a slice does); `None` stands for numpy's NaN mean of an
      empty slice. */
  function PrefixMean(results: seq<real>, i: nat): (m: Option<real>)
    ensures m.None? <==> i == 0 || |results| == 0
  {
    var k := if i <= |results| then i else |results|;
    if k == 0 then None else Some(Mean(results[..k]))
  }

  /** All prefix sums, computed in one pass. */
  method PrefixSums(s: seq<real>) returns (ps: seq<real>)
    ensures |ps| == |s| + 1
    ensures forall k :: 0 <= k <= |s| ==> ps[k] == Sum(s[..k])
  {
    ps := [0.0];
    var total := 0.0;
    var i := 0;
    assert s[..0] == [];
    while i < |s|
      invariant 0 <= i <= |s|
      invariant |ps| == i + 1
      invariant total == Sum(s[..i])
      invariant forall k :: 0 <= k <= i ==> ps[k] == Sum(s[..k])
    {
      SumPrefixStep(s, i);
      total := total + s[i];
      ps := ps + [total];
      i := i + 1;
    }
  }

  /** `calc_running_mean`: the sampled counts and the mean of the outcomes
      up to each of them, computed from prefix sums rather than by
      re-summing each prefix. */
  method RunningMean(results: seq<real>, nPoints: nat) returns (counts: seq<nat>, means: seq<Option<real>>)
    ensures counts == Counts(|results|, nPoints)
    ensures |means| == |counts| == nPoints
    ensures forall j :: 0 <= j < |counts| ==> means[j] == PrefixMean(results, counts[j])
  {
    counts := Counts(|results|, nPoints);
    var sums := PrefixSums(results);
    means := [];
    var j := 0;
    while j < |counts|
      invariant 0 <= j <= |counts|
      invariant |means| == j
      invariant forall i :: 0 <= i < j ==> means[i] == PrefixMean(results, counts[i])
    {
      var k := if counts[j] <= |results| then counts[j] else |results|;
      var m := if k == 0 then None else Some(sums[k] / k as real);
      means := means + [m];
      j := j + 1;
    }
  }

  /** With at least the first count of outcomes the counts never decrease;
      with fewer they all lie between the total and the first count. */
  lemma CountsOrdered(total: nat, nPoints: nat, j: nat, k: nat)
    requires j < k < nPoints
    ensures FirstCount <= total ==> Counts(total, nPoints)[j] <= Counts(total, nPoints)[k]
    ensures total <= Counts(total, nPoints)[j] <= FirstCount || FirstCount <= total
  {
    if FirstCount <= total {
      PointMonotone(FirstCount, total, nPoints, j, k);
    }
  }

  lemma PointMonotone(start: nat, stop: nat, num: nat, j: nat, k: nat)
    requires start <= stop && j < k < num
    ensures Point(start, stop, num, j) <= Point(start, stop, num, k)
  {
    if j > 0 && k < num - 1 {
      var d := (num - 1) as real;
      var tj, tk := j as real / d, k as real / d;
      DivideMonotone(j as real, k as real, d);
      MulMono(tj, tk, (stop - start) as real);
    }
  }

  lemma DivideMonotone(a: real, b: real, d: real)
    requires a <= b && d > 0.0
    ensures a / d <= b / d
  {
    assert b / d - a / d == (b - a) / d;
  }

  /** The last point of the trend is the mean of the whole run. */
  lemma TrendEndsAtMean(results: seq<real>, nPoints: nat)
    requires |results| > 0 && nPoints > 1
    ensures PrefixMean(results, Counts(|results|, nPoints)[nPoints - 1]) == Some(Mean(results))
  {
    assert results[..|results|] == results;
  }

  /** A run shorter than the first count has a flat trend: every point is
      the overall mean, because every count reaches past the end. */
  lemma ShortRunIsFlat(results: seq<real>, nPoints: nat, j: nat)
    requires 0 < |results| < FirstCount && j < nPoints
    ensures PrefixMean(results, Counts(|results|, nPoints)[j]) == Some(Mean(results))
  {
    assert results[..|results|] == results;
  }

  /** Every point of the trend lies between the smallest and the largest
      outcome. */
  lemma PrefixMeanBounds(results: seq<real>, i: nat)
    requires PrefixMean(results, i).Some?
    ensures Min(results) <= PrefixMean(results, i).value <= Max(results)
  {
    var k := if i <= |results| then i else |results|;
    var p := results[..k];
    MeanBounds(p);
    assert Min(p) in results && Max(p) in results;
  }
}
