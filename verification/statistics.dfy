/** Summary statistics over a completed `result` column: the 5th and 95th
    percentiles, mean, median and (population) variance. Percentiles follow
    numpy's default linear interpolation over the sorted values. */
module Statistics {
  import opened Common
  import opened Series
  import Sorting

  /** The sort key of an outcome: the value itself. */
  function Value(x: real): real {
    x
  }

  /** The values in ascending order. */
  function SortedValues(xs: seq<real>): (s: seq<real>)
    ensures multiset(s) == multiset(xs) && |s| == |xs|
    ensures Sorting.Ascending(s, Value)
  {
    var s := Sorting.SortBy(xs, Value);
    Sorting.PermutationLength(s, xs);
    s
  }

  /** The virtual index (n-1)*q/100 of the q-th percentile among n sorted
      values. */
  function Position(n: nat, q: real): (h: real)
    requires n > 0 && 0.0 <= q <= 100.0
    ensures 0.0 <= h <= (n - 1) as real
  {
    var w := (n - 1) as real;
    MulMono(0.0, q, w);
    MulMono(q, 100.0, w);
    assert 0.0 <= w * q <= 100.0 * w;
    w * q / 100.0
  }

  /** The largest index not above the non-negative position h. */
  function Below(h: real, n: nat): (lo: nat)
    requires 0.0 <= h <= (n - 1) as real
    ensures lo < n || n == 0
    ensures lo as real <= h < lo as real + 1.0
  {
    h.Floor
  }

  /** The index just above `lo`, clipped to the last index. */
  function Above(lo: nat, n: nat): (hi: nat)
    requires lo < n
    ensures lo <= hi < n
    ensures lo + 1 < n ==> hi == lo + 1
  {
    if lo + 1 < n then lo + 1 else n - 1
  }

  /** numpy's linear percentile of sorted data: the value at the virtual
      index `Position`, interpolated between its two neighbouring values. */
  function Interpolate(s: seq<real>, q: real): real
    requires |s| > 0 && 0.0 <= q <= 100.0
  {
    var h := Position(|s|, q);
    var lo := Below(h, |s|);
    var hi := Above(lo, |s|);
    Lerp(s[lo], s[hi], h - lo as real)
  }

  /** Linear interpolation from a to b by the fraction g. */
  function Lerp(a: real, b: real, g: real): real {
    a + g * (b - a)
  }

  lemma LerpBetween(a: real, b: real, g: real)
    requires a <= b && 0.0 <= g <= 1.0
    ensures a <= Lerp(a, b, g) <= b
  {
    MulMono(0.0, g, b - a);
    MulMono(g, 1.0, b - a);
  }

  lemma LerpMonotone(a: real, b: real, g1: real, g2: real)
    requires a <= b && g1 <= g2
    ensures Lerp(a, b, g1) <= Lerp(a, b, g2)
  {
    MulMono(g1, g2, b - a);
  }

  /** `Below` is the unique index k with k <= h < k + 1. */
  lemma BelowExact(h: real, n: nat, k: nat)
    requires 0.0 <= h <= (n - 1) as real
    requires k as real <= h < k as real + 1.0
    ensures Below(h, n) == k
  {
  }

  /** The q-th percentile of the values. */
  function Percentile(xs: seq<real>, q: real): real
    requires |xs| > 0 && 0.0 <= q <= 100.0
  {
    Interpolate(SortedValues(xs), q)
  }

  /** numpy's median: the middle value of the sorted data, or the mean of
      the two middle values when their number is even. */
  function Median(xs: seq<real>): real
    requires |xs| > 0
  {
    var s := SortedValues(xs);
    var m := |s| / 2;
    if |s| % 2 == 1 then s[m] else (s[m - 1] + s[m]) / 2.0
  }

  /** The squared deviations from the mean. */
  function SquaredDeviations(xs: seq<real>): (d: seq<real>)
    requires |xs| > 0
    ensures |d| == |xs|
    ensures forall i :: 0 <= i < |xs| ==> d[i] == (xs[i] - Mean(xs)) * (xs[i] - Mean(xs))
  {
    var mu := Mean(xs);
    seq(|xs|, i requires 0 <= i < |xs| => (xs[i] - mu) * (xs[i] - mu))
  }

  /** Population variance (divides by N); numpy's `std` is its square
      root. */
  function Variance(xs: seq<real>): real
    requires |xs| > 0
  {
    Mean(SquaredDeviations(xs))
  }

  datatype Summary = Summary(p5: real, p95: real, mean: real, median: real, variance: real)

  /** The summary of a `result` column; an empty column has none. */
  function ConfidenceInterval(results: seq<real>): (r: Result<Summary>)
    ensures r == Err(EmptyInput) <==> |results| == 0
    ensures r.Ok? <==> |results| > 0
    ensures r.Ok? ==> r.value.p5 == Percentile(results, 5.0) && r.value.p95 == Percentile(results, 95.0)
    ensures r.Ok? ==> r.value.mean == Mean(results) && r.value.variance == Variance(results)
    ensures r.Ok? ==> r.value.median == Median(results)
    ensures r.Ok? ==> Min(results) <= r.value.p5 <= r.value.median <= r.value.p95 <= Max(results)
    ensures r.Ok? ==> Min(results) <= r.value.mean <= Max(results)
    ensures r.Ok? ==> r.value.median == Percentile(results, 50.0)
    ensures r.Ok? ==> r.value.variance >= 0.0
  {
    if |results| == 0 then Err(EmptyInput)
    else
      var s := Summary(Percentile(results, 5.0), Percentile(results, 95.0), Mean(results),
                       Median(results), Variance(results));
      PercentileOrder(results, 5.0, 50.0);
      PercentileOrder(results, 50.0, 95.0);
      PercentileBounds(results, 5.0);
      PercentileBounds(results, 95.0);
      MedianIsPercentile50(results);
      MeanBounds(results);
      VarianceNonNegative(results);
      Ok(s)
  }

  /** The interpolated value lies between its two neighbours. */
  lemma InterpolateBetween(s: seq<real>, q: real)
    requires |s| > 0 && 0.0 <= q <= 100.0 && Sorting.Ascending(s, Value)
    ensures var lo := Below(Position(|s|, q), |s|);
            s[lo] <= Interpolate(s, q) <= s[Above(lo, |s|)]
  {
    var h := Position(|s|, q);
    var lo := Below(h, |s|);
    var hi := Above(lo, |s|);
    assert s[lo] <= s[hi];
    LerpBetween(s[lo], s[hi], h - lo as real);
  }

  /** The first and last sorted values are the minimum and the maximum. */
  lemma SortedEnds(xs: seq<real>)
    requires |xs| > 0
    ensures SortedValues(xs)[0] == Min(xs)
    ensures SortedValues(xs)[|xs| - 1] == Max(xs)
  {
    var s := SortedValues(xs);
    var n := |s|;
    assert s[0] in multiset(xs) && s[n - 1] in multiset(xs);
    assert s[0] in xs && s[n - 1] in xs;
    assert Min(xs) <= s[0] && s[n - 1] <= Max(xs);
    assert Min(xs) in multiset(s) && Max(xs) in multiset(s);
    var i :| 0 <= i < n && s[i] == Min(xs);
    var j :| 0 <= j < n && s[j] == Max(xs);
    SortedAt(s, 0, i);
    SortedAt(s, j, n - 1);
  }

  /** Every percentile lies between the smallest and the largest value. */
  lemma PercentileBounds(xs: seq<real>, q: real)
    requires |xs| > 0 && 0.0 <= q <= 100.0
    ensures Min(xs) <= Percentile(xs, q) <= Max(xs)
  {
    var s := SortedValues(xs);
    var lo := Below(Position(|s|, q), |s|);
    InterpolateBetween(s, q);
    SortedEnds(xs);
    SortedAt(s, 0, lo);
    SortedAt(s, Above(lo, |s|), |s| - 1);
  }

  /** Percentiles never decrease as q grows. */
  lemma PercentileOrder(xs: seq<real>, q1: real, q2: real)
    requires |xs| > 0 && 0.0 <= q1 <= q2 <= 100.0
    ensures Percentile(xs, q1) <= Percentile(xs, q2)
  {
    InterpolateOrder(SortedValues(xs), q1, q2);
  }

  /** On sorted data the interpolated percentile never decreases with q. */
  lemma InterpolateOrder(s: seq<real>, q1: real, q2: real)
    requires |s| > 0 && 0.0 <= q1 <= q2 <= 100.0 && Sorting.Ascending(s, Value)
    ensures Interpolate(s, q1) <= Interpolate(s, q2)
  {
    var n := |s|;
    var h1, h2 := Position(n, q1), Position(n, q2);
    PositionMonotone(n, q1, q2);
    var lo1, lo2 := Below(h1, n), Below(h2, n);
    BelowMonotone(h1, h2, n);
    InterpolateBetween(s, q1);
    InterpolateBetween(s, q2);
    var hi1 := Above(lo1, n);
    if lo1 == lo2 {
      SortedAt(s, lo1, hi1);
      LerpMonotone(s[lo1], s[hi1], h1 - lo1 as real, h2 - lo2 as real);
    } else {
      SortedAt(s, hi1, lo2);
    }
  }

  /** The index below a position never decreases as the position grows. */
  lemma BelowMonotone(h1: real, h2: real, n: nat)
    requires 0.0 <= h1 <= h2 <= (n - 1) as real
    ensures Below(h1, n) <= Below(h2, n)
  {
  }

  lemma SortedAt(s: seq<real>, i: nat, j: nat)
    requires Sorting.Ascending(s, Value) && i <= j < |s|
    ensures s[i] <= s[j]
  {
    if i < j {
      assert s[i] <= s[j];
    }
  }

  lemma PositionMonotone(n: nat, q1: real, q2: real)
    requires n > 0 && 0.0 <= q1 <= q2 <= 100.0
    ensures Position(n, q1) <= Position(n, q2)
  {
    var w := (n - 1) as real;
    MulMono(q1, q2, w);
    assert w * q1 == q1 * w && w * q2 == q2 * w;
  }

  /** The 50th percentile of sorted data is its middle value, or the mean
      of its two middle values. */
  lemma InterpolateMiddle(s: seq<real>)
    requires |s| > 0
    ensures var m := |s| / 2;
            Interpolate(s, 50.0) == if |s| % 2 == 1 then s[m] else (s[m - 1] + s[m]) / 2.0
  {
    var n := |s|;
    var m := n / 2;
    var h := Position(n, 50.0);
    assert h == (n - 1) as real / 2.0;
    if n % 2 == 1 {
      assert h == m as real;
      BelowExact(h, n, m);
    } else {
      assert h == (m - 1) as real + 0.5;
      BelowExact(h, n, m - 1);
      assert Above(m - 1, n) == m;
    }
  }

  /** numpy's median is the 50th percentile under the same interpolation. */
  lemma MedianIsPercentile50(xs: seq<real>)
    requires |xs| > 0
    ensures Median(xs) == Percentile(xs, 50.0)
  {
    InterpolateMiddle(SortedValues(xs));
  }

  lemma {:induction false} SumNonNegative(s: seq<real>)
    requires forall i :: 0 <= i < |s| ==> s[i] >= 0.0
    ensures Sum(s) >= 0.0
    decreases |s|
  {
    if |s| > 0 {
      SumNonNegative(s[..|s| - 1]);
    }
  }

  /** A variance is never negative. */
  lemma VarianceNonNegative(xs: seq<real>)
    requires |xs| > 0
    ensures Variance(xs) >= 0.0
  {
    var d := SquaredDeviations(xs);
    forall i | 0 <= i < |d| ensures d[i] >= 0.0 {
      var e := xs[i] - Mean(xs);
      assert d[i] == e * e;
    }
    SumNonNegative(d);
  }

  /** The first element of a sorted sequence is the least of its values,
      so two sorted arrangements of the same values start alike. */
  lemma SortedHeads(a: seq<real>, b: seq<real>)
    requires Sorting.Ascending(a, Value) && Sorting.Ascending(b, Value) && multiset(a) == multiset(b) && |a| > 0
    ensures |b| > 0 && a[0] == b[0]
  {
    assert a[0] in multiset(b);
    assert b[0] in multiset(a);
    var i :| 0 <= i < |a| && a[i] == b[0];
    var j :| 0 <= j < |b| && b[j] == a[0];
    SortedAt(a, 0, i);
    SortedAt(b, 0, j);
  }

  lemma TailMultiset(a: seq<real>)
    requires |a| > 0
    ensures multiset(a[1..]) == multiset(a) - multiset{a[0]}
  {
    assert a == [a[0]] + a[1..];
  }

  /** Two sorted arrangements of the same values are the same sequence. */
  lemma {:induction false} SortedUnique(a: seq<real>, b: seq<real>)
    requires Sorting.Ascending(a, Value) && Sorting.Ascending(b, Value) && multiset(a) == multiset(b)
    ensures a == b
    decreases |a|
  {
    if |a| > 0 {
      SortedHeads(a, b);
      TailMultiset(a);
      TailMultiset(b);
      SortedUnique(a[1..], b[1..]);
      assert a == [a[0]] + a[1..] && b == [b[0]] + b[1..];
    } else {
      assert |multiset(b)| == 0;
    }
  }

  /** The values 1, 2, ..., n. */
  function Range(n: nat): (r: seq<real>)
    ensures |r| == n
    ensures forall i :: 0 <= i < n ==> r[i] == (i + 1) as real
  {
    seq(n, i requires 0 <= i < n => (i + 1) as real)
  }

  lemma {:induction false} RangeSum(n: nat)
    ensures 2.0 * Sum(Range(n)) == n as real * (n as real + 1.0)
  {
    if n > 0 {
      var r := Range(n);
      assert r[..n - 1] == Range(n - 1);
      assert Sum(r) == Sum(Range(n - 1)) + n as real;
      RangeSum(n - 1);
      TriangleStep(n as real);
    }
  }

  lemma TriangleStep(x: real)
    ensures (x - 1.0) * x + 2.0 * x == x * (x + 1.0)
  {
  }

  /** For the values 1..n the mean and the median both sit at the centre
      (n+1)/2. */
  lemma RangeCentre(n: nat)
    requires n > 0
    ensures Mean(Range(n)) == (n + 1) as real / 2.0
    ensures Median(Range(n)) == (n + 1) as real / 2.0
  {
    var r := Range(n);
    RangeSum(n);
    assert Sum(r) / n as real == (n + 1) as real / 2.0;
    SortedUnique(SortedValues(r), r);
    var m := n / 2;
    if n % 2 == 1 {
      assert r[m] == (m + 1) as real;
    } else {
      assert r[m - 1] + r[m] == (2 * m + 1) as real;
    }
  }
}
