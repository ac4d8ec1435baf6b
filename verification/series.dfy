/** Arithmetic over finite sequences of reals: sums, means, extremes and dot
    products, with the facts the engine's contracts rest on. Exact real
    arithmetic stands in for numpy's float64. */
module Series {

  function Abs(x: real): real {
    if x < 0.0 then -x else x
  }

  /** Sum of the elements, peeled from the back so that a prefix sum extends
      by exactly one element. */
  function Sum(s: seq<real>): real
    decreases |s|
  {
    if |s| == 0 then 0.0 else Sum(s[..|s| - 1]) + s[|s| - 1]
  }

  /** Arithmetic mean of a non-empty sequence. */
  function Mean(s: seq<real>): real
    requires |s| > 0
  {
    Sum(s) / |s| as real
  }

  /** Smallest element. */
  function Min(s: seq<real>): (m: real)
    requires |s| > 0
    ensures m in s
    ensures forall i :: 0 <= i < |s| ==> m <= s[i]
    decreases |s|
  {
    if |s| == 1 then s[0]
    else
      var rest := Min(s[1..]);
      assert forall i :: 1 <= i < |s| ==> s[1..][i - 1] == s[i];
      if s[0] <= rest then s[0] else rest
  }

  /** Largest element. */
  function Max(s: seq<real>): (m: real)
    requires |s| > 0
    ensures m in s
    ensures forall i :: 0 <= i < |s| ==> s[i] <= m
    decreases |s|
  {
    if |s| == 1 then s[0]
    else
      var rest := Max(s[1..]);
      assert forall i :: 1 <= i < |s| ==> s[1..][i - 1] == s[i];
      if rest <= s[0] then s[0] else rest
  }

  /** Every element multiplied by `c`. */
  function Scale(s: seq<real>, c: real): (r: seq<real>)
    ensures |r| == |s|
    ensures forall i :: 0 <= i < |s| ==> r[i] == s[i] * c
  {
    seq(|s|, i requires 0 <= i < |s| => s[i] * c)
  }

  /** Inner product of two equally long sequences (numpy's `values @ weights`
      for one row). */
  function Dot(xs: seq<real>, ws: seq<real>): real
    requires |xs| == |ws|
    decreases |xs|
  {
    if |xs| == 0 then 0.0
    else Dot(xs[..|xs| - 1], ws[..|ws| - 1]) + xs[|xs| - 1] * ws[|ws| - 1]
  }

  /** Sum(s[..k+1]) extends Sum(s[..k]) by the element at k. */
  lemma SumPrefixStep(s: seq<real>, k: nat)
    requires k < |s|
    ensures Sum(s[..k + 1]) == Sum(s[..k]) + s[k]
  {
    assert s[..k + 1][..k] == s[..k];
  }

  lemma ScalePrefix(s: seq<real>, c: real)
    requires |s| > 0
    ensures Scale(s, c)[..|s| - 1] == Scale(s[..|s| - 1], c)
  {
    var a := Scale(s, c)[..|s| - 1];
    var b := Scale(s[..|s| - 1], c);
    assert |a| == |b|;
    forall i | 0 <= i < |a| ensures a[i] == b[i] {
      assert a[i] == s[i] * c;
    }
  }

  lemma {:induction false} SumScale(s: seq<real>, c: real)
    ensures Sum(Scale(s, c)) == c * Sum(s)
    decreases |s|
  {
    if |s| > 0 {
      ScalePrefix(s, c);
      SumScale(s[..|s| - 1], c);
    }
  }

  /** A sum of elements that are all at least lo is at least n*lo. */
  lemma {:induction false} SumAtLeast(s: seq<real>, lo: real)
    requires forall i :: 0 <= i < |s| ==> lo <= s[i]
    ensures |s| as real * lo <= Sum(s)
    decreases |s|
  {
    if |s| > 0 {
      var m := |s| - 1;
      SumAtLeast(s[..m], lo);
      assert m as real * lo + lo == |s| as real * lo;
    }
  }

  /** A sum of elements that are all at most hi is at most n*hi. */
  lemma {:induction false} SumAtMost(s: seq<real>, hi: real)
    requires forall i :: 0 <= i < |s| ==> s[i] <= hi
    ensures Sum(s) <= |s| as real * hi
    decreases |s|
  {
    if |s| > 0 {
      var m := |s| - 1;
      SumAtMost(s[..m], hi);
      assert m as real * hi + hi == |s| as real * hi;
    }
  }

  /** A dot product with non-negative weights against values in [lo, hi]
      lies between lo and hi times the weight total. */
  lemma DotBounds(xs: seq<real>, ws: seq<real>, lo: real, hi: real)
    requires |xs| == |ws|
    requires forall i :: 0 <= i < |ws| ==> 0.0 <= ws[i]
    requires forall i :: 0 <= i < |xs| ==> lo <= xs[i] <= hi
    ensures lo * Sum(ws) <= Dot(xs, ws) <= hi * Sum(ws)
  {
    DotAbove(xs, ws, lo);
    DotBelow(xs, ws, hi);
  }

  /** Non-negative weights on values of at least lo dot to at least lo
      times the weight total. */
  lemma {:induction false} DotAbove(xs: seq<real>, ws: seq<real>, lo: real)
    requires |xs| == |ws|
    requires forall i :: 0 <= i < |ws| ==> 0.0 <= ws[i]
    requires forall i :: 0 <= i < |xs| ==> lo <= xs[i]
    ensures lo * Sum(ws) <= Dot(xs, ws)
    decreases |xs|
  {
    if |xs| > 0 {
      var n := |xs| - 1;
      var xp, wp, x, w := xs[..n], ws[..n], xs[n], ws[n];
      DotAbove(xp, wp, lo);
      var d, t := Dot(xp, wp), Sum(wp);
      assert Dot(xs, ws) == d + x * w;
      assert Sum(ws) == t + w;
      MulMono(lo, x, w);
      Distribute(lo, t, w);
    }
  }

  /** Non-negative weights on values of at most hi dot to at most hi times
      the weight total. */
  lemma {:induction false} DotBelow(xs: seq<real>, ws: seq<real>, hi: real)
    requires |xs| == |ws|
    requires forall i :: 0 <= i < |ws| ==> 0.0 <= ws[i]
    requires forall i :: 0 <= i < |xs| ==> xs[i] <= hi
    ensures Dot(xs, ws) <= hi * Sum(ws)
    decreases |xs|
  {
    if |xs| > 0 {
      var n := |xs| - 1;
      var xp, wp, x, w := xs[..n], ws[..n], xs[n], ws[n];
      DotBelow(xp, wp, hi);
      var d, t := Dot(xp, wp), Sum(wp);
      assert Dot(xs, ws) == d + x * w;
      assert Sum(ws) == t + w;
      MulMono(x, hi, w);
      Distribute(hi, t, w);
    }
  }


  /** A sequence of n copies of c sums to n * c. */
  lemma {:induction false} SumConstant(s: seq<real>, c: real)
    requires forall i :: 0 <= i < |s| ==> s[i] == c
    ensures Sum(s) == |s| as real * c
    decreases |s|
  {
    if |s| > 0 {
      SumConstant(s[..|s| - 1], c);
      assert Sum(s) == (|s| - 1) as real * c + c;
    }
  }

  /** Dotting with a constant weight c multiplies the sum by c. */
  lemma {:induction false} DotConstant(xs: seq<real>, ws: seq<real>, c: real)
    requires |xs| == |ws| && forall i :: 0 <= i < |ws| ==> ws[i] == c
    ensures Dot(xs, ws) == c * Sum(xs)
    decreases |xs|
  {
    if |xs| > 0 {
      var xp, wp := xs[..|xs| - 1], ws[..|ws| - 1];
      DotConstant(xp, wp, c);
      Distribute(c, Sum(xp), xs[|xs| - 1]);
    }
  }

  /** Scaling twice is scaling by the product. */
  lemma ScaleTwice(s: seq<real>, a: real, b: real)
    ensures Scale(Scale(s, a), b) == Scale(s, a * b)
  {
    forall i | 0 <= i < |s| ensures Scale(Scale(s, a), b)[i] == Scale(s, a * b)[i] {
      assert (s[i] * a) * b == s[i] * (a * b);
    }
  }

  lemma MulMono(a: real, b: real, w: real)
    requires a <= b && 0.0 <= w
    ensures a * w <= b * w
  {
    assert b * w - a * w == (b - a) * w;
  }

  lemma Distribute(a: real, b: real, c: real)
    ensures a * (b + c) == a * b + a * c
  {
  }

  lemma DivAtLeast(lo: real, x: real, n: real)
    requires n > 0.0 && n * lo <= x
    ensures lo <= x / n
  {
    var q := x / n;
    assert x == q * n;
    assert n * (q - lo) >= 0.0;
  }

  lemma DivAtMost(x: real, hi: real, n: real)
    requires n > 0.0 && x <= n * hi
    ensures x / n <= hi
  {
    var q := x / n;
    assert x == q * n;
    assert n * (hi - q) >= 0.0;
  }


  /** The mean lies between the smallest and the largest element. */
  lemma MeanBounds(s: seq<real>)
    requires |s| > 0
    ensures Min(s) <= Mean(s) <= Max(s)
  {
    MeanAboveMin(s);
    MeanBelowMax(s);
  }

  lemma {:induction false} MeanAboveMin(s: seq<real>)
    requires |s| > 0
    ensures Min(s) <= Mean(s)
  {
    SumAtLeast(s, Min(s));
    DivAtLeast(Min(s), Sum(s), |s| as real);
  }

  lemma {:induction false} MeanBelowMax(s: seq<real>)
    requires |s| > 0
    ensures Mean(s) <= Max(s)
  {
    SumAtMost(s, Max(s));
    DivAtMost(Sum(s), Max(s), |s| as real);
  }
}
