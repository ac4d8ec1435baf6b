/** The distribution sampler: dispatch on the distribution label, the numpy
    call each kind issues, and the clamp applied to normal draws.

    numpy's random generator is not modelled. A `Stream` stands for it: the
    value `stream(c, i)` is the i-th number numpy returns for the call `c`.
    Only what the engine itself does to those numbers is stated exactly. */
module Sampling {
  import opened Common

  /** The three distribution kinds the engine knows. */
  datatype Dist = Uniform | Normal | Triangular

  /** The label of each kind as the source spells it: 균등 (uniform),
      정규 (normal) and 삼각 (triangular). */
  function Label(d: Dist): string {
    match d
    case Uniform => "\U{ADE0}\U{B4F1}"
    case Normal => "\U{C815}\U{ADDC}"
    case Triangular => "\U{C0BC}\U{AC01}"
  }

  /** Lower-casing of one character. Only the ASCII letters are mapped; the
      Hangul syllables of the labels have no case. */
  function LowerChar(c: char): (r: char)
    ensures 'A' <= c <= 'Z' ==> 'a' <= r <= 'z'
    ensures !('A' <= c <= 'Z') ==> r == c
  {
    if 'A' <= c <= 'Z' then (c as int + 32) as char else c
  }

  function Lower(s: string): (r: string)
    ensures |r| == |s|
    ensures forall i :: 0 <= i < |s| ==> r[i] == LowerChar(s[i])
  {
    seq(|s|, i requires 0 <= i < |s| => LowerChar(s[i]))
  }

  /** The kind a label names after lower-casing, or `None` for any other
      label (the source then raises "unknown distribution"). */
  function ParseDist(kind: string): (r: Option<Dist>)
    ensures r.Some? ==> Lower(kind) == Label(r.value)
    ensures r.None? ==> forall d: Dist :: Lower(kind) != Label(d)
  {
    var k := Lower(kind);
    if k == Label(Uniform) then Some(Uniform)
    else if k == Label(Normal) then Some(Normal)
    else if k == Label(Triangular) then Some(Triangular)
    else None
  }

  /** Lower-casing leaves the Hangul labels unchanged, so a label is
      recognised exactly when it is spelled as the source spells it. */
  lemma ParseDistExact(kind: string, d: Dist)
    ensures ParseDist(kind) == Some(d) <==> kind == Label(d)
  {
    var l := Label(d);
    assert Lower(l) == l by {
      forall i | 0 <= i < |l| ensures Lower(l)[i] == l[i] {
        assert !('A' <= l[i] <= 'Z');
      }
    }
    if ParseDist(kind) == Some(d) {
      assert |kind| == |l|;
      forall i | 0 <= i < |kind| ensures kind[i] == l[i] {
        assert LowerChar(kind[i]) == l[i];
        assert !('a' <= l[i] <= 'z');
      }
    }
  }

  /** One numpy sampling call with the parameters the engine derives from
      the variable's bounds. */
  datatype Draw =
    | UniformDraw(low: real, high: real, size: nat)
    | NormalDraw(loc: real, scale: real, size: nat)
    | TriangularDraw(left: real, mode: real, right: real, size: nat)

  /** The call issued for kind `d` over [lo, hi]: the normal one is centred
      on the midpoint with three standard deviations reaching each bound,
      and the triangular one peaks at the midpoint. */
  function Call(d: Dist, lo: real, hi: real, n: nat): (c: Draw)
    ensures c.size == n
    ensures d == Uniform ==> c.UniformDraw? && c.low == lo && c.high == hi
    ensures d == Normal ==> c.NormalDraw? && c.loc - 3.0 * c.scale == lo && c.loc + 3.0 * c.scale == hi
    ensures d == Triangular ==>
      c.TriangularDraw? && c.left == lo && c.right == hi && c.mode - lo == hi - c.mode
  {
    match d
    case Uniform => UniformDraw(lo, hi, n)
    case Normal => NormalDraw((lo + hi) / 2.0, (hi - lo) / 6.0, n)
    case Triangular => TriangularDraw(lo, (lo + hi) / 2.0, hi, n)
  }

  /** numpy's own argument checks: a normal scale must not be negative and a
      triangular call needs left <= mode <= right with left != right. */
  predicate Accepts(c: Draw) {
    match c
    case UniformDraw(_, _, _) => true
    case NormalDraw(_, scale, _) => scale >= 0.0
    case TriangularDraw(left, mode, right, _) => left <= mode <= right && left != right
  }

  type Stream = (Draw, nat) -> real

  /** The numbers numpy hands back for call `c`. */
  function Draws(c: Draw, stream: Stream): (r: seq<real>)
    ensures |r| == c.size
    ensures forall i :: 0 <= i < |r| ==> r[i] == stream(c, i)
  {
    seq(c.size, i requires 0 <= i < c.size => stream(c, i))
  }

  /** numpy's `clip`: the smaller of `hi` and the larger of `x` and `lo`. */
  function ClipOne(x: real, lo: real, hi: real): real {
    var up := if x < lo then lo else x;
    if up > hi then hi else up
  }

  /** Clamps every value into [lo, hi]: values inside are kept, values below
      become `lo`, values above become `hi`. */
  function Clip(xs: seq<real>, lo: real, hi: real): (r: seq<real>)
    ensures |r| == |xs|
    ensures lo <= hi ==> forall i :: 0 <= i < |r| ==> lo <= r[i] <= hi
    ensures forall i :: 0 <= i < |r| && lo <= xs[i] <= hi ==> r[i] == xs[i]
    ensures forall i :: 0 <= i < |r| && xs[i] < lo && lo <= hi ==> r[i] == lo
    ensures forall i :: 0 <= i < |r| && hi < xs[i] ==> r[i] == hi
  {
    seq(|xs|, i requires 0 <= i < |xs| => ClipOne(xs[i], lo, hi))
  }

  /** Why sampling `kind` over [lo, hi] fails, if it does. */
  function SampleError(kind: string, lo: real, hi: real): Option<SimError> {
    match ParseDist(kind)
    case None => Some(UnknownDistribution(Lower(kind)))
    case Some(d) => if Accepts(Call(d, lo, hi, 0)) then None else Some(RejectedParameters(kind))
  }

  /** `n` samples of the distribution labelled `kind` over [lo, hi]. */
  function Sample(kind: string, lo: real, hi: real, n: nat, stream: Stream): (r: Result<seq<real>>)
    ensures ParseDist(kind).None? ==> r == Err(UnknownDistribution(Lower(kind)))
    ensures r.Err? ==> r.error in {UnknownDistribution(Lower(kind)), RejectedParameters(kind)}
    ensures ParseDist(kind).Some? && lo < hi ==> r.Ok?
    ensures ParseDist(kind) == Some(Uniform) ==> r.Ok?
    ensures ParseDist(kind) == Some(Normal) ==> (r.Ok? <==> lo <= hi)
    ensures ParseDist(kind) == Some(Triangular) ==> (r.Ok? <==> lo < hi)
    ensures r.Ok? ==> |r.value| == n
    ensures r.Ok? && ParseDist(kind) == Some(Normal) ==>
      forall i :: 0 <= i < n ==> lo <= r.value[i] <= hi
    ensures r.Ok? && ParseDist(kind) == Some(Normal) ==>
      r.value == Clip(Draws(Call(Normal, lo, hi, n), stream), lo, hi)
    ensures r.Ok? && ParseDist(kind) != Some(Normal) ==>
      r.value == Draws(Call(ParseDist(kind).value, lo, hi, n), stream)
    ensures r.Err? <==> SampleError(kind, lo, hi).Some?
  {
    match SampleError(kind, lo, hi)
    case Some(e) => Err(e)
    case None =>
      var d := ParseDist(kind).value;
      var raw := Draws(Call(d, lo, hi, n), stream);
      if d == Normal then Ok(Clip(raw, lo, hi)) else Ok(raw)
  }
}
