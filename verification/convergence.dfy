/** The adaptive convergence controller: fixed-size batches are appended
    until the cumulative mean of `result` settles or the iteration cap is
    reached. */
module Convergence {
  import opened Common
  import opened Series
  import opened Aggregation
  import Sampling

  /** The guard added to the denominator of the relative-change test. */
  const Eps: real := 0.000000000001

  /** The stopping test: the change of the cumulative mean, relative to the
      previous mean, is below `tol`. */
  predicate Settled(cur: real, prev: real, tol: real) {
    Abs(cur - prev) / (Abs(prev) + Eps) < tol
  }

  /** The random source of an adaptive run: `rng(b, j, c, i)` is what numpy
      returns as the i-th number of call `c` for variable j in batch b. */
  type BatchRng = (nat, nat, Sampling.Draw, nat) -> real

  function BatchStream(rng: BatchRng, b: nat): Rng {
    (j: nat, c: Sampling.Draw, i: nat) => rng(b, j, c, i)
  }

  /** The rows batch b would produce (batches counted from 0). */
  type Batches = nat -> seq<Trial>

  /** Every batch holds exactly `chunk` rows. */
  ghost predicate Sized(batch: Batches, chunk: nat) {
    forall b :: |batch(b)| == chunk
  }

  /** The batches of an adaptive run: batch b is a fixed-size run of
      `chunk` trials drawing from the b-th slice of the random source. */
  function BatchesOf(vars: seq<VariableSpec>, chunk: nat, rng: BatchRng): (batch: Batches)
    requires Precheck(vars).None?
    ensures Sized(batch, chunk)
  {
    (b: nat) => RunSimulation(vars, chunk, BatchStream(rng, b)).value.rows
  }

  /** The rows of the first k batches, in the order they were run. */
  function Accumulated(batch: Batches, chunk: nat, k: nat): (rows: seq<Trial>)
    requires Sized(batch, chunk)
    ensures |rows| == k * chunk
  {
    if k == 0 then [] else Accumulated(batch, chunk, k - 1) + batch(k - 1)
  }

  /** The `result` column of some rows. */
  function Results(rows: seq<Trial>): (r: seq<real>)
    ensures |r| == |rows|
    ensures forall i :: 0 <= i < |rows| ==> r[i] == rows[i].result
  {
    seq(|rows|, i requires 0 <= i < |rows| => rows[i].result)
  }

  /** The mean of `result` over every row of the first k batches. */
  function CumMean(batch: Batches, chunk: nat, k: nat): real
    requires Sized(batch, chunk) && k >= 1 && chunk >= 1
  {
    Mean(Results(Accumulated(batch, chunk, k)))
  }

  /** The controller stops after batch k when enough trials have run, a
      previous mean exists, and the mean has settled. */
  predicate StopsAfter(batch: Batches, tol: real, minIter: int, chunk: nat, k: nat)
    requires Sized(batch, chunk) && k >= 1 && chunk >= 1
  {
    k >= 2 && k * chunk >= minIter
    && Settled(CumMean(batch, chunk, k), CumMean(batch, chunk, k - 1), tol)
  }

  /** The cumulative means recorded after each of the first k batches. */
  function MeansOf(batch: Batches, chunk: nat, k: nat): (ms: seq<real>)
    requires Sized(batch, chunk) && chunk >= 1
    ensures |ms| == k
  {
    if k == 0 then [] else MeansOf(batch, chunk, k - 1) + [CumMean(batch, chunk, k)]
  }

  /** The stopping test fails after each of the first k batches. */
  predicate RunsOn(batch: Batches, tol: real, minIter: int, chunk: nat, k: nat)
    requires Sized(batch, chunk) && chunk >= 1
  {
    k == 0 || (RunsOn(batch, tol, minIter, chunk, k - 1) && !StopsAfter(batch, tol, minIter, chunk, k))
  }

  lemma {:induction false} MeansOfAt(batch: Batches, chunk: nat, k: nat)
    requires Sized(batch, chunk) && chunk >= 1
    ensures forall b :: 0 <= b < k ==> MeansOf(batch, chunk, k)[b] == CumMean(batch, chunk, b + 1)
  {
    if k > 0 {
      MeansOfAt(batch, chunk, k - 1);
    }
  }

  lemma {:induction false} RunsOnAll(batch: Batches, tol: real, minIter: int, chunk: nat, k: nat)
    requires Sized(batch, chunk) && chunk >= 1
    requires RunsOn(batch, tol, minIter, chunk, k)
    ensures forall m :: 1 <= m <= k ==> !StopsAfter(batch, tol, minIter, chunk, m)
  {
    if k > 0 {
      RunsOnAll(batch, tol, minIter, chunk, k - 1);
    }
  }

  /** One turn of the loop: appending batch k to the first k batches gives
      the first k+1, the new mean extends the recorded means, and the stop
      test after batch k+1 reads the new and the previous mean. */
  lemma {:induction false} Step(batch: Batches, tol: real, minIter: int, chunk: nat, k: nat, acc: seq<Trial>, means: seq<real>)
    requires Sized(batch, chunk) && chunk >= 1
    requires acc == Accumulated(batch, chunk, k) && means == MeansOf(batch, chunk, k)
    ensures acc + batch(k) == Accumulated(batch, chunk, k + 1)
    ensures |acc + batch(k)| == k * chunk + chunk
    ensures means + [Mean(Results(acc + batch(k)))] == MeansOf(batch, chunk, k + 1)
    ensures StopsAfter(batch, tol, minIter, chunk, k + 1) <==>
      k >= 1 && k * chunk + chunk >= minIter && Settled(Mean(Results(acc + batch(k))), means[k - 1], tol)
  {
    assert (k + 1) * chunk == k * chunk + chunk;
    if k >= 1 {
      MeansOfAt(batch, chunk, k);
    }
  }

  /** The batch loop over a source of fixed-size batches: run a batch,
      append it, record the cumulative mean, and stop once at least
      `minIter` trials ran and the mean settled against the previous one, or
      once `maxIter` trials are reached. The cap is checked only after a
      whole batch, so the final count can overshoot it by less than one
      batch. */
  method Drive(batch: Batches, tol: real, minIter: int, maxIter: int, chunk: nat)
    returns (acc: seq<Trial>, means: seq<real>)
    requires Sized(batch, chunk) && chunk >= 1 && maxIter > 0
    ensures |means| >= 1 && acc == Accumulated(batch, chunk, |means|)
    ensures |acc| < maxIter + chunk
    ensures forall b :: 0 <= b < |means| ==> means[b] == CumMean(batch, chunk, b + 1)
    ensures forall m :: 1 <= m < |means| ==> !StopsAfter(batch, tol, minIter, chunk, m)
    ensures |acc| >= maxIter || StopsAfter(batch, tol, minIter, chunk, |means|)
    ensures |means| == 1 ==> chunk >= maxIter
  {
    acc := [];
    means := [];
    var prev: Option<real> := None;
    var nDone: int := 0;
    while nDone < maxIter
      invariant |acc| == nDone
      invariant |means| == 0 ==> nDone == 0
      invariant |means| > 0 ==> chunk <= nDone < maxIter + chunk
      invariant |means| == 1 ==> nDone == chunk
      invariant acc == Accumulated(batch, chunk, |means|)
      invariant means == MeansOf(batch, chunk, |means|)
      invariant RunsOn(batch, tol, minIter, chunk, |means|)
      invariant prev == if |means| == 0 then None else Some(means[|means| - 1])
      decreases maxIter - nDone
    {
      Step(batch, tol, minIter, chunk, |means|, acc, means);
      acc := acc + batch(|means|);
      nDone := nDone + chunk;
      var cur := Mean(Results(acc));
      means := means + [cur];
      if nDone >= minIter && prev.Some? && Settled(cur, prev.value, tol) {
        break;
      }
      prev := Some(cur);
    }
    MeansOfAt(batch, chunk, |means|);
    RunsOnAll(batch, tol, minIter, chunk, |means| - 1);
  }

  /** The accumulated table and the cumulative mean recorded after each
      batch. */
  datatype Run = Run(table: Table, means: seq<real>)

  /** The adaptive run. With no batch to run (`maxIter <= 0`) there is
      nothing to concatenate; otherwise the first batch fails exactly when a
      fixed-size run fails, so that error is reported before any loop turn.
      A zero batch size is admitted only where the run ends in such an
      error; otherwise the source never leaves its loop. */
  method AutoConvergence(vars: seq<VariableSpec>, tol: real, minIter: int, maxIter: int, chunk: nat, rng: BatchRng)
    returns (r: Result<Run>)
    requires chunk > 0 || maxIter <= 0 || Precheck(vars).Some?
    ensures maxIter <= 0 ==> r == Err(NothingToConcatenate)
    ensures maxIter > 0 && Precheck(vars).Some? ==> r == Err(Precheck(vars).value)
    ensures maxIter > 0 && Precheck(vars).None? ==> r.Ok?
    ensures r.Ok? ==> Precheck(vars).None? && |r.value.means| >= 1 && r.value.table.names == Names(vars)
    ensures r.Ok? ==> |r.value.table.rows| == |r.value.means| * chunk < maxIter + chunk
    ensures r.Ok? ==> var batch, k := BatchesOf(vars, chunk, rng), |r.value.means|;
      && r.value.table.rows == Accumulated(batch, chunk, k)
      && (forall b :: 0 <= b < k ==> r.value.means[b] == CumMean(batch, chunk, b + 1))
      && (forall m :: 1 <= m < k ==> !StopsAfter(batch, tol, minIter, chunk, m))
      && (k * chunk >= maxIter || StopsAfter(batch, tol, minIter, chunk, k))
    ensures r.Ok? && |r.value.means| == 1 ==> chunk >= maxIter
  {
    if maxIter <= 0 {
      return Err(NothingToConcatenate);
    }
    match Precheck(vars)
    case Some(e) =>
      r := Err(e);
    case None =>
      var batch := BatchesOf(vars, chunk, rng);
      var acc, means := Drive(batch, tol, minIter, maxIter, chunk);
      r := Ok(Run(Table(Names(vars), acc), means));
  }
}
