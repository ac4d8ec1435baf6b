/** The trial aggregator: one sampled column per variable and a `result`
    column holding each row's weighted sum under normalised weights. */
module Aggregation {
  import opened Common
  import opened Series
  import Sampling

  /** One input variable. A weight of `None` is a definition without a
      weight entry. */
  datatype VariableSpec = VariableSpec(name: string, minVal: real, maxVal: real, dist: string, weight: Option<real>)

  /** One row of the outcome table: the variables' values in the order the
      variables were given, and the weighted result. */
  datatype Trial = Trial(values: seq<real>, result: real)

  /** The outcome table: one column per variable name plus `result`. */
  datatype Table = Table(names: seq<string>, rows: seq<Trial>)

  /** The name of the outcome column. */
  const ResultColumn: string := "result"

  /** The table's column names in order: the variables', then `result`. */
  function Columns(t: Table): seq<string> {
    t.names + [ResultColumn]
  }

  /** The random source of one run: `rng(j, c, i)` is the i-th number numpy
      returns for call `c` made while sampling the j-th variable. */
  type Rng = (nat, Sampling.Draw, nat) -> real

  /** The stream the j-th variable's sampling call reads. */
  function StreamOf(rng: Rng, j: nat): Sampling.Stream {
    (c: Sampling.Draw, i: nat) => rng(j, c, i)
  }

  /** A variable's weight; a missing weight counts as 1.0. */
  function WeightOf(v: VariableSpec): (w: real)
    ensures v.weight.None? ==> w == 1.0
    ensures v.weight.Some? ==> w == v.weight.value
  {
    match v.weight
    case Some(w) => w
    case None => 1.0
  }

  function Weights(vars: seq<VariableSpec>): (ws: seq<real>)
    ensures |ws| == |vars|
    ensures forall j :: 0 <= j < |vars| ==> ws[j] == WeightOf(vars[j])
  {
    seq(|vars|, j requires 0 <= j < |vars| => WeightOf(vars[j]))
  }

  function Names(vars: seq<VariableSpec>): (ns: seq<string>)
    ensures |ns| == |vars|
    ensures forall j :: 0 <= j < |vars| ==> ns[j] == vars[j].name
  {
    seq(|vars|, j requires 0 <= j < |vars| => vars[j].name)
  }

  /** Each weight divided by the weight total: the result sums to one and
      keeps every weight's share of the total. */
  function Normalize(ws: seq<real>): (r: seq<real>)
    requires Sum(ws) != 0.0
    ensures |r| == |ws|
    ensures Sum(r) == 1.0
    ensures forall j :: 0 <= j < |ws| ==> r[j] == ws[j] / Sum(ws)
  {
    var t := Sum(ws);
    SumScale(ws, 1.0 / t);
    Scale(ws, 1.0 / t)
  }

  /** A row's result: its values dotted with the normalised weights. */
  function Outcome(values: seq<real>, ws: seq<real>): real
    requires |values| == |ws| && Sum(ws) != 0.0
  {
    Dot(values, Normalize(ws))
  }

  /** The first error of the list from position k on, if any. */
  function FirstError(errs: seq<Option<SimError>>, k: nat): (e: Option<SimError>)
    requires k <= |errs|
    ensures e.None? <==> forall j :: k <= j < |errs| ==> errs[j].None?
    decreases |errs| - k
  {
    if k == |errs| then None
    else if errs[k].Some? then errs[k]
    else FirstError(errs, k + 1)
  }

  /** A reported error is the first one from position k on. */
  lemma {:induction false} FirstErrorSpec(errs: seq<Option<SimError>>, k: nat)
    requires k <= |errs|
    ensures var e := FirstError(errs, k);
            e.Some? ==> exists j :: k <= j < |errs| && errs[j] == e
                                    && (forall m :: k <= m < j ==> errs[m].None?)
    decreases |errs| - k
  {
    if k < |errs| && errs[k].None? {
      FirstErrorSpec(errs, k + 1);
      var e := FirstError(errs, k + 1);
      if e.Some? {
        var j :| k + 1 <= j < |errs| && errs[j] == e
                 && (forall m :: k + 1 <= m < j ==> errs[m].None?);
        assert forall m :: k <= m < j ==> errs[m].None?;
      }
    }
  }

  /** Each variable's sampling error, if its sampling call would fail. */
  function SampleErrors(vars: seq<VariableSpec>): (errs: seq<Option<SimError>>)
    ensures |errs| == |vars|
    ensures forall j :: 0 <= j < |vars| ==> errs[j] == VarError(vars[j])
  {
    seq(|vars|, j requires 0 <= j < |vars| => VarError(vars[j]))
  }

  function VarError(v: VariableSpec): Option<SimError> {
    Sampling.SampleError(v.dist, v.minVal, v.maxVal)
  }

  /** What stops a run before any table exists: the first variable that
      cannot be sampled, an empty variable list, or a zero weight total. */
  function Precheck(vars: seq<VariableSpec>): Option<SimError> {
    match FirstError(SampleErrors(vars), 0)
    case Some(e) => Some(e)
    case None =>
      if |vars| == 0 then Some(NoVariables)
      else if Sum(Weights(vars)) == 0.0 then Some(ZeroWeightSum)
      else None
  }

  /** The sampled column of the j-th variable. */
  function Column(vars: seq<VariableSpec>, n: nat, rng: Rng, j: nat): (col: seq<real>)
    requires j < |vars| && VarError(vars[j]).None?
    ensures |col| == n
  {
    var v := vars[j];
    Sampling.Sample(v.dist, v.minVal, v.maxVal, n, StreamOf(rng, j)).value
  }

  /** The i-th row: the i-th value of every column. */
  function Row(vars: seq<VariableSpec>, n: nat, rng: Rng, i: nat): (t: Trial)
    requires Precheck(vars).None? && i < n
    ensures |t.values| == |vars|
  {
    var values := seq(|vars|, j requires 0 <= j < |vars| => Column(vars, n, rng, j)[i]);
    Trial(values, Outcome(values, Weights(vars)))
  }

  /** One fixed-size run of `n` trials. */
  function RunSimulation(vars: seq<VariableSpec>, n: nat, rng: Rng): (r: Result<Table>)
    ensures r.Err? <==> Precheck(vars).Some?
    ensures r.Err? ==> r.error == Precheck(vars).value
    ensures r.Ok? ==> |vars| > 0 && Sum(Weights(vars)) != 0.0
    ensures r.Ok? ==> r.value.names == Names(vars) && |r.value.rows| == n
  {
    match Precheck(vars)
    case Some(e) => Err(e)
    case None => Ok(Table(Names(vars), Rows(vars, n, rng)))
  }

  /** The n rows of a run. */
  function Rows(vars: seq<VariableSpec>, n: nat, rng: Rng): (rows: seq<Trial>)
    requires Precheck(vars).None?
    ensures |rows| == n
    ensures forall i :: 0 <= i < n ==> rows[i] == Row(vars, n, rng, i)
  {
    seq(n, i requires 0 <= i < n => Row(vars, n, rng, i))
  }

  /** Row i of a run holds the i-th sample of every variable, in the order
      the variables were given, and their normalised weighted sum. */
  lemma {:induction false} RunSimulationRows(vars: seq<VariableSpec>, n: nat, rng: Rng, i: nat)
    requires RunSimulation(vars, n, rng).Ok? && i < n
    ensures Precheck(vars).None?
    ensures var t := RunSimulation(vars, n, rng).value.rows[i];
      && |t.values| == |vars|
      && (forall j :: 0 <= j < |vars| ==>
            var v := vars[j];
            var col := Sampling.Sample(v.dist, v.minVal, v.maxVal, n, StreamOf(rng, j));
            col.Ok? && |col.value| == n && t.values[j] == col.value[i])
      && t.result == Dot(t.values, Normalize(Weights(vars)))
  {
    var t := RunSimulation(vars, n, rng).value.rows[i];
    assert RunSimulation(vars, n, rng).value.rows == Rows(vars, n, rng);
    assert t == Row(vars, n, rng, i);
  }

  /** The variable with its weight multiplied by `c`, nothing else changed. */
  function ScaleWeight(v: VariableSpec, c: real): (r: VariableSpec)
    ensures WeightOf(r) == WeightOf(v) * c
    ensures r.name == v.name && r.dist == v.dist && r.minVal == v.minVal && r.maxVal == v.maxVal
  {
    v.(weight := Some(WeightOf(v) * c))
  }

  function ScaleWeights(vars: seq<VariableSpec>, c: real): (r: seq<VariableSpec>)
    ensures |r| == |vars|
    ensures forall j :: 0 <= j < |vars| ==> r[j] == ScaleWeight(vars[j], c)
  {
    seq(|vars|, j requires 0 <= j < |vars| => ScaleWeight(vars[j], c))
  }

  lemma {:induction false} SumPositive(ws: seq<real>)
    requires |ws| > 0
    requires forall j :: 0 <= j < |ws| ==> ws[j] > 0.0
    ensures Sum(ws) > 0.0
    decreases |ws|
  {
    if |ws| > 1 {
      SumPositive(ws[..|ws| - 1]);
    }
  }

  /** Scaling all weights by a positive constant leaves the normalised
      weights unchanged. */
  lemma NormalizeScaleInvariant(ws: seq<real>, c: real)
    requires Sum(ws) != 0.0 && c > 0.0
    ensures Sum(Scale(ws, c)) != 0.0
    ensures Normalize(Scale(ws, c)) == Normalize(ws)
  {
    var t, sw := Sum(ws), Scale(ws, c);
    SumScale(ws, c);
    Reciprocal(c, t);
    var k := 1.0 / (c * t);
    assert Normalize(sw) == Scale(sw, 1.0 / Sum(sw));
    assert 1.0 / Sum(sw) == k;
    assert Normalize(sw) == Scale(sw, k);
    ScaleTwice(ws, c, k);
    assert Normalize(ws) == Scale(ws, 1.0 / t);
    assert c * k == 1.0 / t;
  }

  /** Scaling by c and then by 1/(c*t) is scaling by 1/t. */
  lemma Reciprocal(c: real, t: real)
    requires c > 0.0 && t != 0.0
    ensures c * t != 0.0
    ensures c * (1.0 / (c * t)) == 1.0 / t
  {
    NonZeroProduct(c, t);
    var u := 1.0 / t;
    assert u * t == 1.0;
    assert (u / c) * (c * t) == 1.0;
  }

  lemma NonZeroProduct(c: real, t: real)
    requires c > 0.0 && t != 0.0
    ensures c * t != 0.0
  {
    if t > 0.0 {
      MulMono(0.0, t, c);
    } else {
      MulMono(t, 0.0, c);
    }
  }


  /** Scaling every variable's weight by a positive constant produces the
      same table, `result` column included, or the same error. */
  lemma {:induction false} RunSimulationScaleInvariant(vars: seq<VariableSpec>, n: nat, rng: Rng, c: real)
    requires c > 0.0
    ensures RunSimulation(ScaleWeights(vars, c), n, rng) == RunSimulation(vars, n, rng)
  {
    var svars := ScaleWeights(vars, c);
    PrecheckScaleInvariant(vars, c);
    if Precheck(vars).None? {
      assert Names(svars) == Names(vars);
      var a, b := Rows(svars, n, rng), Rows(vars, n, rng);
      forall i | 0 <= i < n ensures a[i] == b[i] {
        RowScaleInvariant(vars, n, rng, c, i);
      }
      assert a == b;
    }
  }

  lemma {:induction false} PrecheckScaleInvariant(vars: seq<VariableSpec>, c: real)
    requires c > 0.0
    ensures Precheck(ScaleWeights(vars, c)) == Precheck(vars)
    ensures Weights(ScaleWeights(vars, c)) == Scale(Weights(vars), c)
  {
    var svars := ScaleWeights(vars, c);
    WeightsScale(vars, c);
    forall j | 0 <= j < |vars| ensures SampleErrors(svars)[j] == SampleErrors(vars)[j] {
      VarErrorScale(vars[j], c);
    }
    assert SampleErrors(svars) == SampleErrors(vars);
    ZeroTotalScale(vars, c);
    assert |svars| == |vars|;
  }

  /** Scaling the weights by a positive constant keeps a zero total zero and
      a non-zero total non-zero. */
  lemma ZeroTotalScale(vars: seq<VariableSpec>, c: real)
    requires c > 0.0
    ensures Sum(Weights(ScaleWeights(vars, c))) == 0.0 <==> Sum(Weights(vars)) == 0.0
  {
    WeightsScale(vars, c);
    SumScale(Weights(vars), c);
    NonZeroScale(Sum(Weights(vars)), c);
  }

  lemma VarErrorScale(v: VariableSpec, c: real)
    ensures VarError(ScaleWeight(v, c)) == VarError(v)
  {
    var w := ScaleWeight(v, c);
    assert w.dist == v.dist && w.minVal == v.minVal && w.maxVal == v.maxVal;
  }

  lemma WeightsScale(vars: seq<VariableSpec>, c: real)
    ensures Weights(ScaleWeights(vars, c)) == Scale(Weights(vars), c)
  {
    var svars := ScaleWeights(vars, c);
    forall j | 0 <= j < |vars| ensures Weights(svars)[j] == Scale(Weights(vars), c)[j] {
      assert WeightOf(svars[j]) == WeightOf(vars[j]) * c;
    }
  }

  lemma NonZeroScale(t: real, c: real)
    requires c > 0.0
    ensures t * c == 0.0 <==> t == 0.0
    ensures c * t == 0.0 <==> t == 0.0
  {
    if t != 0.0 {
      NonZeroProduct(c, t);
    }
  }

  lemma {:induction false} RowScaleInvariant(vars: seq<VariableSpec>, n: nat, rng: Rng, c: real, i: nat)
    requires c > 0.0 && Precheck(vars).None? && i < n
    ensures Precheck(ScaleWeights(vars, c)).None?
    ensures Row(ScaleWeights(vars, c), n, rng, i) == Row(vars, n, rng, i)
  {
    var svars := ScaleWeights(vars, c);
    PrecheckScaleInvariant(vars, c);
    NormalizeScaleInvariant(Weights(vars), c);
    var a := Row(svars, n, rng, i).values;
    var b := Row(vars, n, rng, i).values;
    forall j | 0 <= j < |vars| ensures a[j] == b[j] {
      assert Column(svars, n, rng, j) == Column(vars, n, rng, j);
    }
    assert a == b;
  }

  /** With positive weights a row's result is a convex combination of its
      values, so it lies between their minimum and maximum. */
  lemma {:induction false} ConvexCombination(values: seq<real>, ws: seq<real>)
    requires |values| == |ws| > 0
    requires forall j :: 0 <= j < |ws| ==> ws[j] > 0.0
    ensures Sum(ws) > 0.0
    ensures Min(values) <= Outcome(values, ws) <= Max(values)
  {
    SumPositive(ws);
    var nw := Normalize(ws);
    forall j | 0 <= j < |nw| ensures 0.0 <= nw[j] {
      assert nw[j] == ws[j] / Sum(ws);
    }
    DotBounds(values, nw, Min(values), Max(values));
  }

  /** Every row of a run with positive weights has its result between the
      smallest and largest of its variable values. */
  lemma {:induction false} RowResultsAreConvex(vars: seq<VariableSpec>, n: nat, rng: Rng)
    requires RunSimulation(vars, n, rng).Ok?
    requires forall j :: 0 <= j < |vars| ==> WeightOf(vars[j]) > 0.0
    ensures forall i :: 0 <= i < n ==>
      var t := RunSimulation(vars, n, rng).value.rows[i];
      |t.values| == |vars| && Min(t.values) <= t.result <= Max(t.values)
  {
    var rows := RunSimulation(vars, n, rng).value.rows;
    forall i | 0 <= i < n
      ensures |rows[i].values| == |vars| && Min(rows[i].values) <= rows[i].result <= Max(rows[i].values)
    {
      RunSimulationRows(vars, n, rng, i);
      ConvexCombination(rows[i].values, Weights(vars));
    }
  }

  /** Equal weighting: when every variable carries the same non-zero
      weight (in particular when none is given, which counts as 1.0), a
      row's result is the plain mean of its values. */
  lemma EqualWeightsMean(vars: seq<VariableSpec>, values: seq<real>)
    requires |vars| > 0 && |values| == |vars|
    requires WeightOf(vars[0]) != 0.0
    requires forall j :: 0 <= j < |vars| ==> WeightOf(vars[j]) == WeightOf(vars[0])
    ensures Sum(Weights(vars)) != 0.0
    ensures Outcome(values, Weights(vars)) == Mean(values)
  {
    var ws := Weights(vars);
    assert forall j :: 0 <= j < |ws| ==> ws[j] == WeightOf(vars[0]);
    NormalizeEqual(ws, WeightOf(vars[0]));
    var n := |vars| as real;
    var nw := Normalize(ws);
    DotConstant(values, nw, 1.0 / n);
    ReciprocalTimes(Sum(values), n);
  }

  /** Equal non-zero weights normalise to 1/n each. */
  lemma NormalizeEqual(ws: seq<real>, w: real)
    requires |ws| > 0 && w != 0.0
    requires forall j :: 0 <= j < |ws| ==> ws[j] == w
    ensures Sum(ws) != 0.0
    ensures forall j :: 0 <= j < |ws| ==> Normalize(ws)[j] == 1.0 / |ws| as real
  {
    var n := |ws| as real;
    SumConstant(ws, w);
    NonZeroProduct(n, w);
    ShareOfEqual(w, n);
  }

  lemma ReciprocalTimes(x: real, n: real)
    requires n != 0.0
    ensures (1.0 / n) * x == x / n
  {
  }

  /** One of n equal non-zero weights is 1/n of their total. */
  lemma ShareOfEqual(w: real, n: real)
    requires w != 0.0 && n > 0.0
    ensures w / (n * w) == 1.0 / n
  {
    NonZeroProduct(n, w);
    assert (w / (n * w)) * (n * w) == w;
    assert (1.0 / n) * (n * w) == w;
  }

  /** Two variables with weight 1.0 or none: values 10 and 20 give 15. */
  lemma EqualWeightsAverage(a: VariableSpec, b: VariableSpec)
    requires a.weight in {None, Some(1.0)} && b.weight in {None, Some(1.0)}
    ensures Weights([a, b]) == [1.0, 1.0]
    ensures Sum(Weights([a, b])) == 2.0
    ensures Outcome([10.0, 20.0], Weights([a, b])) == 15.0
  {
    assert Weights([a, b]) == [1.0, 1.0];
    SumPair(1.0, 1.0);
    EqualWeightsMean([a, b], [10.0, 20.0]);
    SumPair(10.0, 20.0);
  }

  lemma SumPair(x: real, y: real)
    ensures Sum([x, y]) == x + y
  {
    assert [x, y][..1] == [x];
    assert [x][..0] == [];
    assert Sum([x]) == Sum([]) + x;
    assert Sum([x, y]) == Sum([x]) + y;
  }

  /** The bounds and labels the caller validates guarantee a table: known
      labels, min < max and positive weights never fail. */
  lemma {:induction false} RunSimulationSucceeds(vars: seq<VariableSpec>, n: nat, rng: Rng)
    requires |vars| > 0
    requires forall j :: 0 <= j < |vars| ==>
      Sampling.ParseDist(vars[j].dist).Some? && vars[j].minVal < vars[j].maxVal && WeightOf(vars[j]) > 0.0
    ensures RunSimulation(vars, n, rng).Ok?
  {
    forall j | 0 <= j < |vars| ensures VarError(vars[j]).None? {
      var v := vars[j];
      var r := Sampling.Sample(v.dist, v.minVal, v.maxVal, 0, StreamOf(rng, j));
      assert r.Ok?;
    }
    SumPositive(Weights(vars));
  }

  /** A variable with an unrecognised label means no table at all. */
  lemma {:induction false} UnknownLabelFails(vars: seq<VariableSpec>, n: nat, rng: Rng, j: nat)
    requires j < |vars| && Sampling.ParseDist(vars[j].dist).None?
    ensures RunSimulation(vars, n, rng).Err?
    ensures RunSimulation(vars, n, rng).error.UnknownDistribution?
            || RunSimulation(vars, n, rng).error.RejectedParameters?
  {
    assert VarError(vars[j]).Some?;
    var errs := SampleErrors(vars);
    FirstErrorSpec(errs, 0);
    var e := FirstError(errs, 0);
    var k :| 0 <= k < |errs| && errs[k] == e;
  }
}
