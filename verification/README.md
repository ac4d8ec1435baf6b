# Monte Carlo decision engine — a Dafny model

This project models the engine of a Monte Carlo "insight simulator"
(`simulation.py`). A user describes input variables: a name, a range
`[min, max]`, a distribution label (균등 uniform, 정규 normal, 삼각
triangular) and an optional weight. The engine then does six things:

- it draws samples for every variable;
- it combines each trial's values into one `result`, the dot product of the
  values with the weights normalised by their total;
- it can repeat whole runs in fixed-size batches until the cumulative mean
  of `result` settles;
- it summarises the `result` column (5th and 95th percentile, mean, median,
  spread);
- it extracts a running-mean trend at evenly spaced counts;
- it ranks the variables by the magnitude of their correlation with
  `result`.

Everything is modelled over exact reals. numpy's random generator is an
uninterpreted function parameter. A sampling call is recorded as a `Draw`
value carrying the exact parameters the engine passes to numpy, and the
numbers numpy returns for that call are `stream(draw, i)`. The engine's own
arithmetic on those numbers is stated exactly: the clamp, the weighting, the
means, the percentiles and the stopping rule.

Modules, one per part of the engine:

- `Common`: the `Option`/`Result` wrappers and the error kinds.
- `Series`: sums, means, dot products and their bounds.
- `Sorting`: an insertion sort by a real key.
- `Sampling`: `sample_distribution`.
- `Aggregation`: `run_simulation`.
- `Convergence`: `auto_convergence`.
- `Statistics`: `calc_confidence_interval`.
- `Trend`: `calc_running_mean`.
- `Sensitivity`: `sensitivity_analysis`.

## Model

| member | source | states |
|---|---|---|
| `Sampling.ParseDist` | simulation.py:13-25 | After lower-casing, a label selects uniform, normal or triangular exactly when it equals that kind's label. Any other label selects nothing. |
| `Sampling.ParseDistExact` | simulation.py:13-24 | Lower-casing never changes the Hangul labels, so a label is recognised exactly when it is spelled as in the source. |
| `Sampling.Call` | simulation.py:14-23 | The numpy call per kind. Uniform uses `[min, max]`. Normal puts min and max exactly three standard deviations either side of the mean. Triangular uses left = min, right = max and the mode at the midpoint. |
| `Sampling.Clip` | simulation.py:20 | `np.clip`. Values inside `[lo, hi]` are kept, values below become `lo`, values above become `hi`, so every output is in bounds. |
| `Sampling.Sample` | simulation.py:11-25 | An unknown label fails with the lower-cased label. Uniform never fails. Normal succeeds iff `min <= max` and triangular iff `min < max` (numpy's argument checks). Output has length n. Normal output is the clamped draws and lies in `[min, max]`. The other kinds return numpy's draws unchanged. |
| `Aggregation.WeightOf` | simulation.py:45 | A variable without a weight counts with weight 1.0; otherwise its own weight is used. |
| `Aggregation.Normalize` | simulation.py:46 | With a non-zero total, the normalised weights sum to exactly 1, and each one is its weight divided by the total. |
| `Aggregation.FirstError` | simulation.py:37-40 | Scanning the variables in order reports no error iff every variable from the start position on can be sampled. |
| `Aggregation.FirstErrorSpec` | simulation.py:37-40 | A reported error is the error of the first variable that cannot be sampled; every variable before it succeeds. |
| `Aggregation.RunSimulation` | simulation.py:31-50 | A run fails iff the pre-check reports a first sampling error, an empty variable list or a zero weight total, and it reports that error. Otherwise the table has the variables' names in order and n rows. |
| `Aggregation.RunSimulationRows` | simulation.py:37-48 | Row i holds, for every variable in the order given, the i-th value of that variable's successful `sample_distribution` call. Its `result` is those values dotted with the normalised weights. |
| `Aggregation.NormalizeScaleInvariant` | simulation.py:45-46 | Multiplying every weight by the same positive constant leaves the normalised weights unchanged. |
| `Aggregation.PrecheckScaleInvariant` | simulation.py:37-46 | Multiplying every weight by a positive constant changes neither the failure outcome nor its error. The weights list is scaled element by element. |
| `Aggregation.RunSimulationScaleInvariant` | simulation.py:31-50 | Multiplying every weight by a positive constant gives the same result, the whole table or the same error. |
| `Aggregation.ConvexCombination` | simulation.py:46-48 | With positive weights, a row's result lies between the smallest and the largest of its values. |
| `Aggregation.RowResultsAreConvex` | simulation.py:31-50 | Every row of a run with positive weights has its result between the minimum and maximum of that row's values. |
| `Aggregation.NormalizeEqual` | simulation.py:46 | n equal non-zero weights have a non-zero total and each normalises to exactly 1/n. |
| `Aggregation.EqualWeightsMean` | simulation.py:44-48 | When every variable carries the same non-zero weight, including when none gives a weight (each counts as 1.0), a row's result is the plain mean of its values, for any number of variables and any values. |
| `Aggregation.EqualWeightsAverage` | simulation.py:44-48 | The worked instance: two variables with weight 1.0 or no weight have weights [1.0, 1.0] with total 2, and values 10 and 20 produce exactly 15. |
| `Aggregation.RunSimulationSucceeds` | simulation.py:31-50 | Known labels, `min < max` and positive weights always produce a table. |
| `Aggregation.UnknownLabelFails` | simulation.py:24-25 | One variable with an unrecognised label makes the whole run fail with a sampling error. |
| `Convergence.Accumulated` | simulation.py:73-75 | After k batches the accumulated rows number exactly k times the batch size. |
| `Convergence.Step` | simulation.py:72-83 | One loop turn appends the new batch to the accumulated rows and records the mean over all of them. The stop test after that batch reads the new mean and the previous one, and needs a previous mean and enough trials. |
| `Convergence.Drive` | simulation.py:67-85 | The batch loop always runs at least one batch, and its trial count stays below `max_iter + chunk`. Each recorded mean is over all rows accumulated so far. No earlier batch satisfied the stop rule, and the loop ended at the cap or by the rule. It never stops by the rule after the first batch. |
| `Convergence.AutoConvergence` | simulation.py:56-85 | `max_iter <= 0` fails because there is nothing to concatenate. Otherwise a failing fixed-size run fails the same way. On success the table has `chunk` times as many rows as recorded means, below `max_iter + chunk`, and carries the loop's guarantees about each mean, no earlier stop, and ending at the cap or by the rule. |
| `Statistics.SortedValues` | simulation.py:94-97 | The sorted copy percentiles read from is a permutation of the outcomes and is ascending. |
| `Statistics.InterpolateBetween` | simulation.py:94-95 | A linear-interpolation percentile lies between the two sorted neighbours of its virtual index. |
| `Statistics.PercentileBounds` | simulation.py:94-95 | Every percentile lies between the smallest and the largest outcome. |
| `Statistics.PercentileOrder` | simulation.py:94-95 | Percentiles never decrease as q grows, so p5 never exceeds p95. |
| `Statistics.InterpolateOrder` | simulation.py:94-95 | On ascending data, the linearly interpolated percentile never decreases as q grows. |
| `Statistics.InterpolateMiddle` | simulation.py:97 | The 50th percentile of sorted data is the middle value, or the mean of the two middle values. |
| `Statistics.MedianIsPercentile50` | simulation.py:94-97 | numpy's median equals the 50th percentile under the same interpolation. |
| `Statistics.VarianceNonNegative` | simulation.py:98 | The population variance behind `std` is never negative. |
| `Statistics.ConfidenceInterval` | simulation.py:91-99 | Empty input has no summary, and any non-empty input has one. The summary holds the 5th and 95th linear percentiles, the mean, numpy's median and the population variance of the outcomes. They satisfy `min <= p5 <= median <= p95 <= max` and `min <= mean <= max`, the median is the 50th percentile, and the variance is non-negative. |
| `Statistics.SortedUnique` | simulation.py:94-97 | Two ascending arrangements of the same outcomes are identical, so the sorted order percentiles read is well defined. |
| `Statistics.RangeCentre` | simulation.py:96-97 | For the outcomes 1, 2, ..., n, the mean and the median are both (n+1)/2. |
| `Series.MeanBounds` | simulation.py:96 | The mean lies between the smallest and the largest value. |
| `Trend.Point` | simulation.py:108 | Every integer `linspace` point lies between the start and the stop, whichever order they are in. |
| `Trend.Linspace` | simulation.py:108 | There are `n_points` counts. The first is the start and, with at least two points, the last is exactly the total. |
| `Trend.PrefixMean` | simulation.py:109 | The mean over the first `min(i, total)` outcomes is undefined exactly when that prefix is empty. |
| `Trend.PrefixSums` | simulation.py:109 | One pass produces the sum of every prefix. |
| `Trend.RunningMean` | simulation.py:105-110 | Returns the `linspace` counts and, per count, the mean of the outcomes up to it, computed from prefix sums. |
| `Trend.CountsOrdered` | simulation.py:108 | With at least 100 outcomes the counts never decrease. With fewer, every count lies between the total and 100. |
| `Trend.PointMonotone` | simulation.py:108 | An ascending `linspace` with truncation to integers stays ascending. |
| `Trend.TrendEndsAtMean` | simulation.py:107-109 | With at least two points, the last count is the total, so the last point of the trend is the mean of the whole run. |
| `Trend.ShortRunIsFlat` | simulation.py:107-109 | With fewer than 100 outcomes every count reaches past the end, so every point is the overall mean. |
| `Trend.PrefixMeanBounds` | simulation.py:109 | Every defined point of the trend lies between the smallest and the largest outcome. |
| `Sensitivity.InputColumns` | simulation.py:121 | A column is an input column iff it is a table column other than the target. |
| `Sensitivity.Coefficients` | simulation.py:122 | Each input column is paired with its own coefficient, in column order. |
| `Sensitivity.Rank` | simulation.py:121-123 | For a target that is one of the columns, the ranking is a permutation of the (column, coefficient) pairs of the input columns, ordered by non-increasing absolute coefficient. |
| `Sensitivity.RankMembers` | simulation.py:121-123 | A pair is ranked iff its name is an input column and its coefficient is that column's own coefficient. |
| `Sensitivity.RankLength` | simulation.py:121-123 | The ranking has one entry per input column. |
| `Sensitivity.RankHeadIsStrongest` | simulation.py:123 | The first ranked entry has the largest magnitude of all input columns. |
| `Sensitivity.InputColumnsOfTable` | simulation.py:121 | When no variable is itself named `result`, dropping the `result` column gives back the variable names in order. |
| `Sensitivity.RankTable` | simulation.py:116-123 | On a run's table, the ranking is a permutation of the variables' (name, coefficient) pairs, by non-increasing magnitude. |

## Left out

- The presentation layer (`app.py`) and scenario storage (`scenarios.py`) are not part of this model. They do I/O and rendering only.
- numpy's random number generation is out of scope and stays an uninterpreted stream. Nothing is claimed about the distribution of the draws. Only the call parameters and what the engine does with the returned numbers are modelled.
- Floating point is out of scope: all arithmetic is exact real arithmetic. This includes the `1e-12` guard of the stopping test, the rounding inside `np.linspace`, and the sums behind `mean` and `percentile`.
- `Statistics.ConfidenceInterval`: reports the population variance instead of `std`, because the square root is not modelled.
- Pearson correlation (`corrwith`) is not modelled; the coefficients are an input function of the column name. A constant column gives NaN in pandas; the model has no NaN coefficients, and pandas' placement of NaN at the end of the ranking is not modelled.
- `Sensitivity.Rank`: no tie order is claimed. pandas' default sort is not stable, so entries of equal magnitude may come in any order.
- `Sensitivity.Rank`: requires the target to be one of the columns, as do `Sensitivity.RankMembers`, `Sensitivity.RankLength` and `Sensitivity.RankHeadIsStrongest`. A missing target makes `df[target]` raise `KeyError` in the source, and that error path is not modelled. A run's table always has its `result` column, so `Sensitivity.RankTable` meets this requirement.
- `Aggregation.RunSimulation`: a zero weight total is an error. In the source, dividing by a zero total gives non-finite weights (NaN, or ±inf when non-zero weights cancel), so every `result` is NaN or ±inf. An adaptive run would then never pass the stopping test and would run to the cap, whereas the model reports the error at once.
- `Convergence.AutoConvergence`: requires `chunk > 0` unless `max_iter <= 0` or the pre-check fails. The source loops forever when `chunk == 0`, `max_iter > 0` and the variable list passes the pre-check, because `n_done` never grows. With a zero weight total it also loops, since its NaN means never settle. The model reports `ZeroWeightSum` instead, as for every other zero total. In the remaining `chunk == 0` cases the source raises in the first batch or at the final concatenation, and the model returns that error.
- `Sampling.Sample`: the sample count `n` is a `nat`, so negative counts, which `np.random.uniform`/`normal`/`triangular` reject with an error, are not modelled.
- `Aggregation.RunSimulation`: the trial count `n` is a `nat`, so the error numpy raises for a negative count while sampling is not modelled.
- `Convergence.AutoConvergence`: `chunk` is a `nat`, so a negative `chunk` is not modelled. With `max_iter > 0` it makes the first batch fail in numpy.
- `Trend.RunningMean`: `n_points` is a `nat`, so the error `np.linspace` raises for a negative count is not modelled.
- Duplicate variable names are not modelled: pandas would keep one column per name. A variable named `result` is also not modelled: its column would be overwritten by the result.
- `Sampling.LowerChar`: lower-cases ASCII letters only, where Python lower-cases every cased character. Recognition of the Hangul labels is unaffected (`Sampling.ParseDistExact`). Only the text of the unknown-label error can differ for other non-ASCII labels.
- Behaviour a reader may not expect, modelled as the code does it:
  - Triangular sampling with `min == max` fails, because numpy's `triangular` requires left and right to differ. Normal sampling with `min == max` succeeds with a zero standard deviation.
  - The trend's counts always start at 100, even when there are fewer outcomes. The means are then taken over the whole run, because a slice stops at the end.
