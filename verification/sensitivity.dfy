/** Sensitivity ranking: each input column's correlation with the outcome,
    listed by decreasing magnitude. The correlation coefficients themselves
    (pandas' Pearson `corrwith`) are supplied as a function of the column
    name. */
module Sensitivity {
  import opened Series
  import Sorting
  import Aggregation

  /** The columns other than the target, in table order. */
  function InputColumns(columns: seq<string>, target: string): (r: seq<string>)
    ensures forall c :: c in r <==> c in columns && c != target
    ensures |r| <= |columns|
  {
    if |columns| == 0 then []
    else
      var rest := InputColumns(columns[1..], target);
      assert forall c :: c in columns <==> c == columns[0] || c in columns[1..];
      if columns[0] == target then rest else [columns[0]] + rest
  }

  /** Pairs each column name with its coefficient. */
  function Coefficients(columns: seq<string>, corr: string -> real): (r: seq<(string, real)>)
    ensures |r| == |columns|
    ensures forall i :: 0 <= i < |columns| ==> r[i] == (columns[i], corr(columns[i]))
  {
    seq(|columns|, i requires 0 <= i < |columns| => (columns[i], corr(columns[i])))
  }

  /** Sort key putting the largest magnitude first. */
  function Strength(p: (string, real)): real {
    -Abs(p.1)
  }

  /** `sensitivity_analysis`: every input column with its coefficient,
      ordered by non-increasing absolute coefficient. */
  function Rank(columns: seq<string>, target: string, corr: string -> real): (r: seq<(string, real)>)
    requires target in columns
    ensures multiset(r) == multiset(Coefficients(InputColumns(columns, target), corr))
    ensures forall i, j :: 0 <= i < j < |r| ==> Abs(r[i].1) >= Abs(r[j].1)
  {
    var r := Sorting.SortBy(Coefficients(InputColumns(columns, target), corr), Strength);
    assert forall i, j :: 0 <= i < j < |r| ==> Strength(r[i]) <= Strength(r[j]);
    r
  }

  /** A ranked entry is exactly an input column paired with its own
      coefficient, and every input column is ranked. */
  lemma RankMembers(columns: seq<string>, target: string, corr: string -> real, name: string, c: real)
    requires target in columns
    ensures (name, c) in Rank(columns, target, corr) <==>
            name in columns && name != target && c == corr(name)
  {
    var inputs := InputColumns(columns, target);
    var pairs := Coefficients(inputs, corr);
    var r := Rank(columns, target, corr);
    if (name, c) in r {
      assert (name, c) in multiset(pairs);
      var i :| 0 <= i < |pairs| && pairs[i] == (name, c);
      assert inputs[i] == name;
    }
    if name in columns && name != target && c == corr(name) {
      var i :| 0 <= i < |inputs| && inputs[i] == name;
      assert pairs[i] == (name, c);
      assert (name, c) in multiset(r);
    }
  }

  /** The ranking has one entry per input column. */
  lemma RankLength(columns: seq<string>, target: string, corr: string -> real)
    requires target in columns
    ensures |Rank(columns, target, corr)| == |InputColumns(columns, target)|
  {
    var r := Rank(columns, target, corr);
    Sorting.PermutationLength(r, Coefficients(InputColumns(columns, target), corr));
  }

  /** The first entry has the largest magnitude of all. */
  lemma RankHeadIsStrongest(columns: seq<string>, target: string, corr: string -> real, name: string)
    requires target in columns && name in columns && name != target
    ensures var r := Rank(columns, target, corr);
            |r| > 0 && Abs(r[0].1) >= Abs(corr(name))
  {
    var r := Rank(columns, target, corr);
    RankMembers(columns, target, corr, name, corr(name));
    var k :| 0 <= k < |r| && r[k] == (name, corr(name));
    assert k == 0 || Abs(r[0].1) >= Abs(r[k].1);
  }

  /** Dropping the outcome column from a table's columns gives back the
      variable names, in order, when no variable is itself named `result`. */
  lemma {:induction false} InputColumnsOfTable(names: seq<string>)
    requires Aggregation.ResultColumn !in names
    ensures InputColumns(names + [Aggregation.ResultColumn], Aggregation.ResultColumn) == names
  {
    var all := names + [Aggregation.ResultColumn];
    if |names| == 0 {
      assert all[1..] == [];
    } else {
      assert all[1..] == names[1..] + [Aggregation.ResultColumn];
      InputColumnsOfTable(names[1..]);
      assert names == [names[0]] + names[1..];
    }
  }

  /** `sensitivity_analysis` on an outcome table with the default target:
      one entry per variable, by non-increasing magnitude. */
  function RankTable(t: Aggregation.Table, corr: string -> real): (r: seq<(string, real)>)
    ensures Aggregation.ResultColumn !in t.names ==> multiset(r) == multiset(Coefficients(t.names, corr))
    ensures forall i, j :: 0 <= i < j < |r| ==> Abs(r[i].1) >= Abs(r[j].1)
  {
    var inputs := InputColumns(Aggregation.Columns(t), Aggregation.ResultColumn);
    assert Aggregation.ResultColumn !in t.names ==> inputs == t.names by {
      if Aggregation.ResultColumn !in t.names {
        InputColumnsOfTable(t.names);
      }
    }
    assert Aggregation.ResultColumn in Aggregation.Columns(t);
    Rank(Aggregation.Columns(t), Aggregation.ResultColumn, corr)
  }
}
