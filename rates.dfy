/**
 * The derived per-match columns Runs_Per_Match and Wickets_Per_Match:
 * numpy's element-wise true division of the metric column by the
 * Matches column. numpy does not raise on a zero divisor; it yields
 * inf (for x / 0 with x > 0) or nan (for 0 / 0).
 */
module Rates {
  import opened Tables

  /** A float64 quotient: a finite value, +inf or nan. */
  datatype Rate = Finite(q: real) | PosInf | NaN

  /** metric / matches, as numpy divides two non-negative integers. */
  function PerMatch(metric: nat, matches: nat): (r: Rate)
    ensures r.Finite? <==> matches > 0
    ensures r.Finite? ==> r.q >= 0.0 && r.q * (matches as real) == metric as real
    ensures r == NaN <==> metric == 0 && matches == 0
  {
    if matches > 0 then Finite(metric as real / matches as real)
    else if metric > 0 then PosInf
    else NaN
  }

  /** The derived column: row i's rate from row i's metric and matches only. */
  function PerMatchColumn(metric: seq<nat>, matches: seq<nat>): (r: seq<Rate>)
    requires |metric| == |matches|
    ensures |r| == |metric|
    ensures forall i :: 0 <= i < |r| ==> (r[i].Finite? <==> matches[i] > 0)
    ensures forall i :: 0 <= i < |r| && r[i].Finite? ==> r[i].q * (matches[i] as real) == metric[i] as real
  {
    seq(|metric|, i requires 0 <= i < |metric| => PerMatch(metric[i], matches[i]))
  }

  /** Every rate of a column is finite exactly when no row has zero matches. */
  lemma AllFinite(metric: seq<nat>, matches: seq<nat>)
    requires |metric| == |matches|
    ensures (forall i :: 0 <= i < |matches| ==> PerMatchColumn(metric, matches)[i].Finite?)
        <==> (forall i :: 0 <= i < |matches| ==> matches[i] > 0)
  {
    var c := PerMatchColumn(metric, matches);
    assert forall i :: 0 <= i < |matches| ==> (c[i].Finite? <==> matches[i] > 0);
  }

  /** The literal tables have no zero-match row, so both derived columns are finite. */
  lemma LiteralRates()
    ensures var c := PerMatchColumn(RunsColumn(BATTING), BattingMatches(BATTING));
      |c| == 5 && (forall i :: 0 <= i < 5 ==> c[i].Finite?) && c[0] == Finite(50.6)
    ensures var c := PerMatchColumn(WicketsColumn(BOWLING), BowlingMatches(BOWLING));
      |c| == 5 && (forall i :: 0 <= i < 5 ==> c[i].Finite?) && c[0] == Finite(25.0 / 15.0)
  {
  }
}
