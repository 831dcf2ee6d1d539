/**
 * The column statistics printed for each table: totals, the highest
 * score and the best bowler (first maximum), and the best economy
 * (first minimum).
 */
module Stats {
  import opened Wrappers
  import opened Tables
  import opened Selection

  /** Total Runs: the sum of the Runs column. */
  function TotalRuns(t: seq<BattingRow>): (total: nat)
    ensures forall i :: 0 <= i < |t| ==> t[i].runs <= total
    ensures total == 0 <==> forall i :: 0 <= i < |t| ==> t[i].runs == 0
  {
    var c := RunsColumn(t);
    assert forall i :: 0 <= i < |t| ==> c[i] == t[i].runs;
    Sum(c)
  }

  /** Total Wickets: the sum of the Wickets column. */
  function TotalWickets(t: seq<BowlingRow>): (total: nat)
    ensures forall i :: 0 <= i < |t| ==> t[i].wickets <= total
    ensures total == 0 <==> forall i :: 0 <= i < |t| ==> t[i].wickets == 0
  {
    var c := WicketsColumn(t);
    assert forall i :: 0 <= i < |t| ==> c[i] == t[i].wickets;
    Sum(c)
  }

  /** The row of the highest score: idxmax of the Runs column. */
  function HighestScore(t: seq<BattingRow>): (r: Option<nat>)
    ensures r.None? <==> |t| == 0
    ensures r.Some? ==> r.value < |t|
    ensures r.Some? ==> forall j :: 0 <= j < |t| ==> t[j].runs <= t[r.value].runs
    ensures r.Some? ==> forall j :: 0 <= j < r.value ==> t[j].runs < t[r.value].runs
  {
    var c := RunsColumn(t);
    assert forall j :: 0 <= j < |t| ==> c[j] == t[j].runs;
    FirstArgMax(c)
  }

  /** The row of the best bowler: idxmax of the Wickets column. */
  function BestBowler(t: seq<BowlingRow>): (r: Option<nat>)
    ensures r.None? <==> |t| == 0
    ensures r.Some? ==> r.value < |t|
    ensures r.Some? ==> forall j :: 0 <= j < |t| ==> t[j].wickets <= t[r.value].wickets
    ensures r.Some? ==> forall j :: 0 <= j < r.value ==> t[j].wickets < t[r.value].wickets
  {
    var c := WicketsColumn(t);
    assert forall j :: 0 <= j < |t| ==> c[j] == t[j].wickets;
    FirstArgMax(c)
  }

  /** The row of the best economy: idxmin of the Economy column, a minimum. */
  function BestEconomy(t: seq<BowlingRow>): (r: Option<nat>)
    ensures r.None? <==> |t| == 0
    ensures r.Some? ==> r.value < |t|
    ensures r.Some? ==> forall j :: 0 <= j < |t| ==> t[r.value].economy <= t[j].economy
    ensures r.Some? ==> forall j :: 0 <= j < r.value ==> t[r.value].economy < t[j].economy
  {
    var c := EconomyColumn(t);
    assert forall j :: 0 <= j < |t| ==> c[j] == t[j].economy;
    FirstArgMin(c)
  }

  /** The batting statistics of the literal table. */
  lemma LiteralBattingStats()
    ensures TotalRuns(BATTING) == 3313
    ensures HighestScore(BATTING) == Some(0)
    ensures BATTING[0].player == "Sai Sudharsan" && BATTING[0].runs == 759
  {
  }

  /** The bowling statistics of the literal table. */
  lemma LiteralBowlingStats()
    ensures TotalWickets(BOWLING) == 89
    ensures BestBowler(BOWLING) == Some(0)
    ensures BOWLING[0].player == "Prasidh Krishna" && BOWLING[0].wickets == 25
    ensures BestEconomy(BOWLING) == Some(2)
    ensures BOWLING[2].player == "Noor Ahmad" && BOWLING[2].economy == 75
  {
  }
}
