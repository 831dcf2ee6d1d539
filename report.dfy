/**
 * The report pipeline run once over the literal tables: build the two
 * frames, append the per-match columns, and compute the figures the
 * script prints for batting, bowling and teams.
 */
module Report {
  import opened Tables
  import opened Rates
  import opened Frames
  import opened Stats
  import opened Teams

  /** The figures of the batting, bowling and team sections, and the two derived columns. */
  datatype Summary = Summary(
    totalRuns: nat, highestScore: nat, highestScorer: string,
    totalWickets: nat, bestBowler: string, bestBowlerWickets: nat,
    bestEconomy: Tenths, bestEconomyPlayer: string,
    teams: seq<TeamRow>,
    runsPerMatch: seq<Rate>, wicketsPerMatch: seq<Rate>)

  method RunReport() returns (s: Summary)
    ensures s.totalRuns == 3313 && s.highestScore == 759 && s.highestScorer == "Sai Sudharsan"
    ensures s.totalWickets == 89 && s.bestBowler == "Prasidh Krishna" && s.bestBowlerWickets == 25
    ensures s.bestEconomy == 75 && s.bestEconomyPlayer == "Noor Ahmad"
    ensures s.teams == [
      TeamRow("CSK", 0, 15), TeamRow("DC", 0, 14), TeamRow("GT", 759, 25), TeamRow("KKR", 580, 0),
      TeamRow("LSG", 600, 0), TeamRow("MI", 717, 0), TeamRow("RCB", 657, 35)]
    ensures |s.runsPerMatch| == 5 && s.runsPerMatch[0] == Finite(50.6)
    ensures |s.wicketsPerMatch| == 5
    ensures forall i :: 0 <= i < 5 ==> s.runsPerMatch[i].Finite? && s.wicketsPerMatch[i].Finite?
  {
    var runs := new BattingFrame(BATTING);
    runs.AddRunsPerMatch();
    var wickets := new BowlingFrame(BOWLING);
    wickets.AddWicketsPerMatch();

    LiteralBattingStats();
    LiteralBowlingStats();
    LiteralTeamTable();
    LiteralRates();

    var top := HighestScore(runs.rows).value;
    var best := BestBowler(wickets.rows).value;
    var economical := BestEconomy(wickets.rows).value;
    s := Summary(
      TotalRuns(runs.rows), runs.rows[top].runs, runs.rows[top].player,
      TotalWickets(wickets.rows), wickets.rows[best].player, wickets.rows[best].wickets,
      wickets.rows[economical].economy, wickets.rows[economical].player,
      TeamPerformance(runs.rows, wickets.rows),
      runs.runsPerMatch.value, wickets.wicketsPerMatch.value);
  }
}
