/**
 * The two data frames of the report. The script appends one derived
 * column to each, in place (`df_runs['Runs_Per_Match'] = ...`,
 * `df_wickets['Wickets_Per_Match'] = ...`); every other column and the
 * row order stay as they were.
 */
module Frames {
  import opened Wrappers
  import opened Tables
  import opened Rates

  class BattingFrame {
    var rows: seq<BattingRow>
    /** The Runs_Per_Match column; None until it has been appended. */
    var runsPerMatch: Option<seq<Rate>>

    constructor (rows: seq<BattingRow>)
      ensures this.rows == rows && runsPerMatch == None
    {
      this.rows := rows;
      runsPerMatch := None;
    }

    /** Appends (or overwrites) Runs_Per_Match = Runs / Matches. */
    method AddRunsPerMatch()
      modifies this
      ensures rows == old(rows)
      ensures runsPerMatch == Some(PerMatchColumn(RunsColumn(rows), BattingMatches(rows)))
      ensures forall i :: 0 <= i < |rows| ==>
                runsPerMatch.value[i] == PerMatch(rows[i].runs, rows[i].matches)
    {
      runsPerMatch := Some(PerMatchColumn(RunsColumn(rows), BattingMatches(rows)));
    }
  }

  class BowlingFrame {
    var rows: seq<BowlingRow>
    /** The Wickets_Per_Match column; None until it has been appended. */
    var wicketsPerMatch: Option<seq<Rate>>

    constructor (rows: seq<BowlingRow>)
      ensures this.rows == rows && wicketsPerMatch == None
    {
      this.rows := rows;
      wicketsPerMatch := None;
    }

    /** Appends (or overwrites) Wickets_Per_Match = Wickets / Matches. */
    method AddWicketsPerMatch()
      modifies this
      ensures rows == old(rows)
      ensures wicketsPerMatch == Some(PerMatchColumn(WicketsColumn(rows), BowlingMatches(rows)))
      ensures forall i :: 0 <= i < |rows| ==>
                wicketsPerMatch.value[i] == PerMatch(rows[i].wickets, rows[i].matches)
    {
      wicketsPerMatch := Some(PerMatchColumn(WicketsColumn(rows), BowlingMatches(rows)));
    }
  }
}
