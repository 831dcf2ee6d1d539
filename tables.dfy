/**
 * The two literal tables of the IPL 2025 report (top run scorers and top
 * wicket takers) and the columns read from them.
 */
module Tables {

  /** A decimal with one digit after the point, as a count of tenths (50.6 is 506). */
  type Tenths = nat

  /** One row of the batting table: Player, Team, Runs, Matches, Average, Strike_Rate. */
  datatype BattingRow = BattingRow(
    player: string, team: string, runs: nat, matches: nat, average: Tenths, strikeRate: Tenths)

  /** One row of the bowling table: Player, Team, Wickets, Matches, Economy, Average. */
  datatype BowlingRow = BowlingRow(
    player: string, team: string, wickets: nat, matches: nat, economy: Tenths, average: Tenths)

  const BATTING: seq<BattingRow> := [
    BattingRow("Sai Sudharsan", "GT", 759, 15, 506, 1485),
    BattingRow("Suryakumar Yadav", "MI", 717, 15, 478, 1652),
    BattingRow("Virat Kohli", "RCB", 657, 14, 469, 1423),
    BattingRow("Mitchell Marsh", "LSG", 600, 15, 400, 1558),
    BattingRow("Shreyas Iyer", "KKR", 580, 14, 414, 1389)
  ]

  const BOWLING: seq<BowlingRow> := [
    BowlingRow("Prasidh Krishna", "GT", 25, 15, 82, 185),
    BowlingRow("Josh Hazlewood", "RCB", 22, 14, 78, 192),
    BowlingRow("Noor Ahmad", "CSK", 15, 13, 75, 221),
    BowlingRow("Khaleel Ahmed", "DC", 14, 12, 85, 235),
    BowlingRow("Mohammed Siraj", "RCB", 13, 14, 89, 253)
  ]

  // Columns, in row order (df['Runs'], df['Matches'], ...).

  function RunsColumn(t: seq<BattingRow>): seq<nat> {
    seq(|t|, i requires 0 <= i < |t| => t[i].runs)
  }

  function BattingMatches(t: seq<BattingRow>): seq<nat> {
    seq(|t|, i requires 0 <= i < |t| => t[i].matches)
  }

  function WicketsColumn(t: seq<BowlingRow>): seq<nat> {
    seq(|t|, i requires 0 <= i < |t| => t[i].wickets)
  }

  function BowlingMatches(t: seq<BowlingRow>): seq<nat> {
    seq(|t|, i requires 0 <= i < |t| => t[i].matches)
  }

  function EconomyColumn(t: seq<BowlingRow>): seq<Tenths> {
    seq(|t|, i requires 0 <= i < |t| => t[i].economy)
  }

  /** Series.sum on an integer column; 0 for an empty column. */
  function Sum(s: seq<nat>): (total: nat)
    ensures forall i :: 0 <= i < |s| ==> s[i] <= total
    ensures total == 0 <==> forall i :: 0 <= i < |s| ==> s[i] == 0
  {
    if |s| == 0 then 0 else s[0] + Sum(s[1..])
  }

  lemma {:induction false} SumAppend(a: seq<nat>, b: seq<nat>)
    ensures Sum(a + b) == Sum(a) + Sum(b)
  {
    if |a| > 0 {
      assert (a + b)[1..] == a[1..] + b;
      SumAppend(a[1..], b);
    } else {
      assert a + b == b;
    }
  }
}
