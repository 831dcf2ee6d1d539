# IPL 2025 statistics report: the aggregation core

This project models the computational core of `ipl2025.py`, a one-pass
report over two literal tables of the 2025 Indian Premier League season:
the five top run scorers (Player, Team, Runs, Matches, Average,
Strike_Rate) and the five top wicket takers (Player, Team, Wickets,
Matches, Economy, Average).

What is modelled:

- **Tables** (`tables.dfy`, module `Tables`): the rows as datatypes and the
  two literal tables as sequences. Runs, wickets and matches are `nat`.
  Average, strike rate and economy carry one decimal in every literal, so
  they are integer counts of tenths (Noor Ahmad's 7.5 is 75).
- **Per-match columns** (`rates.dfy`, `frames.dfy`): the script appends
  Runs_Per_Match and Wickets_Per_Match to its two data frames in place.
  Each frame is a class whose rows stay untouched while the derived
  column is set. The quotient follows numpy: dividing by zero does not
  raise. It gives `inf` for x / 0 with x > 0 and `nan` for 0 / 0. The
  datatype `Rate` keeps those two cases.
- **Column statistics** (`selection.dfy`, `stats.dfy`): column totals; the
  highest score and the best bowler as the first row with the largest
  value (`idxmax`); the best economy as the first row with the smallest
  value (`idxmin`). These are two separate selection policies. On an
  empty column pandas raises; here the selection returns `None`.
- **Team table** (`teams.dfy`): runs and wickets grouped by team and summed,
  then outer-joined on the team code, then `fillna(0)`. pandas sorts
  group keys and sorts the union of the two indexes. So every grouped
  table here is a sequence strictly ascending by team code, ordered the
  way Python orders strings (lexicographically by code point). The join
  keeps a missing side as `None`, and `FillNa` turns it into 0.
- **Pipeline** (`report.dfy`): the script's straight-line run over the
  literal data, from building the frames to the team table.

The main results:

- The team table lists every team of either table exactly once, in
  ascending order.
- Each team's Total_Runs is the sum of its batting rows' runs. Its
  Total_Wickets is the sum of its bowling rows' wickets. Each is 0 when
  the team has no row on that side.
- The two team columns add up to the total runs and the total wickets.
- The selections return the first maximum and the first minimum.
- For the literal data: total runs 3313, total wickets 89, Sai Sudharsan
  759 (50.6 runs per match), Prasidh Krishna 25, Noor Ahmad 7.5,
  RCB = (657, 35), CSK = (0, 15), MI = (717, 0).

A zero-match row does not raise: numpy's true division of integer arrays
gives `inf` for x / 0 and `nan` for 0 / 0, with only a runtime warning,
and `Rates.PerMatch` keeps both cases.

## Model

| member | source | states |
|---|---|---|
| Tables.Sum | ipl2025.py:47 | Series.sum of a count column (also line 63): every entry is at most the total, and the total is 0 exactly when every entry is 0 |
| Tables.SumAppend | ipl2025.py:47 | the column sum splits over concatenated row blocks |
| Stats.TotalRuns | ipl2025.py:47 | `df_runs['Runs'].sum()`: no row's runs exceed the total, and the total is 0 exactly when every row has 0 runs; Teams.TeamTableTotals ties it to the team table |
| Stats.TotalWickets | ipl2025.py:63 | `df_wickets['Wickets'].sum()`: no row's wickets exceed the total, and the total is 0 exactly when every row has 0 wickets; Teams.TeamTableTotals ties it to the team table |
| Selection.FirstArgMax | ipl2025.py:49 | idxmax: None exactly for an empty column; otherwise a position whose value no entry exceeds and that no earlier position equals or exceeds (first occurrence wins a tie) |
| Selection.FirstArgMin | ipl2025.py:66 | idxmin: None exactly for an empty column; otherwise a position whose value no entry undercuts and that no earlier position equals or undercuts |
| Selection.FirstMaxUnique | ipl2025.py:49 | the first-maximum position is unique: any position meeting that description is what idxmax returns |
| Selection.FirstMinUnique | ipl2025.py:66 | the first-minimum position is unique: any position meeting that description is what idxmin returns |
| Stats.HighestScore | ipl2025.py:49 | the highest-score row: present exactly when the table is non-empty; its runs are at least every row's; every earlier row has strictly fewer runs |
| Stats.BestBowler | ipl2025.py:65 | the best-bowler row: present exactly when the table is non-empty; its wickets are at least every row's; every earlier row has strictly fewer wickets |
| Stats.BestEconomy | ipl2025.py:66 | the best-economy row is a minimum, not a maximum: its economy is at most every row's; every earlier row has a strictly higher economy |
| Stats.LiteralBattingStats | ipl2025.py:47-49 | for the literal batting table: total runs 3313; the highest score is row 0, Sai Sudharsan with 759 |
| Stats.LiteralBowlingStats | ipl2025.py:63-66 | for the literal bowling table: total wickets 89; the best bowler is row 0, Prasidh Krishna with 25; the best economy is row 2, Noor Ahmad with 7.5 |
| Rates.PerMatch | ipl2025.py:43 | numpy's metric / matches (also line 59): finite exactly when matches > 0, then non-negative and times matches giving back the metric; nan exactly for 0 / 0, inf otherwise |
| Rates.PerMatchColumn | ipl2025.py:43 | the element-wise quotient column (also line 59): as long as the table; row i is finite exactly when row i's matches are positive, and then times those matches gives back row i's metric |
| Rates.AllFinite | ipl2025.py:43-44 | a derived column is finite in every row exactly when no row has zero matches |
| Rates.LiteralRates | ipl2025.py:14 | the literal Matches columns (lines 14 and 24) have no zero, so both derived columns are finite in all five rows; Sai Sudharsan's rate is 759 / 15 = 50.6 and Prasidh Krishna's 25 / 15 |
| Frames.BattingFrame.constructor | ipl2025.py:30 | df_runs holds the batting rows and no Runs_Per_Match column yet |
| Frames.BowlingFrame.constructor | ipl2025.py:31 | df_wickets holds the bowling rows and no Wickets_Per_Match column yet |
| Frames.BattingFrame.AddRunsPerMatch | ipl2025.py:44 | appending Runs_Per_Match leaves every row, its order and its values unchanged, and row i of the new column is row i's runs / matches |
| Frames.BowlingFrame.AddWicketsPerMatch | ipl2025.py:60 | appending Wickets_Per_Match leaves every row, its order and its values unchanged, and row i of the new column is row i's wickets / matches |
| Teams.GroupSumSpec | ipl2025.py:74-75 | groupby-sum: the grouped table is strictly ascending by team, holds exactly the teams of the rows, files under each team the sum of that team's rows, and keeps the grand total |
| Teams.GroupSum | ipl2025.py:74-75 | the groupby-sum itself, folding each row into an ascending table; its contract is carried by Teams.GroupSumSpec |
| Teams.RunsByTeamSpec | ipl2025.py:74 | the (Team, Runs) pairs fed to the groupby: per team they sum to that team's batting runs, in all to the Runs total, and their teams are the batting rows' teams |
| Teams.WicketsByTeamSpec | ipl2025.py:75 | the (Team, Wickets) pairs fed to the groupby: per team they sum to that team's bowling wickets, in all to the Wickets total, and their teams are the bowling rows' teams |
| Teams.OuterJoinKeys | ipl2025.py:76-78 | the joined frame's index is the union of the two grouped Series' teams |
| Teams.OuterJoinAscending | ipl2025.py:76-78 | joining two ascending Series gives an ascending index: each team once, sorted |
| Teams.OuterJoinValues | ipl2025.py:76-78 | each joined row carries each side's sum for its team, or NaN (None) where that side has no such team |
| Teams.OuterJoin | ipl2025.py:76-78 | the outer join of the two grouped Series on team code; its contract is carried by Teams.OuterJoinKeys, Teams.OuterJoinAscending and Teams.OuterJoinValues |
| Teams.FillNa | ipl2025.py:79 | `fillna(0)`: a NaN (None) side becomes 0; its contract is carried by Teams.JoinTotals, Teams.TeamTableValues and Teams.TeamTableZeroFill |
| Teams.JoinTotals | ipl2025.py:76-79 | after the join and fillna(0), the Total_Runs column sums to the runs Series' total and Total_Wickets to the wickets Series' total |
| Teams.TeamRunsAbsent | ipl2025.py:79 | a team with no batting row is credited 0 runs |
| Teams.TeamWicketsAbsent | ipl2025.py:79 | a team with no bowling row is credited 0 wickets |
| Teams.TeamTableAscending | ipl2025.py:74-79 | team_performance rows are strictly ascending by team code, so no team appears twice |
| Teams.TeamTableKeys | ipl2025.py:74-79 | a team is in team_performance exactly when some batting row or some bowling row has that team |
| Teams.TeamTableValues | ipl2025.py:74-79 | every team's Total_Runs is the sum of runs over the batting rows of that team and its Total_Wickets the sum of wickets over its bowling rows, each 0 when there is no such row |
| Teams.TeamTableZeroFill | ipl2025.py:79 | in team_performance, a team with no batting row has Total_Runs 0 and a team with no bowling row has Total_Wickets 0 |
| Teams.TeamTableTotals | ipl2025.py:74-79 | conservation: Total_Runs sums to the total runs (line 47) and Total_Wickets to the total wickets (line 63) |
| Teams.TeamPerformance | ipl2025.py:74-79 | the whole team_performance table; its contract is carried by Teams.TeamTableAscending, Teams.TeamTableKeys, Teams.TeamTableValues, Teams.TeamTableZeroFill and Teams.TeamTableTotals |
| Teams.LiteralTeamRuns | ipl2025.py:74 | team_runs of the literal data: GT 759, KKR 580, LSG 600, MI 717, RCB 657 |
| Teams.LiteralTeamWickets | ipl2025.py:75 | team_wickets of the literal data: CSK 15, DC 14, GT 25, RCB 22 + 13 = 35 |
| Teams.LiteralTeamTable | ipl2025.py:74-79 | team_performance of the literal data: CSK (0, 15), DC (0, 14), GT (759, 25), KKR (580, 0), LSG (600, 0), MI (717, 0), RCB (657, 35) |
| Report.RunReport | ipl2025.py:30-79 | the straight-line run over the literal tables yields these figures: 3313 runs, Sai Sudharsan 759, 89 wickets, Prasidh Krishna 25, Noor Ahmad 7.5, the team table above, and finite per-match columns |

## Left out

- Tables.Sum: pandas keeps Runs and Wickets as int64, and its sums wrap past 2^63 - 1. The model's counts are unbounded naturals, so neither the int64 width nor the wrap-around is modelled; "no entry exceeds the total" holds only because of that.
- Stats.TotalRuns: an unbounded sum, as stated for Tables.Sum.
- Stats.TotalWickets: an unbounded sum, as stated for Tables.Sum.
- Teams.GroupSum: the per-team sums are unbounded, as stated for Tables.Sum; pandas' groupby sums are int64.
- Rates.PerMatch: the quotient is the exact rational, not a float64. The derived columns also skip `np.round(..., 2)`, so 25 / 15 stays 5/3 rather than becoming 1.67.
- Frames.BattingFrame.AddRunsPerMatch: the column holds the unrounded quotients, as stated for Rates.PerMatch.
- Frames.BowlingFrame.AddWicketsPerMatch: the column holds the unrounded quotients, as stated for Rates.PerMatch.
- Mean and sample standard deviation (lines 48, 50 and 64) are floating-point numerics and are not modelled.
- Average, Strike_Rate and Economy are exact tenths, not binary floats. This is exact for the literal values, which are only compared.
- Team table dtype: after the NaN holes are filled, pandas stores Total_Runs and Total_Wickets as floats (657.0). The model keeps natural numbers.
- `idxmax` and `idxmin` return an index label. The frames use the default range index, so the label equals the row position, and positions are modelled.
- The frames store rows, not pandas' column blocks. Column storage and views that share data are not modelled.
- The Pearson correlation matrices (lines 162 and 167) are not modelled: they are floating-point work done inside pandas.
- Console printing and banners are left out as output formatting only.
- The six matplotlib panels (lines 84-154) are left out as presentation with no effect on the data.
- CSV export (lines 174-175) is file I/O and is left out.
- The unused `datetime` import is left out.
