/**
 * The team-wise table: runs grouped by team and summed, wickets grouped
 * by team and summed, the two outer-joined on the team code and the
 * holes filled with 0. pandas sorts group keys and sorts the union of
 * the two indexes, so every table here is a sequence strictly ascending
 * by team code.
 */
module Teams {
  import opened Wrappers
  import opened Tables
  import opened Stats

  // ---------------------------------------------------------------------
  // Python's order on strings: lexicographic by code point.

  predicate Less(a: string, b: string) {
    |b| > 0 && (|a| == 0 || a[0] < b[0] || (a[0] == b[0] && Less(a[1..], b[1..])))
  }

  lemma {:induction false} LessIrreflexive(a: string)
    ensures !Less(a, a)
  {
    if |a| > 0 {
      LessIrreflexive(a[1..]);
    }
  }

  lemma {:induction false} LessTransitive(a: string, b: string, c: string)
    requires Less(a, b) && Less(b, c)
    ensures Less(a, c)
  {
    if |a| > 0 && a[0] == b[0] && b[0] == c[0] {
      LessTransitive(a[1..], b[1..], c[1..]);
    }
  }

  lemma {:induction false} LessTotal(a: string, b: string)
    ensures a == b || Less(a, b) || Less(b, a)
  {
    if |a| > 0 && |b| > 0 && a[0] == b[0] {
      LessTotal(a[1..], b[1..]);
      if a[1..] == b[1..] {
        assert a == [a[0]] + a[1..] && b == [b[0]] + b[1..];
      }
    }
  }

  /** Strictly ascending keys: sorted, and so each key at most once. */
  ghost predicate Ascending(ks: seq<string>) {
    forall i, j :: 0 <= i < j < |ks| ==> Less(ks[i], ks[j])
  }

  /** x comes before every key of ks. */
  ghost predicate Below(x: string, ks: seq<string>) {
    forall k :: k in ks ==> Less(x, k)
  }

  lemma AscendingDistinct(ks: seq<string>)
    requires Ascending(ks)
    ensures forall i, j :: 0 <= i < j < |ks| ==> ks[i] != ks[j]
  {
    forall i, j | 0 <= i < j < |ks|
      ensures ks[i] != ks[j]
    {
      LessIrreflexive(ks[i]);
    }
  }

  lemma AscendingTail(ks: seq<string>)
    requires Ascending(ks) && |ks| > 0
    ensures Below(ks[0], ks[1..]) && Ascending(ks[1..])
  {
  }

  lemma AscendingCons(x: string, ks: seq<string>)
    requires Ascending(ks) && Below(x, ks)
    ensures Ascending([x] + ks)
  {
  }

  /** Anything below the first key of an ascending sequence is below all of it. */
  lemma BelowHead(x: string, ks: seq<string>)
    requires Ascending(ks) && |ks| > 0 && Less(x, ks[0])
    ensures Below(x, ks)
  {
    forall k | k in ks
      ensures Less(x, k)
    {
      if k != ks[0] {
        var j :| 0 <= j < |ks| && ks[j] == k;
        LessTransitive(x, ks[0], k);
      }
    }
  }

  lemma BelowNotIn(x: string, ks: seq<string>)
    requires Below(x, ks)
    ensures x !in ks
  {
    LessIrreflexive(x);
  }

  // ---------------------------------------------------------------------
  // A grouped Series: one amount per team code.

  datatype Entry = Entry(team: string, amount: nat)

  /** The team codes of a grouped Series, in its order. */
  function EntryTeams(g: seq<Entry>): seq<string> {
    seq(|g|, i requires 0 <= i < |g| => g[i].team)
  }

  lemma EntryTeamsCons(e: Entry, g: seq<Entry>)
    ensures EntryTeams([e] + g) == [e.team] + EntryTeams(g)
  {
  }

  lemma EntryTeamsTail(g: seq<Entry>)
    requires |g| > 0
    ensures EntryTeams(g[1..]) == EntryTeams(g)[1..] && EntryTeams(g) == [g[0].team] + EntryTeams(g[1..])
  {
  }

  /** The sum of the amounts filed under team k; 0 when there are none. */
  function TeamSum(g: seq<Entry>, k: string): nat {
    if |g| == 0 then 0 else (if g[0].team == k then g[0].amount else 0) + TeamSum(g[1..], k)
  }

  /** The amounts of a grouped Series, in its order. */
  function Amounts(g: seq<Entry>): seq<nat> {
    seq(|g|, i requires 0 <= i < |g| => g[i].amount)
  }

  /** The sum of all amounts. */
  function Total(g: seq<Entry>): nat {
    Sum(Amounts(g))
  }

  lemma TotalTail(g: seq<Entry>)
    requires |g| > 0
    ensures Total(g) == g[0].amount + Total(g[1..])
  {
    assert Amounts(g)[1..] == Amounts(g[1..]);
  }

  lemma {:induction false} TeamSumAbsent(g: seq<Entry>, k: string)
    requires k !in EntryTeams(g)
    ensures TeamSum(g, k) == 0
  {
    if |g| > 0 {
      EntryTeamsTail(g);
      TeamSumAbsent(g[1..], k);
    }
  }

  // ---------------------------------------------------------------------
  // groupby(...).sum(): fold the rows into an ascending table.

  /** Adds v to team k's amount, or files k with v at its sorted place. */
  function Insert(g: seq<Entry>, k: string, v: nat): seq<Entry> {
    if |g| == 0 then [Entry(k, v)]
    else if g[0].team == k then [Entry(k, g[0].amount + v)] + g[1..]
    else if Less(k, g[0].team) then [Entry(k, v)] + g
    else [g[0]] + Insert(g[1..], k, v)
  }

  lemma {:induction false} InsertSums(g: seq<Entry>, k: string, v: nat)
    ensures Total(Insert(g, k, v)) == Total(g) + v
    ensures forall k' :: TeamSum(Insert(g, k, v), k') == TeamSum(g, k') + (if k' == k then v else 0)
  {
    var r := Insert(g, k, v);
    TotalTail(r);
    if |g| == 0 {
      assert r[1..] == [];
    } else if g[0].team == k {
      TotalTail(g);
      assert r[1..] == g[1..];
    } else if Less(k, g[0].team) {
      assert r[1..] == g;
    } else {
      TotalTail(g);
      assert r[1..] == Insert(g[1..], k, v);
      InsertSums(g[1..], k, v);
    }
  }

  lemma {:induction false} InsertTeams(g: seq<Entry>, k: string, v: nat)
    requires Ascending(EntryTeams(g))
    ensures Ascending(EntryTeams(Insert(g, k, v)))
    ensures forall k' :: k' in EntryTeams(Insert(g, k, v)) <==> k' in EntryTeams(g) || k' == k
  {
    var r := Insert(g, k, v);
    if |g| == 0 {
      assert EntryTeams(r) == [k];
    } else if g[0].team == k {
      EntryTeamsTail(g);
      EntryTeamsCons(Entry(k, g[0].amount + v), g[1..]);
      assert EntryTeams(r) == EntryTeams(g);
    } else if Less(k, g[0].team) {
      EntryTeamsCons(Entry(k, v), g);
      BelowHead(k, EntryTeams(g));
      AscendingCons(k, EntryTeams(g));
    } else {
      var rest := Insert(g[1..], k, v);
      EntryTeamsTail(g);
      AscendingTail(EntryTeams(g));
      InsertTeams(g[1..], k, v);
      LessTotal(k, g[0].team);
      EntryTeamsCons(g[0], rest);
      AscendingCons(g[0].team, EntryTeams(rest));
    }
  }

  /** Series.groupby(team).sum(): one entry per team code, ascending. */
  function GroupSum(e: seq<Entry>): seq<Entry> {
    if |e| == 0 then [] else Insert(GroupSum(e[1..]), e[0].team, e[0].amount)
  }

  /**
   * The grouped table is ascending, holds exactly the teams of the
   * rows, files under each team the sum of that team's rows, and loses
   * nothing of the grand total.
   */
  lemma {:induction false} GroupSumSpec(e: seq<Entry>)
    ensures Ascending(EntryTeams(GroupSum(e)))
    ensures forall k :: k in EntryTeams(GroupSum(e)) <==> k in EntryTeams(e)
    ensures forall k :: TeamSum(GroupSum(e), k) == TeamSum(e, k)
    ensures Total(GroupSum(e)) == Total(e)
  {
    if |e| > 0 {
      GroupSumSpec(e[1..]);
      InsertTeams(GroupSum(e[1..]), e[0].team, e[0].amount);
      InsertSums(GroupSum(e[1..]), e[0].team, e[0].amount);
      EntryTeamsTail(e);
      TotalTail(e);
    }
  }

  // ---------------------------------------------------------------------
  // pd.DataFrame({'Total_Runs': ..., 'Total_Wickets': ...}): the outer
  // join on team code, with NaN (None) for the side a team is missing from.

  datatype JoinedRow = JoinedRow(team: string, runs: Option<nat>, wickets: Option<nat>)

  function JoinTeams(j: seq<JoinedRow>): seq<string> {
    seq(|j|, i requires 0 <= i < |j| => j[i].team)
  }

  /** The amount of team k in a grouped Series, or None when k has no entry. */
  function Lookup(g: seq<Entry>, k: string): Option<nat> {
    if k in EntryTeams(g) then Some(TeamSum(g, k)) else None
  }

  function OuterJoin(r: seq<Entry>, w: seq<Entry>): seq<JoinedRow>
    decreases |r| + |w|
  {
    if |r| == 0 && |w| == 0 then []
    else if |w| == 0 || (|r| > 0 && Less(r[0].team, w[0].team)) then
      [JoinedRow(r[0].team, Some(r[0].amount), None)] + OuterJoin(r[1..], w)
    else if |r| == 0 || Less(w[0].team, r[0].team) then
      [JoinedRow(w[0].team, None, Some(w[0].amount))] + OuterJoin(r, w[1..])
    else
      [JoinedRow(r[0].team, Some(r[0].amount), Some(w[0].amount))] + OuterJoin(r[1..], w[1..])
  }

  lemma LookupHead(g: seq<Entry>)
    requires Ascending(EntryTeams(g)) && |g| > 0
    ensures Lookup(g, g[0].team) == Some(g[0].amount)
  {
    EntryTeamsTail(g);
    AscendingTail(EntryTeams(g));
    BelowNotIn(g[0].team, EntryTeams(g[1..]));
    TeamSumAbsent(g[1..], g[0].team);
  }

  lemma LookupTail(g: seq<Entry>, k: string)
    requires |g| > 0 && k != g[0].team
    ensures Lookup(g, k) == Lookup(g[1..], k)
  {
    EntryTeamsTail(g);
  }

  /** The join holds exactly the teams of either side. */
  lemma {:induction false} OuterJoinKeys(r: seq<Entry>, w: seq<Entry>)
    ensures forall k :: k in JoinTeams(OuterJoin(r, w)) <==> k in EntryTeams(r) || k in EntryTeams(w)
    decreases |r| + |w|
  {
    var j := OuterJoin(r, w);
    if |r| == 0 && |w| == 0 {
    } else if |w| == 0 || (|r| > 0 && Less(r[0].team, w[0].team)) {
      OuterJoinKeys(r[1..], w);
      EntryTeamsTail(r);
      assert JoinTeams(j) == [r[0].team] + JoinTeams(OuterJoin(r[1..], w));
    } else if |r| == 0 || Less(w[0].team, r[0].team) {
      OuterJoinKeys(r, w[1..]);
      EntryTeamsTail(w);
      assert JoinTeams(j) == [w[0].team] + JoinTeams(OuterJoin(r, w[1..]));
    } else {
      LessTotal(r[0].team, w[0].team);
      OuterJoinKeys(r[1..], w[1..]);
      EntryTeamsTail(r);
      EntryTeamsTail(w);
      assert JoinTeams(j) == [r[0].team] + JoinTeams(OuterJoin(r[1..], w[1..]));
    }
  }

  /** The first team of the join comes before every later one. */
  lemma JoinHeadBelow(r: seq<Entry>, w: seq<Entry>)
    requires Ascending(EntryTeams(r)) && Ascending(EntryTeams(w)) && |OuterJoin(r, w)| > 0
    ensures var j := OuterJoin(r, w);
      JoinTeams(j) == [j[0].team] + JoinTeams(j[1..]) && Below(j[0].team, JoinTeams(j[1..]))
  {
    var j := OuterJoin(r, w);
    assert JoinTeams(j) == [j[0].team] + JoinTeams(j[1..]);
    if |w| == 0 || (|r| > 0 && Less(r[0].team, w[0].team)) {
      EntryTeamsTail(r);
      AscendingTail(EntryTeams(r));
      OuterJoinKeys(r[1..], w);
      if |w| > 0 {
        BelowHead(r[0].team, EntryTeams(w));
      }
    } else if |r| == 0 || Less(w[0].team, r[0].team) {
      EntryTeamsTail(w);
      AscendingTail(EntryTeams(w));
      OuterJoinKeys(r, w[1..]);
      if |r| > 0 {
        BelowHead(w[0].team, EntryTeams(r));
      }
    } else {
      LessTotal(r[0].team, w[0].team);
      EntryTeamsTail(r);
      EntryTeamsTail(w);
      AscendingTail(EntryTeams(r));
      AscendingTail(EntryTeams(w));
      OuterJoinKeys(r[1..], w[1..]);
    }
  }

  /** The join of two ascending grouped Series is ascending: each team once, in order. */
  lemma {:induction false} OuterJoinAscending(r: seq<Entry>, w: seq<Entry>)
    requires Ascending(EntryTeams(r)) && Ascending(EntryTeams(w))
    ensures Ascending(JoinTeams(OuterJoin(r, w)))
    decreases |r| + |w|
  {
    var j := OuterJoin(r, w);
    if |j| > 0 {
      JoinHeadBelow(r, w);
      if |w| == 0 || (|r| > 0 && Less(r[0].team, w[0].team)) {
        EntryTeamsTail(r);
        AscendingTail(EntryTeams(r));
        OuterJoinAscending(r[1..], w);
      } else if |r| == 0 || Less(w[0].team, r[0].team) {
        EntryTeamsTail(w);
        AscendingTail(EntryTeams(w));
        OuterJoinAscending(r, w[1..]);
      } else {
        EntryTeamsTail(r);
        EntryTeamsTail(w);
        AscendingTail(EntryTeams(r));
        AscendingTail(EntryTeams(w));
        OuterJoinAscending(r[1..], w[1..]);
      }
      AscendingCons(j[0].team, JoinTeams(j[1..]));
    }
  }

  /**
   * Each row of the join carries each side's amount for its team, or
   * None where that side has no entry for the team.
   */
  lemma {:induction false} OuterJoinValues(r: seq<Entry>, w: seq<Entry>)
    requires Ascending(EntryTeams(r)) && Ascending(EntryTeams(w))
    ensures forall i :: 0 <= i < |OuterJoin(r, w)| ==>
              OuterJoin(r, w)[i].runs == Lookup(r, OuterJoin(r, w)[i].team) &&
              OuterJoin(r, w)[i].wickets == Lookup(w, OuterJoin(r, w)[i].team)
    decreases |r| + |w|
  {
    var j := OuterJoin(r, w);
    if |j| > 0 {
      JoinHeadBelow(r, w);
      var x := j[0].team;
      var rest := j[1..];
      var r', w' := r, w;
      if |w| == 0 || (|r| > 0 && Less(r[0].team, w[0].team)) {
        r' := r[1..];
        EntryTeamsTail(r);
        AscendingTail(EntryTeams(r));
        LookupHead(r);
        if |w| > 0 {
          BelowHead(x, EntryTeams(w));
        }
        BelowNotIn(x, EntryTeams(w));
      } else if |r| == 0 || Less(w[0].team, r[0].team) {
        w' := w[1..];
        EntryTeamsTail(w);
        AscendingTail(EntryTeams(w));
        LookupHead(w);
        if |r| > 0 {
          BelowHead(x, EntryTeams(r));
        }
        BelowNotIn(x, EntryTeams(r));
      } else {
        LessTotal(r[0].team, w[0].team);
        r', w' := r[1..], w[1..];
        EntryTeamsTail(r);
        EntryTeamsTail(w);
        AscendingTail(EntryTeams(r));
        AscendingTail(EntryTeams(w));
        LookupHead(r);
        LookupHead(w);
      }
      assert rest == OuterJoin(r', w');
      OuterJoinValues(r', w');
      forall i | 0 < i < |j|
        ensures j[i].runs == Lookup(r, j[i].team) && j[i].wickets == Lookup(w, j[i].team)
      {
        assert j[i] == rest[i - 1] && JoinTeams(rest)[i - 1] == j[i].team;
        BelowNotIn(x, JoinTeams(rest));
        if r' != r {
          LookupTail(r, j[i].team);
        }
        if w' != w {
          LookupTail(w, j[i].team);
        }
      }
    }
  }

  // ---------------------------------------------------------------------
  // .fillna(0) and the whole team table.

  datatype TeamRow = TeamRow(team: string, totalRuns: nat, totalWickets: nat)

  function RowTeams(p: seq<TeamRow>): seq<string> {
    seq(|p|, i requires 0 <= i < |p| => p[i].team)
  }

  /** fillna(0): a side missing from the join counts as 0. */
  function FillNa(j: seq<JoinedRow>): seq<TeamRow> {
    seq(|j|, i requires 0 <= i < |j| => TeamRow(j[i].team, j[i].runs.GetOr(0), j[i].wickets.GetOr(0)))
  }

  function TotalRunsColumn(p: seq<TeamRow>): seq<nat> {
    seq(|p|, i requires 0 <= i < |p| => p[i].totalRuns)
  }

  function TotalWicketsColumn(p: seq<TeamRow>): seq<nat> {
    seq(|p|, i requires 0 <= i < |p| => p[i].totalWickets)
  }

  /** The Total_Runs column summed. */
  function RunsTotal(p: seq<TeamRow>): nat {
    Sum(TotalRunsColumn(p))
  }

  /** The Total_Wickets column summed. */
  function WicketsTotal(p: seq<TeamRow>): nat {
    Sum(TotalWicketsColumn(p))
  }

  lemma TeamTotalsTail(p: seq<TeamRow>)
    requires |p| > 0
    ensures RunsTotal(p) == p[0].totalRuns + RunsTotal(p[1..])
    ensures WicketsTotal(p) == p[0].totalWickets + WicketsTotal(p[1..])
  {
    assert TotalRunsColumn(p)[1..] == TotalRunsColumn(p[1..]);
    assert TotalWicketsColumn(p)[1..] == TotalWicketsColumn(p[1..]);
  }

  /** Joining and filling neither loses nor adds a run or a wicket. */
  lemma {:induction false} JoinTotals(r: seq<Entry>, w: seq<Entry>)
    ensures RunsTotal(FillNa(OuterJoin(r, w))) == Total(r)
    ensures WicketsTotal(FillNa(OuterJoin(r, w))) == Total(w)
    decreases |r| + |w|
  {
    var j := OuterJoin(r, w);
    if |j| > 0 {
      assert FillNa(j)[1..] == FillNa(j[1..]);
      TeamTotalsTail(FillNa(j));
      if |w| == 0 || (|r| > 0 && Less(r[0].team, w[0].team)) {
        TotalTail(r);
        JoinTotals(r[1..], w);
      } else if |r| == 0 || Less(w[0].team, r[0].team) {
        TotalTail(w);
        JoinTotals(r, w[1..]);
      } else {
        TotalTail(r);
        TotalTail(w);
        JoinTotals(r[1..], w[1..]);
      }
    } else {
      assert r == [] && w == [];
    }
  }

  /** The (Team, Runs) pairs that df_runs.groupby('Team')['Runs'] groups. */
  function RunsByTeam(t: seq<BattingRow>): seq<Entry> {
    seq(|t|, i requires 0 <= i < |t| => Entry(t[i].team, t[i].runs))
  }

  /** The (Team, Wickets) pairs that df_wickets.groupby('Team')['Wickets'] groups. */
  function WicketsByTeam(t: seq<BowlingRow>): seq<Entry> {
    seq(|t|, i requires 0 <= i < |t| => Entry(t[i].team, t[i].wickets))
  }

  /** The team_performance table. */
  function TeamPerformance(bat: seq<BattingRow>, bowl: seq<BowlingRow>): seq<TeamRow> {
    FillNa(OuterJoin(GroupSum(RunsByTeam(bat)), GroupSum(WicketsByTeam(bowl))))
  }

  /** Reference: the runs of the batting rows of team k; 0 when it has none. */
  function TeamRuns(t: seq<BattingRow>, k: string): nat {
    if |t| == 0 then 0 else (if t[0].team == k then t[0].runs else 0) + TeamRuns(t[1..], k)
  }

  /** Reference: the wickets of the bowling rows of team k; 0 when it has none. */
  function TeamWickets(t: seq<BowlingRow>, k: string): nat {
    if |t| == 0 then 0 else (if t[0].team == k then t[0].wickets else 0) + TeamWickets(t[1..], k)
  }

  /** A team with no batting row is credited with no runs. */
  lemma {:induction false} TeamRunsAbsent(t: seq<BattingRow>, k: string)
    requires forall i :: 0 <= i < |t| ==> t[i].team != k
    ensures TeamRuns(t, k) == 0
  {
    if |t| > 0 {
      TeamRunsAbsent(t[1..], k);
    }
  }

  /** A team with no bowling row is credited with no wickets. */
  lemma {:induction false} TeamWicketsAbsent(t: seq<BowlingRow>, k: string)
    requires forall i :: 0 <= i < |t| ==> t[i].team != k
    ensures TeamWickets(t, k) == 0
  {
    if |t| > 0 {
      TeamWicketsAbsent(t[1..], k);
    }
  }

  lemma {:induction false} RunsByTeamSpec(t: seq<BattingRow>)
    ensures forall k :: TeamSum(RunsByTeam(t), k) == TeamRuns(t, k)
    ensures Total(RunsByTeam(t)) == TotalRuns(t)
    ensures forall k :: k in EntryTeams(RunsByTeam(t)) <==> exists i :: 0 <= i < |t| && t[i].team == k
  {
    var e := RunsByTeam(t);
    if |t| > 0 {
      RunsByTeamSpec(t[1..]);
      assert e[1..] == RunsByTeam(t[1..]);
    }
    assert Amounts(e) == RunsColumn(t);
    forall k
      ensures k in EntryTeams(e) <==> exists i :: 0 <= i < |t| && t[i].team == k
    {
      if k in EntryTeams(e) {
        var i :| 0 <= i < |EntryTeams(e)| && EntryTeams(e)[i] == k;
        assert t[i].team == k;
      }
      if exists i :: 0 <= i < |t| && t[i].team == k {
        var i :| 0 <= i < |t| && t[i].team == k;
        assert EntryTeams(e)[i] == k;
      }
    }
  }

  lemma {:induction false} WicketsByTeamSpec(t: seq<BowlingRow>)
    ensures forall k :: TeamSum(WicketsByTeam(t), k) == TeamWickets(t, k)
    ensures Total(WicketsByTeam(t)) == TotalWickets(t)
    ensures forall k :: k in EntryTeams(WicketsByTeam(t)) <==> exists i :: 0 <= i < |t| && t[i].team == k
  {
    var e := WicketsByTeam(t);
    if |t| > 0 {
      WicketsByTeamSpec(t[1..]);
      assert e[1..] == WicketsByTeam(t[1..]);
    }
    assert Amounts(e) == WicketsColumn(t);
    forall k
      ensures k in EntryTeams(e) <==> exists i :: 0 <= i < |t| && t[i].team == k
    {
      if k in EntryTeams(e) {
        var i :| 0 <= i < |EntryTeams(e)| && EntryTeams(e)[i] == k;
        assert t[i].team == k;
      }
      if exists i :: 0 <= i < |t| && t[i].team == k {
        var i :| 0 <= i < |t| && t[i].team == k;
        assert EntryTeams(e)[i] == k;
      }
    }
  }

  /** The team table lists each team once, in ascending order of team code. */
  lemma TeamTableAscending(bat: seq<BattingRow>, bowl: seq<BowlingRow>)
    ensures forall i, j :: 0 <= i < j < |TeamPerformance(bat, bowl)| ==>
              Less(TeamPerformance(bat, bowl)[i].team, TeamPerformance(bat, bowl)[j].team)
    ensures forall i, j :: 0 <= i < j < |TeamPerformance(bat, bowl)| ==>
              TeamPerformance(bat, bowl)[i].team != TeamPerformance(bat, bowl)[j].team
  {
    var r, w := GroupSum(RunsByTeam(bat)), GroupSum(WicketsByTeam(bowl));
    GroupSumSpec(RunsByTeam(bat));
    GroupSumSpec(WicketsByTeam(bowl));
    OuterJoinAscending(r, w);
    var j := OuterJoin(r, w);
    var p := FillNa(j);
    assert RowTeams(p) == JoinTeams(j);
    AscendingDistinct(RowTeams(p));
    assert forall i :: 0 <= i < |p| ==> p[i].team == RowTeams(p)[i];
  }

  /** The team table's teams are exactly the teams of the batting and the bowling rows. */
  lemma TeamTableKeys(bat: seq<BattingRow>, bowl: seq<BowlingRow>)
    ensures forall k :: k in RowTeams(TeamPerformance(bat, bowl)) <==>
              (exists i :: 0 <= i < |bat| && bat[i].team == k) ||
              (exists i :: 0 <= i < |bowl| && bowl[i].team == k)
  {
    var r, w := GroupSum(RunsByTeam(bat)), GroupSum(WicketsByTeam(bowl));
    GroupSumSpec(RunsByTeam(bat));
    GroupSumSpec(WicketsByTeam(bowl));
    RunsByTeamSpec(bat);
    WicketsByTeamSpec(bowl);
    OuterJoinKeys(r, w);
    assert RowTeams(FillNa(OuterJoin(r, w))) == JoinTeams(OuterJoin(r, w));
  }

  /**
   * A team's Total_Runs is the runs of its batting rows and its
   * Total_Wickets the wickets of its bowling rows, 0 for a side it has
   * no row in.
   */
  lemma TeamTableValues(bat: seq<BattingRow>, bowl: seq<BowlingRow>)
    ensures forall i :: 0 <= i < |TeamPerformance(bat, bowl)| ==>
              TeamPerformance(bat, bowl)[i].totalRuns == TeamRuns(bat, TeamPerformance(bat, bowl)[i].team) &&
              TeamPerformance(bat, bowl)[i].totalWickets == TeamWickets(bowl, TeamPerformance(bat, bowl)[i].team)
  {
    var r, w := GroupSum(RunsByTeam(bat)), GroupSum(WicketsByTeam(bowl));
    var j := OuterJoin(r, w);
    var p := FillNa(j);
    GroupSumSpec(RunsByTeam(bat));
    GroupSumSpec(WicketsByTeam(bowl));
    RunsByTeamSpec(bat);
    WicketsByTeamSpec(bowl);
    OuterJoinValues(r, w);
    forall i | 0 <= i < |p|
      ensures p[i].totalRuns == TeamRuns(bat, p[i].team) && p[i].totalWickets == TeamWickets(bowl, p[i].team)
    {
      var k := p[i].team;
      assert k == j[i].team;
      if k !in EntryTeams(r) {
        TeamSumAbsent(r, k);
      }
      if k !in EntryTeams(w) {
        TeamSumAbsent(w, k);
      }
    }
  }

  /**
   * fillna(0) on the team table: a team with no batting row has
   * Total_Runs 0, and a team with no bowling row has Total_Wickets 0.
   */
  lemma TeamTableZeroFill(bat: seq<BattingRow>, bowl: seq<BowlingRow>)
    ensures forall i :: 0 <= i < |TeamPerformance(bat, bowl)| ==>
              (forall j :: 0 <= j < |bat| ==> bat[j].team != TeamPerformance(bat, bowl)[i].team) ==>
                TeamPerformance(bat, bowl)[i].totalRuns == 0
    ensures forall i :: 0 <= i < |TeamPerformance(bat, bowl)| ==>
              (forall j :: 0 <= j < |bowl| ==> bowl[j].team != TeamPerformance(bat, bowl)[i].team) ==>
                TeamPerformance(bat, bowl)[i].totalWickets == 0
  {
    var p := TeamPerformance(bat, bowl);
    TeamTableValues(bat, bowl);
    forall i | 0 <= i < |p| && (forall j :: 0 <= j < |bat| ==> bat[j].team != p[i].team)
      ensures p[i].totalRuns == 0
    {
      TeamRunsAbsent(bat, p[i].team);
    }
    forall i | 0 <= i < |p| && (forall j :: 0 <= j < |bowl| ==> bowl[j].team != p[i].team)
      ensures p[i].totalWickets == 0
    {
      TeamWicketsAbsent(bowl, p[i].team);
    }
  }

  /** Conservation: the Total_Runs and Total_Wickets columns add up to the tables' totals. */
  lemma TeamTableTotals(bat: seq<BattingRow>, bowl: seq<BowlingRow>)
    ensures RunsTotal(TeamPerformance(bat, bowl)) == TotalRuns(bat)
    ensures WicketsTotal(TeamPerformance(bat, bowl)) == TotalWickets(bowl)
  {
    GroupSumSpec(RunsByTeam(bat));
    GroupSumSpec(WicketsByTeam(bowl));
    RunsByTeamSpec(bat);
    WicketsByTeamSpec(bowl);
    JoinTotals(GroupSum(RunsByTeam(bat)), GroupSum(WicketsByTeam(bowl)));
  }

  /** team_runs for the literal data: one entry per batting team, sorted by code. */
  lemma LiteralTeamRuns()
    ensures GroupSum(RunsByTeam(BATTING)) ==
      [Entry("GT", 759), Entry("KKR", 580), Entry("LSG", 600), Entry("MI", 717), Entry("RCB", 657)]
  {
    var e := RunsByTeam(BATTING);
    assert e == [Entry("GT", 759), Entry("MI", 717), Entry("RCB", 657), Entry("LSG", 600), Entry("KKR", 580)];
    assert e[3..][1..] == e[4..] && e[2..][1..] == e[3..] && e[1..][1..] == e[2..];
    assert GroupSum(e[4..]) == [Entry("KKR", 580)];
    assert GroupSum(e[3..]) == [Entry("KKR", 580), Entry("LSG", 600)] by {
      assert Less("KKR", "LSG") && !Less("LSG", "KKR");
      assert Insert([Entry("KKR", 580)], "LSG", 600) == [Entry("KKR", 580), Entry("LSG", 600)];
    }
    assert GroupSum(e[2..]) == [Entry("KKR", 580), Entry("LSG", 600), Entry("RCB", 657)] by {
      assert Less("LSG", "RCB") && !Less("RCB", "LSG") && !Less("RCB", "KKR");
      assert Insert([Entry("LSG", 600)], "RCB", 657) == [Entry("LSG", 600), Entry("RCB", 657)];
    }
    assert GroupSum(e[1..]) == [Entry("KKR", 580), Entry("LSG", 600), Entry("MI", 717), Entry("RCB", 657)] by {
      assert Less("MI", "RCB") && !Less("MI", "LSG") && !Less("MI", "KKR");
      assert Insert([Entry("RCB", 657)], "MI", 717) == [Entry("MI", 717), Entry("RCB", 657)];
      assert Insert([Entry("LSG", 600), Entry("RCB", 657)], "MI", 717)
          == [Entry("LSG", 600), Entry("MI", 717), Entry("RCB", 657)];
    }
    assert Less("GT", "KKR");
  }

  /** team_wickets for the literal data: RCB's two bowlers add up to 35. */
  lemma LiteralTeamWickets()
    ensures GroupSum(WicketsByTeam(BOWLING)) ==
      [Entry("CSK", 15), Entry("DC", 14), Entry("GT", 25), Entry("RCB", 35)]
  {
    var f := WicketsByTeam(BOWLING);
    assert f == [Entry("GT", 25), Entry("RCB", 22), Entry("CSK", 15), Entry("DC", 14), Entry("RCB", 13)];
    assert f[3..][1..] == f[4..] && f[2..][1..] == f[3..] && f[1..][1..] == f[2..];
    assert GroupSum(f[4..]) == [Entry("RCB", 13)];
    assert GroupSum(f[3..]) == [Entry("DC", 14), Entry("RCB", 13)] by {
      assert Less("DC", "RCB");
    }
    assert GroupSum(f[2..]) == [Entry("CSK", 15), Entry("DC", 14), Entry("RCB", 13)] by {
      assert Less("CSK", "DC");
    }
    assert GroupSum(f[1..]) == [Entry("CSK", 15), Entry("DC", 14), Entry("RCB", 35)] by {
      assert !Less("RCB", "CSK") && !Less("RCB", "DC");
      assert Insert([Entry("RCB", 13)], "RCB", 22) == [Entry("RCB", 35)];
      assert Insert([Entry("DC", 14), Entry("RCB", 13)], "RCB", 22) == [Entry("DC", 14), Entry("RCB", 35)];
    }
    assert !Less("GT", "CSK") && !Less("GT", "DC") && Less("GT", "RCB");
    assert Insert([Entry("RCB", 35)], "GT", 25) == [Entry("GT", 25), Entry("RCB", 35)];
    assert Insert([Entry("DC", 14), Entry("RCB", 35)], "GT", 25) == [Entry("DC", 14), Entry("GT", 25), Entry("RCB", 35)];
  }

  /** The team table of the literal data: RCB = (657, 35), CSK = (0, 15), MI = (717, 0). */
  lemma LiteralTeamTable()
    ensures TeamPerformance(BATTING, BOWLING) == [
      TeamRow("CSK", 0, 15), TeamRow("DC", 0, 14), TeamRow("GT", 759, 25), TeamRow("KKR", 580, 0),
      TeamRow("LSG", 600, 0), TeamRow("MI", 717, 0), TeamRow("RCB", 657, 35)]
  {
    LiteralTeamRuns();
    LiteralTeamWickets();
    var r := [Entry("GT", 759), Entry("KKR", 580), Entry("LSG", 600), Entry("MI", 717), Entry("RCB", 657)];
    var w := [Entry("CSK", 15), Entry("DC", 14), Entry("GT", 25), Entry("RCB", 35)];
    assert r[1..][1..] == r[2..] && r[2..][1..] == r[3..] && r[3..][1..] == r[4..];
    assert w[1..][1..] == w[2..] && w[2..][1..] == w[3..];
    var j7 := [JoinedRow("RCB", Some(657), Some(35))];
    assert OuterJoin(r[4..], w[3..]) == j7 by {
      assert r[4..][1..] == [] && w[3..][1..] == [];
      LessIrreflexive("RCB");
    }
    var j6 := [JoinedRow("MI", Some(717), None)] + j7;
    assert OuterJoin(r[3..], w[3..]) == j6 by {
      assert Less("MI", "RCB");
    }
    var j5 := [JoinedRow("LSG", Some(600), None)] + j6;
    assert OuterJoin(r[2..], w[3..]) == j5 by {
      assert Less("LSG", "RCB");
    }
    var j4 := [JoinedRow("KKR", Some(580), None)] + j5;
    assert OuterJoin(r[1..], w[3..]) == j4 by {
      assert Less("KKR", "RCB");
    }
    var j3 := [JoinedRow("GT", Some(759), Some(25))] + j4;
    assert OuterJoin(r, w[2..]) == j3 by {
      LessIrreflexive("GT");
    }
    var j2 := [JoinedRow("DC", None, Some(14))] + j3;
    assert OuterJoin(r, w[1..]) == j2 by {
      assert Less("DC", "GT");
    }
    var j1 := [JoinedRow("CSK", None, Some(15))] + j2;
    assert OuterJoin(r, w) == j1 by {
      assert Less("CSK", "GT");
    }
    assert FillNa(j1) == [
      TeamRow("CSK", 0, 15), TeamRow("DC", 0, 14), TeamRow("GT", 759, 25), TeamRow("KKR", 580, 0),
      TeamRow("LSG", 600, 0), TeamRow("MI", 717, 0), TeamRow("RCB", 657, 35)];
  }
}
