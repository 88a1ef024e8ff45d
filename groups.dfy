/** A group of the group stage: its teams, the round robin they play, and
    the standings computed afterwards from snapshots of the teams. */
module Groups {
  import opened Js
  import opened Scores
  import opened Teams
  import opened RoundRobin
  import opened Ranking

  /** The sort and tie key of a snapshot. */
  function Points(s: TeamStats): int
  {
    s.points
  }

  /** `s` holds a win entry against the team `other` names. */
  predicate HasWinOver(s: TeamStats, other: TeamStats)
  {
    exists m :: m in s.winMatches && m.opponent == other.name
  }

  /** The head-to-head rule for two snapshots with equal points: the lower
      one moves up when it beat the upper one and the upper one did not
      beat it. */
  predicate GroupPrefers(current: TeamStats, next: TeamStats)
  {
    !HasWinOver(current, next) && HasWinOver(next, current)
  }

  function WithGroupRanks(s: seq<TeamStats>): (r: seq<TeamStats>)
    ensures |r| == |s|
    ensures forall k :: 0 <= k < |s| ==> r[k] == s[k].(groupRank := Some(k + 1))
  {
    seq(|s|, k requires 0 <= k < |s| => s[k].(groupRank := Some(k + 1)))
  }

  function ClearGroupRanks(s: seq<TeamStats>): (r: seq<TeamStats>)
    ensures |r| == |s|
    ensures forall k :: 0 <= k < |s| ==> r[k] == s[k].(groupRank := None)
  {
    seq(|s|, k requires 0 <= k < |s| => s[k].(groupRank := None))
  }

  /** The standings made from the snapshots `s` of the points-sorted teams:
      one tie pass with the head-to-head rule, then rank k + 1 at index k. */
  function Standings(s: seq<TeamStats>): (r: seq<TeamStats>)
    ensures forall k :: 0 <= k < |r| ==> r[k].groupRank == Some(k + 1)
  {
    WithGroupRanks(TiePass(s, Points, GroupPrefers, 0))
  }

  /** Entry `k` of a list, `undefined` past its end. */
  function Place(s: seq<TeamStats>, k: nat): Option<TeamStats>
  {
    if k < |s| then Some(s[k]) else None
  }

  /** The points of each team at the moment of sorting. */
  function PointsMap(ts: seq<Team>): map<Team, int>
    reads ts
  {
    map t | t in ts :: t.points
  }

  function PointsKey(m: map<Team, int>): Team -> int
  {
    t => if t in m then m[t] else 0
  }

  /** `teams.sort((a, b) => b.points - a.points)`: the stable sort of the
      team list by descending points. */
  function ByPoints(ts: seq<Team>): seq<Team>
    reads ts
  {
    SortDesc(ts, PointsKey(PointsMap(ts)))
  }

  /** The sorted team list holds the same teams, with points non-increasing. */
  lemma ByPointsSortsAndPermutes(ts: seq<Team>)
    ensures multiset(ByPoints(ts)) == multiset(ts)
    ensures forall i, j :: 0 <= i < j < |ByPoints(ts)| ==> ByPoints(ts)[i].points >= ByPoints(ts)[j].points
  {
    var key := PointsKey(PointsMap(ts));
    var r := ByPoints(ts);
    SortDescSortsAndPermutes(ts, key);
    forall i, j | 0 <= i < j < |r|
      ensures r[i].points >= r[j].points
    {
      assert r[i] in multiset(ts) && r[j] in multiset(ts);
      assert key(r[i]) == r[i].points && key(r[j]) == r[j].points;
    }
  }

  /** Sorting a team list without repeats gives one without repeats. */
  lemma ByPointsKeepsDistinct(ts: seq<Team>)
    ensures Distinct(ts) ==> Distinct(ByPoints(ts))
  {
    ByPointsSortsAndPermutes(ts);
    if Distinct(ts) {
      PermutationKeepsDistinct(ts, ByPoints(ts));
    }
  }

  /** For snapshots not ranked yet and sorted by points, the standings are a
      re-ordering of them with points still non-increasing, and the entry at
      index k carries rank k + 1. */
  lemma StandingsInvariants(s: seq<TeamStats>)
    requires forall k :: 0 <= k < |s| ==> s[k].groupRank == None
    requires NonIncreasing(s, Points)
    ensures |Standings(s)| == |s|
    ensures forall k :: 0 <= k < |s| ==> Standings(s)[k].groupRank == Some(k + 1)
    ensures multiset(ClearGroupRanks(Standings(s))) == multiset(s)
    ensures NonIncreasing(Standings(s), Points)
  {
    var p := TiePass(s, Points, GroupPrefers, 0);
    TiePassKeepsKeys(s, Points, GroupPrefers, 0);
    TiePassPermutes(s, Points, GroupPrefers, 0);
    TiePassSorted(s, Points, GroupPrefers);
    forall k | 0 <= k < |p|
      ensures p[k].groupRank == None
    {
      assert p[k] in multiset(s);
    }
    assert ClearGroupRanks(Standings(s)) == p;
    var r := Standings(s);
    forall i, j | 0 <= i < j < |r|
      ensures Points(r[i]) >= Points(r[j])
    {
      assert Points(r[i]) == Points(p[i]) && Points(r[j]) == Points(p[j]);
    }
  }

  /** Two neighbours with equal points, both differing in points from the
      entries around them, are swapped exactly when the lower one beat the
      upper one and the upper one did not beat it; otherwise they keep their
      order. */
  lemma StandingsTieRule(s: seq<TeamStats>, i: nat)
    requires i + 1 < |s| && s[i].points == s[i + 1].points
    requires i > 0 ==> s[i - 1].points != s[i].points
    requires i + 2 < |s| ==> s[i + 2].points != s[i + 1].points
    ensures |Standings(s)| == |s|
    ensures GroupPrefers(s[i], s[i + 1]) ==>
      Standings(s)[i] == s[i + 1].(groupRank := Some(i + 1)) &&
      Standings(s)[i + 1] == s[i].(groupRank := Some(i + 2))
    ensures !GroupPrefers(s[i], s[i + 1]) ==>
      Standings(s)[i] == s[i].(groupRank := Some(i + 1)) &&
      Standings(s)[i + 1] == s[i + 1].(groupRank := Some(i + 2))
  {
    IsolatedTie(s, Points, GroupPrefers, 0, i);
  }

  /** A snapshot with its group rank cleared: everything the tie pass looks at. */
  function Unranked(x: TeamStats): TeamStats
  {
    x.(groupRank := None)
  }

  /** The head-to-head check and the points do not depend on the group rank. */
  lemma UnrankedAgrees(x: TeamStats, y: TeamStats, x': TeamStats, y': TeamStats)
    requires Unranked(x) == Unranked(x') && Unranked(y) == Unranked(y')
    ensures HasWinOver(x, y) == HasWinOver(x', y')
    ensures x.points == x'.points
    ensures forall r :: x.(groupRank := r) == x'.(groupRank := r)
  {
    assert x.winMatches == x'.winMatches && y.name == y'.name;
  }

  /** One iteration of the ranking loop of `setScoresToTeams` on the snapshot
      list: rank i + 1 at index i, then, on equal points with the next entry,
      the head-to-head check, which ranks the next entry or swaps the two. */
  function RankStep(a: seq<TeamStats>, i: nat): (r: seq<TeamStats>)
    requires i < |a|
    ensures |r| == |a|
  {
    var a1 := a[i := a[i].(groupRank := Some(i + 1))];
    if i + 1 < |a| && a1[i].points == a1[i + 1].points then
      var currentTeam, nextTeam := a1[i], a1[i + 1];
      var currentTeamWon := HasWinOver(currentTeam, nextTeam);
      var nextTeamWon := HasWinOver(nextTeam, currentTeam);
      if currentTeamWon && !nextTeamWon then
        a1[i + 1 := nextTeam.(groupRank := Some(i + 2))]
      else if !currentTeamWon && nextTeamWon then
        a1[i := nextTeam.(groupRank := Some(i + 1))][i + 1 := currentTeam.(groupRank := Some(i + 2))]
      else a1
    else a1
  }

  /** The loop state after i iterations against the tie pass `g` run to
      position i: entries before i are ranked, the others agree up to rank. */
  predicate RankedUpTo(a: seq<TeamStats>, g: seq<TeamStats>, i: nat)
  {
    |a| == |g| && i <= |a| &&
    (forall k :: 0 <= k < i ==> a[k] == g[k].(groupRank := Some(k + 1))) &&
    (forall k :: i <= k < |g| ==> Unranked(a[k]) == Unranked(g[k]))
  }

  /** One loop iteration follows one step of the tie pass. */
  lemma RankStepFollows(a: seq<TeamStats>, g: seq<TeamStats>, i: nat)
    requires RankedUpTo(a, g, i) && i < |a|
    ensures RankedUpTo(RankStep(a, i), if i + 1 < |g| then Step(g, Points, GroupPrefers, i) else g, i + 1)
  {
    var r := RankStep(a, i);
    if i + 1 < |g| {
      UnrankedAgrees(a[i], a[i + 1], g[i], g[i + 1]);
      UnrankedAgrees(a[i + 1], a[i], g[i + 1], g[i]);
      var g' := Step(g, Points, GroupPrefers, i);
      assert r[i] == g'[i].(groupRank := Some(i + 1));
      assert Unranked(r[i + 1]) == Unranked(g'[i + 1]);
    } else {
      UnrankedAgrees(a[i], g[i], g[i], g[i]);
    }
  }

  /** The ranking loop of `setScoresToTeams` over the snapshot array. */
  method RankStandings(teamStats: array<TeamStats>)
    modifies teamStats
    ensures teamStats[..] == Standings(old(teamStats[..]))
  {
    ghost var stats := teamStats[..];
    ghost var g := stats;
    var i := 0;
    while i < teamStats.Length
      invariant TiePass(g, Points, GroupPrefers, i) == TiePass(stats, Points, GroupPrefers, 0)
      invariant RankedUpTo(teamStats[..], g, i)
    {
      RankStepFollows(teamStats[..], g, i);
      RankAt(teamStats, i);
      if i + 1 < teamStats.Length {
        g := Step(g, Points, GroupPrefers, i);
      }
      i := i + 1;
    }
    assert teamStats[..] == WithGroupRanks(g);
  }

  /** The snapshots copied into a fresh array and ranked there, as
      `setScoresToTeams` does with `getTeamsStats()`. */
  method RankedStandings(stats: seq<TeamStats>) returns (ranked: seq<TeamStats>)
    ensures ranked == Standings(stats)
  {
    var teamStats := new TeamStats[|stats|](k requires 0 <= k < |stats| => stats[k]);
    assert teamStats[..] == stats;
    RankStandings(teamStats);
    ranked := teamStats[..];
  }

  /** The body of the ranking loop, in place on the array. */
  method RankAt(teamStats: array<TeamStats>, i: nat)
    requires i < teamStats.Length
    modifies teamStats
    ensures teamStats[..] == RankStep(old(teamStats[..]), i)
  {
    teamStats[i] := teamStats[i].(groupRank := Some(i + 1));
    if i + 1 < teamStats.Length && teamStats[i].points == teamStats[i + 1].points {
      var currentTeam, nextTeam := teamStats[i], teamStats[i + 1];
      var currentTeamWon := HasWinOver(currentTeam, nextTeam);
      var nextTeamWon := HasWinOver(nextTeam, currentTeam);
      if currentTeamWon && !nextTeamWon {
        teamStats[i + 1] := nextTeam.(groupRank := Some(i + 2));
      } else if !currentTeamWon && nextTeamWon {
        teamStats[i], teamStats[i + 1] := nextTeam.(groupRank := Some(i + 1)), currentTeam.(groupRank := Some(i + 2));
      }
    }
  }

  /** The entries team `k` writes down in round `i` of the round robin over
      `ts`: the head `ts[i]` plays every later team, the j-th match with
      the draw at position |ScheduleUpTo(i, |ts|)| + j of the stream; each
      later team plays the head once; earlier teams do not play. */
  function RoundOutcomes(ts: seq<Team>, draws: seq<MatchDraw>, i: nat, k: nat): seq<Outcome>
    requires i < |ts| && k < |ts| && |ScheduleUpTo(i + 1, |ts|)| <= |draws|
  {
    if k < i then []
    else if k == i then HeadRound(ts, draws, i)
    else [OpponentOutcome(ts[i], ts[k], draws[|ScheduleUpTo(i, |ts|)|..][k - i - 1])]
  }

  /** The head's entries in round `i`, read from the draws from the round's
      offset on. */
  function HeadRound(ts: seq<Team>, draws: seq<MatchDraw>, i: nat): seq<Outcome>
    requires i < |ts| && |ScheduleUpTo(i + 1, |ts|)| <= |draws|
  {
    HeadOutcomes(ts[i], ts[i + 1..], draws[|ScheduleUpTo(i, |ts|)|..])
  }

  /** The entries team `k` writes down over the first `m` rounds, in
      playing order. */
  function OutcomesUpTo(ts: seq<Team>, draws: seq<MatchDraw>, m: nat, k: nat): seq<Outcome>
    requires m <= |ts| && k < |ts| && |ScheduleUpTo(m, |ts|)| <= |draws|
  {
    if m == 0 then [] else OutcomesUpTo(ts, draws, m - 1, k) + RoundOutcomes(ts, draws, m - 1, k)
  }

  /** The number of rounds `startMatches` plays over `n` teams. */
  function RoundCount(n: nat): nat
  {
    if n == 0 then 0 else n - 1
  }

  /** The entries team `k` writes down over the whole round robin. */
  function RoundRobinOutcomes(ts: seq<Team>, draws: seq<MatchDraw>, k: nat): seq<Outcome>
    requires k < |ts| && |Schedule(|ts|)| <= |draws|
  {
    ScheduleUpToPrefix(RoundCount(|ts|), |ts|, |ts|);
    OutcomesUpTo(ts, draws, RoundCount(|ts|), k)
  }

  /** The position of the match between list positions i < j in the order
      of play, which is also the position of its draw in the stream. */
  function MatchIndex(n: nat, i: nat, j: nat): nat
    requires i < j
  {
    |ScheduleUpTo(i, n)| + (j - i - 1)
  }

  /** The match at `MatchIndex(n, i, j)` of the whole schedule is the one
      between positions `i` and `j`, with `i` the caller. */
  lemma MatchIndexInSchedule(n: nat, i: nat, j: nat)
    requires i < j < n
    ensures MatchIndex(n, i, j) < |Schedule(n)| && Schedule(n)[MatchIndex(n, i, j)] == (i, j)
  {
    RoundOffset(i, j - i - 1, n);
  }

  /** The entry team `k` writes down against team `j` in the round robin:
      the caller's entry when `k` comes first in the list, the opponent's
      entry when `j` does; the draw is the one at the match's position. */
  function Against(ts: seq<Team>, draws: seq<MatchDraw>, k: nat, j: nat): Outcome
    requires k < |ts| && j < |ts| && j != k && |Schedule(|ts|)| <= |draws|
  {
    if j < k then
      MatchIndexInSchedule(|ts|, j, k);
      OpponentOutcome(ts[j], ts[k], draws[MatchIndex(|ts|, j, k)])
    else
      MatchIndexInSchedule(|ts|, k, j);
      CallerOutcome(ts[k], ts[j], draws[MatchIndex(|ts|, k, j)])
  }

  /** Where team `k` keeps its entry against team `j`: the other teams in
      list order, `k` itself skipped. */
  function EntrySlot(k: nat, j: nat): nat
    requires j != k
  {
    if j < k then j else j - 1
  }

  /** After `m` rounds, a team that has not been the head yet holds one
      entry per round; a team that has holds one against every other team. */
  lemma {:induction false} OutcomesUpToLength(ts: seq<Team>, draws: seq<MatchDraw>, m: nat, k: nat)
    requires m <= |ts| && k < |ts| && |ScheduleUpTo(m, |ts|)| <= |draws|
    ensures |OutcomesUpTo(ts, draws, m, k)| == if k < m then |ts| - 1 else m
  {
    if m > 0 {
      ScheduleUpToPrefix(m - 1, m, |ts|);
      OutcomesUpToLength(ts, draws, m - 1, k);
    }
  }

  /** After `m` rounds, team `k` keeps its entry against team `j` at
      `EntrySlot(k, j)` once that match has been played, which is when one
      of the two has been the head. */
  lemma {:induction false} OutcomesUpToEntry(ts: seq<Team>, draws: seq<MatchDraw>, m: nat, k: nat, j: nat)
    requires m <= |ts| && k < |ts| && |Schedule(|ts|)| <= |draws| && |ScheduleUpTo(m, |ts|)| <= |draws|
    requires j < |ts| && j != k && (j < m || k < m)
    ensures EntrySlot(k, j) < |OutcomesUpTo(ts, draws, m, k)|
    ensures OutcomesUpTo(ts, draws, m, k)[EntrySlot(k, j)] == Against(ts, draws, k, j)
  {
    var i := m - 1;
    ScheduleUpToPrefix(i, m, |ts|);
    OutcomesUpToLength(ts, draws, i, k);
    var p, r := OutcomesUpTo(ts, draws, i, k), RoundOutcomes(ts, draws, i, k);
    assert OutcomesUpTo(ts, draws, m, k) == p + r;
    if k == i && j > k {
      HeadEntry(ts, draws, i, j);
      var q := j - k - 1;
      assert |p| == i && EntrySlot(k, j) == |p| + q && q < |r|;
      assert (p + r)[|p| + q] == r[q];
    } else if k > i && j == i {
      OpponentEntry(ts, draws, i, k);
      assert |p| == i && EntrySlot(k, j) == |p|;
      assert (p + r)[|p|] == r[0];
    } else {
      OutcomesUpToEntry(ts, draws, i, k, j);
      assert (p + r)[EntrySlot(k, j)] == p[EntrySlot(k, j)];
    }
  }

  /** In round `i` the head's entry against a later team `j` is its entry
      against `j` in the round robin. */
  lemma HeadEntry(ts: seq<Team>, draws: seq<MatchDraw>, i: nat, j: nat)
    requires i < j < |ts| && |Schedule(|ts|)| <= |draws| && |ScheduleUpTo(i + 1, |ts|)| <= |draws|
    ensures |RoundOutcomes(ts, draws, i, i)| == |ts| - 1 - i
    ensures RoundOutcomes(ts, draws, i, i)[j - i - 1] == Against(ts, draws, i, j)
  {
    var offset := |ScheduleUpTo(i, |ts|)|;
    assert ts[i + 1..][j - i - 1] == ts[j] && draws[offset..][j - i - 1] == draws[offset + (j - i - 1)];
  }

  /** In round `i` a later team `k` writes down one entry: against the head. */
  lemma OpponentEntry(ts: seq<Team>, draws: seq<MatchDraw>, i: nat, k: nat)
    requires i < k < |ts| && |Schedule(|ts|)| <= |draws| && |ScheduleUpTo(i + 1, |ts|)| <= |draws|
    ensures RoundOutcomes(ts, draws, i, k) == [Against(ts, draws, k, i)]
  {
    var q := |ScheduleUpTo(i, |ts|)| + (k - i - 1);
    assert MatchIndex(|ts|, i, k) == q;
    assert draws[|ScheduleUpTo(i, |ts|)|..][k - i - 1] == draws[q];
    assert Against(ts, draws, k, i) == OpponentOutcome(ts[i], ts[k], draws[q]);
  }

  /** Over the whole round robin every team holds exactly one entry against
      each other team of the group, in list order of the opponents, naming
      that opponent. */
  lemma RoundRobinShape(ts: seq<Team>, draws: seq<MatchDraw>, k: nat)
    requires k < |ts| && |Schedule(|ts|)| <= |draws|
    ensures |RoundRobinOutcomes(ts, draws, k)| == |ts| - 1
    ensures |Wins(RoundRobinOutcomes(ts, draws, k))| + |Losses(RoundRobinOutcomes(ts, draws, k))| == |ts| - 1
    ensures forall j :: 0 <= j < |ts| && j != k ==>
      RoundRobinOutcomes(ts, draws, k)[EntrySlot(k, j)] == Against(ts, draws, k, j) &&
      Against(ts, draws, k, j).record.opponent == ts[j].name
  {
    ScheduleUpToPrefix(RoundCount(|ts|), |ts|, |ts|);
    OutcomesUpToLength(ts, draws, RoundCount(|ts|), k);
    WinsAndLosses(RoundRobinOutcomes(ts, draws, k));
    forall j | 0 <= j < |ts| && j != k
      ensures RoundRobinOutcomes(ts, draws, k)[EntrySlot(k, j)] == Against(ts, draws, k, j)
      ensures Against(ts, draws, k, j).record.opponent == ts[j].name
    {
      OutcomesUpToEntry(ts, draws, RoundCount(|ts|), k, j);
      HeadToHead(ts, draws, k, j);
    }
  }

  /** The two entries of the match between teams `k` and `j` mirror each
      other: exactly one is a win, each names the other team, and the
      differences are opposite. */
  lemma HeadToHead(ts: seq<Team>, draws: seq<MatchDraw>, k: nat, j: nat)
    requires k < |ts| && j < |ts| && j != k && |Schedule(|ts|)| <= |draws|
    ensures Against(ts, draws, k, j).Won? <==> Against(ts, draws, j, k).Lost?
    ensures Against(ts, draws, k, j).record.opponent == ts[j].name
    ensures Against(ts, draws, j, k).record.opponent == ts[k].name
    ensures Against(ts, draws, k, j).record.difference == -Against(ts, draws, j, k).record.difference
  {
    if k < j {
      MatchIndexInSchedule(|ts|, k, j);
      MirroredOutcomes(ts[k], ts[j], draws[MatchIndex(|ts|, k, j)]);
    } else {
      MatchIndexInSchedule(|ts|, j, k);
      MirroredOutcomes(ts[j], ts[k], draws[MatchIndex(|ts|, j, k)]);
    }
  }

  /** The snapshots `now` of the teams `ts` are those of `start` after the
      first `i` rounds of the round robin. */
  predicate Progressed(now: seq<TeamStats>, start: seq<TeamStats>, ts: seq<Team>, draws: seq<MatchDraw>, i: nat)
  {
    |now| == |ts| && |start| == |ts| && i <= |ts| && |ScheduleUpTo(i, |ts|)| <= |draws| &&
    forall k {:trigger PlayedUpTo(now[k], start[k], ts, draws, i, k)} :: 0 <= k < |ts| ==>
      PlayedUpTo(now[k], start[k], ts, draws, i, k)
  }

  /** The snapshot `now` of team `k` is `start` after its entries of the
      first `i` rounds. */
  predicate PlayedUpTo(now: TeamStats, start: TeamStats, ts: seq<Team>, draws: seq<MatchDraw>, i: nat, k: nat)
  {
    i <= |ts| && k < |ts| && |ScheduleUpTo(i, |ts|)| <= |draws| &&
    now == Replay(start, OutcomesUpTo(ts, draws, i, k))
  }

  /** What round `i` does to the snapshots `mid` of the teams `ts`, giving
      `now`: teams before the head do not play, the head gains its entries
      against every later team, each later team its entry against the head. */
  predicate RoundStepped(now: seq<TeamStats>, mid: seq<TeamStats>, ts: seq<Team>, draws: seq<MatchDraw>, i: nat)
  {
    |now| == |ts| && |mid| == |ts| && i < |ts| && |ScheduleUpTo(i + 1, |ts|)| <= |draws| &&
    |ScheduleUpTo(i, |ts|)| <= |draws| &&
    (forall k :: 0 <= k < i ==> now[k] == mid[k]) &&
    now[i] == Replay(mid[i], HeadOutcomes(ts[i], ts[i + 1..], draws[|ScheduleUpTo(i, |ts|)|..])) &&
    forall k :: i < k < |ts| ==>
      now[k] == After(mid[k], OpponentOutcome(ts[i], ts[k], draws[|ScheduleUpTo(i, |ts|)|..][k - i - 1]))
  }

  /** One round of the round robin: the shifted-off head `chosenTeam`, at
      position `i` of the team list `ts`, plays every remaining team with
      the draws of that round. Each team gains the entries of round `i`. */
  method PlayRound(chosenTeam: Team, remaining: seq<Team>, roundDraws: seq<MatchDraw>, ghost ts: seq<Team>,
    ghost i: nat, ghost draws: seq<MatchDraw>)
    returns (result: seq<string>)
    requires i < |ts| && chosenTeam == ts[i] && remaining == ts[i + 1..]
    requires |ScheduleUpTo(i, |ts|)| <= |ScheduleUpTo(i + 1, |ts|)| <= |draws|
    requires roundDraws == draws[|ScheduleUpTo(i, |ts|)|..]
    requires forall a, b :: 0 <= a < b < |ts| ==> ts[a] != ts[b]
    modifies chosenTeam, remaining
    ensures |result| == |remaining|
    ensures forall j :: 0 <= j < |remaining| ==> result[j] == WinnerName(chosenTeam, remaining[j], roundDraws[j])
    ensures RoundStepped(StatsOf(ts), old(StatsOf(ts)), ts, draws, i)
  {
    ghost var mid := StatsOf(ts);
    result := chosenTeam.PlayWithRest(remaining, roundDraws);
    ghost var now := StatsOf(ts);
    forall k | 0 <= k < i
      ensures now[k] == mid[k]
    {
      NotInSuffix(ts, k, i);
    }
    forall k | i < k < |ts|
      ensures now[k] == After(mid[k], OpponentOutcome(ts[i], ts[k], roundDraws[k - i - 1]))
    {
      assert remaining[k - i - 1] == ts[k];
    }
    RoundSteps(now, mid, ts, draws, i, roundDraws);
  }

  /** The snapshots after round `i`, stated entry by entry, make one step
      of the round robin. */
  lemma RoundSteps(now: seq<TeamStats>, mid: seq<TeamStats>, ts: seq<Team>, draws: seq<MatchDraw>, i: nat,
    roundDraws: seq<MatchDraw>)
    requires |now| == |ts| && |mid| == |ts| && i < |ts|
    requires |ScheduleUpTo(i, |ts|)| <= |ScheduleUpTo(i + 1, |ts|)| <= |draws|
    requires roundDraws == draws[|ScheduleUpTo(i, |ts|)|..] && |roundDraws| >= |ts| - 1 - i
    requires forall k :: 0 <= k < i ==> now[k] == mid[k]
    requires now[i] == Replay(mid[i], HeadOutcomes(ts[i], ts[i + 1..], roundDraws))
    requires forall k :: i < k < |ts| ==> now[k] == After(mid[k], OpponentOutcome(ts[i], ts[k], roundDraws[k - i - 1]))
    ensures RoundStepped(now, mid, ts, draws, i)
  {
  }

  /** The loop of `startMatches` over a copy of the team list `ts`: the
      head is shifted off and plays every remaining team, while more than
      one remains. */
  method PlayRounds(ts: seq<Team>, draws: seq<MatchDraw>, ghost start: seq<TeamStats>)
    returns (results: seq<seq<string>>)
    requires |draws| >= |Schedule(|ts|)|
    requires forall a, b :: 0 <= a < b < |ts| ==> ts[a] != ts[b]
    requires start == StatsOf(ts)
    modifies ts
    ensures |results| == RoundCount(|ts|)
    ensures RoundsPlayed(results, ts, draws)
    ensures Progressed(StatsOf(ts), start, ts, draws, RoundCount(|ts|))
  {
    var n := |ts|;
    var remaining := ts;
    results := [];
    var offset, i := 0, 0;
    while |remaining| > 1
      invariant i == |results| && i <= n && remaining == ts[i..]
      invariant n > 0 ==> i < n
      invariant offset == |ScheduleUpTo(i, n)|
      invariant RoundsPlayed(results, ts, draws)
      invariant Progressed(StatsOf(ts), start, ts, draws, i)
    {
      var result := PlayRoundAt(ts, remaining, results, i, offset, draws, start);
      results := results + [result];
      offset, i := offset + |result|, i + 1;
      remaining := remaining[1..];
    }
  }

  /** One pass of the loop of `startMatches`: the head of `remaining`, at
      position `i` of `ts`, is shifted off and plays the rest with the
      draws from `offset` on, on top of the first `i` rounds. */
  method PlayRoundAt(ghost ts: seq<Team>, remaining: seq<Team>, results: seq<seq<string>>, i: nat, offset: nat,
    draws: seq<MatchDraw>, ghost start: seq<TeamStats>)
    returns (result: seq<string>)
    requires i == |results| && RoundsPlayed(results, ts, draws)
    requires i + 1 < |ts| && remaining == ts[i..]
    requires offset == |ScheduleUpTo(i, |ts|)| && |draws| >= |Schedule(|ts|)|
    requires forall a, b :: 0 <= a < b < |ts| ==> ts[a] != ts[b]
    requires Progressed(StatsOf(ts), start, ts, draws, i)
    modifies remaining
    ensures |result| == |ts| - 1 - i && offset + |result| == |ScheduleUpTo(i + 1, |ts|)|
    ensures RoundsPlayed(results + [result], ts, draws)
    ensures Progressed(StatsOf(ts), start, ts, draws, i + 1)
  {
    var n := |ts|;
    RoundFits(i, n, |draws|);
    ScheduleUpToPrefix(i, i + 1, n);
    ScheduleUpToPrefix(i + 1, n, n);
    var chosenTeam, rest := remaining[0], remaining[1..];
    assert chosenTeam == ts[i] && rest == ts[i + 1..];
    result := PlayAndCompose(chosenTeam, rest, draws[offset..], ts, i, draws, start);
    NextRound(results, result, ts, draws, i, offset);
  }

  /** Round `i` on top of the first `i` rounds, as far as the teams are
      concerned. */
  method PlayAndCompose(chosenTeam: Team, rest: seq<Team>, roundDraws: seq<MatchDraw>, ghost ts: seq<Team>,
    ghost i: nat, ghost draws: seq<MatchDraw>, ghost start: seq<TeamStats>)
    returns (result: seq<string>)
    requires i < |ts| && chosenTeam == ts[i] && rest == ts[i + 1..]
    requires |ScheduleUpTo(i, |ts|)| <= |ScheduleUpTo(i + 1, |ts|)| <= |draws|
    requires roundDraws == draws[|ScheduleUpTo(i, |ts|)|..]
    requires forall a, b :: 0 <= a < b < |ts| ==> ts[a] != ts[b]
    requires Progressed(StatsOf(ts), start, ts, draws, i)
    modifies chosenTeam, rest
    ensures |result| == |rest|
    ensures forall j :: 0 <= j < |rest| ==> result[j] == WinnerName(chosenTeam, rest[j], roundDraws[j])
    ensures Progressed(StatsOf(ts), start, ts, draws, i + 1)
  {
    ghost var mid := StatsOf(ts);
    result := PlayRound(chosenTeam, rest, roundDraws, ts, i, draws);
    ComposeRounds(start, mid, StatsOf(ts), ts, draws, i);
  }

  /** A team of a list without repeats is not among the teams after position `i`. */
  lemma NotInSuffix(ts: seq<Team>, k: nat, i: nat)
    requires k <= i < |ts|
    requires forall a, b :: 0 <= a < b < |ts| ==> ts[a] != ts[b]
    ensures ts[k] !in ts[i + 1..]
  {
  }

  /** One more round on top of `i` finished rounds makes `i + 1`: teams
      before the head did not play, the head gained its entries against
      every later team, each later team its entry against the head. */
  lemma ComposeRounds(start: seq<TeamStats>, mid: seq<TeamStats>, now: seq<TeamStats>, ts: seq<Team>,
    draws: seq<MatchDraw>, i: nat)
    requires Progressed(mid, start, ts, draws, i) && RoundStepped(now, mid, ts, draws, i)
    ensures Progressed(now, start, ts, draws, i + 1)
  {
    forall k | 0 <= k < |ts|
      ensures PlayedUpTo(now[k], start[k], ts, draws, i + 1, k)
    {
      RoundEntry(ts, draws, i, k, mid[k], now[k]);
      ReplayRound(ts, draws, i, k, start[k], mid[k], now[k]);
    }
  }

  /** A team's entries up to round `i`, then its entries of round `i`, are
      its entries up to round `i + 1`. */
  lemma ReplayRound(ts: seq<Team>, draws: seq<MatchDraw>, i: nat, k: nat, start: TeamStats, mid: TeamStats,
    now: TeamStats)
    requires i < |ts| && |ScheduleUpTo(i + 1, |ts|)| <= |draws|
    requires PlayedUpTo(mid, start, ts, draws, i, k)
    requires now == Replay(mid, RoundOutcomes(ts, draws, i, k))
    ensures PlayedUpTo(now, start, ts, draws, i + 1, k)
  {
    ReplayAppend(start, OutcomesUpTo(ts, draws, i, k), RoundOutcomes(ts, draws, i, k));
  }

  /** After the last round a team's snapshot is its starting snapshot after
      its round-robin entries, and it is consistent if it started so. */
  lemma RoundRobinDone(now: TeamStats, start: TeamStats, ts: seq<Team>, draws: seq<MatchDraw>, k: nat)
    requires k < |ts| && |Schedule(|ts|)| <= |draws|
    requires PlayedUpTo(now, start, ts, draws, RoundCount(|ts|), k)
    ensures now == Replay(start, RoundRobinOutcomes(ts, draws, k))
    ensures Consistent(start) ==> Consistent(now)
  {
    if Consistent(start) {
      ReplayConsistent(start, RoundRobinOutcomes(ts, draws, k));
    }
  }

  /** What team `k` gained in round `i` is that round's entries for it. */
  lemma RoundEntry(ts: seq<Team>, draws: seq<MatchDraw>, i: nat, k: nat, before: TeamStats, after: TeamStats)
    requires i < |ts| && k < |ts| && |ScheduleUpTo(i + 1, |ts|)| <= |draws|
    requires k < i ==> after == before
    requires k == i ==> after == Replay(before, HeadOutcomes(ts[i], ts[i + 1..], draws[|ScheduleUpTo(i, |ts|)|..]))
    requires k > i ==>
      after == After(before, OpponentOutcome(ts[i], ts[k], draws[|ScheduleUpTo(i, |ts|)|..][k - i - 1]))
    ensures after == Replay(before, RoundOutcomes(ts, draws, i, k))
  {
    var offset := |ScheduleUpTo(i, |ts|)|;
    if k < i {
      assert RoundOutcomes(ts, draws, i, k) == [];
    } else if k == i {
      assert RoundOutcomes(ts, draws, i, k) == HeadOutcomes(ts[i], ts[i + 1..], draws[offset..]);
    } else {
      assert ScheduleUpTo(i + 1, |ts|) == ScheduleUpTo(i, |ts|) + Round(i, |ts|);
      var o := OpponentOutcome(ts[i], ts[k], draws[offset..][k - i - 1]);
      assert RoundOutcomes(ts, draws, i, k) == [o];
      assert [o][..0] == [];
    }
  }

  /** Round `i` over `n` teams needs the draws up to the end of that round. */
  lemma RoundFits(i: nat, n: nat, available: nat)
    requires i + 1 < n && |Schedule(n)| <= available
    ensures |ScheduleUpTo(i, n)| + (n - 1 - i) <= available
  {
    ScheduleUpToPrefix(i + 1, n, n);
    assert ScheduleUpTo(i + 1, n) == ScheduleUpTo(i, n) + Round(i, n);
  }

  /** What `playWithRest` returns for round `i` is that round's result. */
  lemma RoundResult(result: seq<string>, ts: seq<Team>, i: nat, draws: seq<MatchDraw>, offset: nat)
    requires i + 1 < |ts| && offset == |ScheduleUpTo(i, |ts|)| && offset + (|ts| - 1 - i) <= |draws|
    requires |result| == |ts| - 1 - i
    requires forall j :: 0 <= j < |result| ==> result[j] == WinnerName(ts[i], ts[i + 1..][j], draws[offset..][j])
    ensures RoundPlayed(result, ts, i, draws)
  {
    ScheduleUpToPrefix(i + 1, |ts|, |ts|);
    assert ScheduleUpTo(i + 1, |ts|) == ScheduleUpTo(i, |ts|) + Round(i, |ts|);
    forall j | 0 <= j < |result|
      ensures result[j] == WinnerName(ts[i], ts[i + 1 + j], draws[offset + j])
    {
      assert ts[i + 1..][j] == ts[i + 1 + j] && draws[offset..][j] == draws[offset + j];
    }
  }

  /** The rounds in `results` are rounds 0 .. |results| - 1 of the round robin. */
  predicate RoundsPlayed(results: seq<seq<string>>, ts: seq<Team>, draws: seq<MatchDraw>)
  {
    forall i :: 0 <= i < |results| ==> RoundPlayed(results[i], ts, i, draws)
  }

  /** What `playWithRest` returns for the next round extends the rounds
      played so far, and the next round starts where this one ends. */
  lemma NextRound(results: seq<seq<string>>, result: seq<string>, ts: seq<Team>, draws: seq<MatchDraw>, i: nat,
    offset: nat)
    requires i == |results| && i + 1 < |ts| && offset == |ScheduleUpTo(i, |ts|)| && offset + (|ts| - 1 - i) <= |draws|
    requires RoundsPlayed(results, ts, draws)
    requires |result| == |ts| - 1 - i
    requires forall j :: 0 <= j < |result| ==> result[j] == WinnerName(ts[i], ts[i + 1..][j], draws[offset..][j])
    ensures RoundsPlayed(results + [result], ts, draws)
    ensures offset + |result| == |ScheduleUpTo(i + 1, |ts|)|
  {
    assert ScheduleUpTo(i + 1, |ts|) == ScheduleUpTo(i, |ts|) + Round(i, |ts|);
    RoundResult(result, ts, i, draws, offset);
    var done := results + [result];
    forall k | 0 <= k < |done|
      ensures RoundPlayed(done[k], ts, k, draws)
    {
      if k < i {
        assert done[k] == results[k];
      } else {
        assert done[k] == result;
      }
    }
  }

  /** `r` holds the winners' names of round `i` over the team list `ts`:
      the team at `i` against each later team in order, the j-th match
      played with the draw at position |ScheduleUpTo(i, |ts|)| + j of the
      stream, which is where that match sits in `Schedule(|ts|)`. */
  predicate RoundPlayed(r: seq<string>, ts: seq<Team>, i: nat, draws: seq<MatchDraw>)
  {
    i < |ts| && |r| == |ts| - 1 - i && |ScheduleUpTo(i + 1, |ts|)| <= |draws| &&
    forall j :: 0 <= j < |r| ==>
      r[j] == WinnerName(ts[i], ts[i + 1 + j], draws[|ScheduleUpTo(i, |ts|)| + j])
  }

  class Group {
    const name: string
    var teams: seq<Team>
    var firstPlaced: Option<TeamStats>
    var secondPlaced: Option<TeamStats>
    var thirdPlaced: Option<TeamStats>
    var fourthPlaced: Option<TeamStats>

    /** No team appears twice in the group. */
    ghost predicate Valid()
      reads this
    {
      Distinct(teams)
    }

    /** A group named `name` with a fresh team for each roster entry. */
    constructor (name: string, roster: seq<RosterEntry>)
      ensures this.name == name && |teams| == |roster|
      ensures forall k :: 0 <= k < |teams| ==>
        fresh(teams[k]) && teams[k].name == roster[k].name && teams[k].code == roster[k].code &&
        teams[k].rank == roster[k].rank && teams[k].group == name &&
        teams[k].IsFresh() && teams[k].Valid()
      ensures Valid()
      ensures firstPlaced == None && secondPlaced == None && thirdPlaced == None && fourthPlaced == None
    {
      var ts: seq<Team> := [];
      var k := 0;
      while k < |roster|
        invariant 0 <= k <= |roster| && |ts| == k
        invariant forall j :: 0 <= j < k ==>
          fresh(ts[j]) && ts[j].name == roster[j].name && ts[j].code == roster[j].code &&
          ts[j].rank == roster[j].rank && ts[j].group == name &&
          ts[j].IsFresh() && ts[j].Valid()
        invariant forall i, j :: 0 <= i < j < k ==> ts[i] != ts[j]
      {
        var t := new Team(roster[k], name);
        ts := ts + [t];
        k := k + 1;
      }
      this.name := name;
      teams := ts;
      firstPlaced, secondPlaced, thirdPlaced, fourthPlaced := None, None, None, None;
    }

    /** The four placements, `null` before the standings are set and
        `undefined` where the group has fewer teams. */
    function Places(): (Option<TeamStats>, Option<TeamStats>, Option<TeamStats>, Option<TeamStats>)
      reads this
    {
      (firstPlaced, secondPlaced, thirdPlaced, fourthPlaced)
    }

    /** Plays the round robin on a copy of the team list: the head is shifted
      off and plays every remaining team, while more than one remains. The
      draws are used in playing order, so match q of `Schedule(n)` gets
      `draws[q]`. */
    method StartMatches(draws: seq<MatchDraw>) returns (results: seq<seq<string>>)
      requires Valid()
      requires |draws| >= |Schedule(|teams|)|
      modifies teams
      ensures |results| == RoundCount(|teams|)
      ensures forall i :: 0 <= i < |results| ==> RoundPlayed(results[i], teams, i, draws)
      ensures forall k :: 0 <= k < |teams| ==>
        teams[k].Stats() == Replay(old(teams[k].Stats()), RoundRobinOutcomes(teams, draws, k))
      ensures forall k :: 0 <= k < |teams| ==> old(teams[k].Valid()) ==> teams[k].Valid()
    {
      ghost var ts := teams;
      ghost var start := StatsOf(ts);
      results := PlayRounds(teams, draws, start);
      forall k | 0 <= k < |ts|
        ensures ts[k].Stats() == Replay(old(ts[k].Stats()), RoundRobinOutcomes(ts, draws, k))
        ensures old(ts[k].Valid()) ==> ts[k].Valid()
      {
        assert PlayedUpTo(StatsOf(ts)[k], start[k], ts, draws, |results|, k);
        assert StatsOf(ts)[k] == ts[k].Stats() && start[k] == old(ts[k].Stats());
        RoundRobinDone(StatsOf(ts)[k], start[k], ts, draws, k);
      }
    }

    /** Sorts the team list by points, ranks snapshots of the sorted teams
      in one tie pass, and records the first four entries as the
      placements. The teams themselves are not ranked, and no team changes,
      so the snapshots are those of the teams as they stand afterwards. */
    method SetScoresToTeams()
      modifies this
      ensures teams == old(ByPoints(teams))
      ensures old(Valid()) ==> Valid()
      ensures firstPlaced == Place(Standings(old(StatsOf(ByPoints(teams)))), 0)
      ensures secondPlaced == Place(Standings(old(StatsOf(ByPoints(teams)))), 1)
      ensures thirdPlaced == Place(Standings(old(StatsOf(ByPoints(teams)))), 2)
      ensures fourthPlaced == Place(Standings(old(StatsOf(ByPoints(teams)))), 3)
    {
      var sorted := ByPoints(teams);
      ByPointsKeepsDistinct(teams);
      var ranked := RankedStandings(StatsOf(sorted));
      teams := sorted;
      firstPlaced, secondPlaced, thirdPlaced, fourthPlaced :=
        Place(ranked, 0), Place(ranked, 1), Place(ranked, 2), Place(ranked, 3);
    }

    /** `getFinalGroupStats()`: the final statistics of every team, in the
      order of the team list. */
    method FinalGroupStats() returns (results: seq<FinalStats>)
      ensures |results| == |teams|
      ensures forall k :: 0 <= k < |teams| ==> results[k] == FinalStatsOf(teams[k])
    {
      results := [];
      var k := 0;
      while k < |teams|
        invariant 0 <= k <= |teams| && |results| == k
        invariant forall j :: 0 <= j < k ==> results[j] == FinalStatsOf(teams[j])
      {
        var stat := teams[k].FinalTeamStats();
        results := results + [stat];
        k := k + 1;
      }
    }
  }

  /** What `setScoresToTeams` makes of a group whose teams carry no group
      rank yet, in one place: the standings of the points-sorted teams'
      snapshots keep every snapshot, points never increase down the list,
      and the entry at index k has group rank k + 1. */
  lemma SetScoresHeadline(ts: seq<Team>)
    requires forall k :: 0 <= k < |ts| ==> ts[k].groupRank == None
    ensures var s := StatsOf(ByPoints(ts));
      |Standings(s)| == |ts| &&
      NonIncreasing(Standings(s), Points) &&
      (forall k :: 0 <= k < |ts| ==> Standings(s)[k].groupRank == Some(k + 1)) &&
      multiset(ClearGroupRanks(Standings(s))) == multiset(s)
  {
    var sorted := ByPoints(ts);
    var s := StatsOf(sorted);
    ByPointsSortsAndPermutes(ts);
    assert |sorted| == |ts| by {
      assert |multiset(sorted)| == |multiset(ts)|;
    }
    forall k | 0 <= k < |s|
      ensures s[k].groupRank == None
    {
      assert sorted[k] in multiset(ts);
    }
    StandingsInvariants(s);
  }
}
