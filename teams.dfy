/** A team of the tournament: its identity, its record of wins and losses
    with per-match detail, its points, and the match primitive that every
    stage of the tournament uses. */
module Teams {
  import opened Js
  import opened Scores

  /** One roster line: team name, ISO code and FIBA ranking. */
  datatype RosterEntry = RosterEntry(name: string, code: string, rank: int)

  /** One entry of a team's wins or losses list: the opponent's name, the
      result string (own score first) and the own-minus-opponent difference. */
  datatype MatchRecord = MatchRecord(opponent: string, result: string, difference: int)

  /** What `getInfo()` returns. */
  datatype TeamInfo = TeamInfo(name: string, code: string, rank: int, group: string)

  /** The snapshot `getStats()` returns; group standings and the seeding
      write their ranks onto snapshots, never onto the team. */
  datatype TeamStats = TeamStats(
    name: string,
    winsCount: int, winMatches: seq<MatchRecord>,
    lossesCount: int, lossMatches: seq<MatchRecord>,
    points: int, groupRank: Option<int>, drawRank: Option<int>)

  /** What `getFinalTeamStats()` returns. */
  datatype FinalStats = FinalStats(
    name: string, wins: int, losses: int, points: int,
    pointsScored: JsNumber, pointAllowed: JsNumber, difference: int)

  /** Sum of the left halves of the result strings of the first `n`
      records, accumulated in order. */
  function ScoredSum(ms: seq<MatchRecord>, n: nat): JsNumber
    requires n <= |ms|
  {
    if n == 0 then Num(0) else Add(ScoredSum(ms, n - 1), LeftValue(ms[n - 1].result))
  }

  /** Sum of the right halves of the result strings of the first `n` records. */
  function AllowedSum(ms: seq<MatchRecord>, n: nat): JsNumber
    requires n <= |ms|
  {
    if n == 0 then Num(0) else Add(AllowedSum(ms, n - 1), RightValue(ms[n - 1].result))
  }

  /** Sum of the stored differences of the first `n` records. */
  function DifferenceSum(ms: seq<MatchRecord>, n: nat): int
    requires n <= |ms|
  {
    if n == 0 then 0 else DifferenceSum(ms, n - 1) + ms[n - 1].difference
  }

  /** The records were written, one by one, from the score pairs
      (own[k], opp[k]), as `startMatch` writes them. */
  predicate WrittenFrom(ms: seq<MatchRecord>, own: seq<nat>, opp: seq<nat>)
  {
    |own| == |ms| && |opp| == |ms| &&
    forall k :: 0 <= k < |ms| ==>
      ms[k].result == ResultString(own[k], opp[k]) && ms[k].difference == own[k] as int - opp[k] as int
  }

  /** One accumulation loop of `getFinalTeamStats()`: adds the readings of
      the records `ms`, which sit at position `start` of `all`, to the totals
      over the records before them. */
  method AddRecords(ms: seq<MatchRecord>, ghost all: seq<MatchRecord>, ghost start: nat,
    scored: JsNumber, allowed: JsNumber, diff: int)
    returns (pointsScored: JsNumber, pointAllowed: JsNumber, difference: int)
    requires start + |ms| <= |all| && all[start..start + |ms|] == ms
    requires scored == ScoredSum(all, start) && allowed == AllowedSum(all, start) && diff == DifferenceSum(all, start)
    ensures pointsScored == ScoredSum(all, start + |ms|)
    ensures pointAllowed == AllowedSum(all, start + |ms|)
    ensures difference == DifferenceSum(all, start + |ms|)
  {
    pointsScored, pointAllowed, difference := scored, allowed, diff;
    var i := 0;
    while i < |ms|
      invariant 0 <= i <= |ms|
      invariant pointsScored == ScoredSum(all, start + i)
      invariant pointAllowed == AllowedSum(all, start + i)
      invariant difference == DifferenceSum(all, start + i)
    {
      var m := ms[i];
      pointsScored := Add(pointsScored, LeftValue(m.result));
      pointAllowed := Add(pointAllowed, RightValue(m.result));
      difference := difference + m.difference;
      assert all[start + i] == m;
      i := i + 1;
    }
  }

  /** Records written from non-negative scores parse back to those scores,
      so both totals are numbers and the summed difference is points scored
      minus points allowed. */
  lemma RecordTotals(ms: seq<MatchRecord>, own: seq<nat>, opp: seq<nat>)
    requires WrittenFrom(ms, own, opp)
    ensures ScoredSum(ms, |ms|).Num? && AllowedSum(ms, |ms|).Num?
    ensures DifferenceSum(ms, |ms|) == ScoredSum(ms, |ms|).value - AllowedSum(ms, |ms|).value
  {
    forall k | 0 <= k < |ms|
      ensures LeftValue(ms[k].result) == Num(own[k]) && RightValue(ms[k].result) == Num(opp[k])
    {
      ResultRoundTrip(own[k], opp[k]);
    }
    TotalsFromReadings(ms, own, opp, |ms|);
  }

  /** Sums over the first `n` records, whose results read as (own[k], opp[k])
      and whose differences are own[k] - opp[k]. */
  lemma {:induction false} TotalsFromReadings(ms: seq<MatchRecord>, own: seq<nat>, opp: seq<nat>, n: nat)
    requires n <= |ms| && |own| == |ms| && |opp| == |ms|
    requires forall k :: 0 <= k < |ms| ==>
      LeftValue(ms[k].result) == Num(own[k]) && RightValue(ms[k].result) == Num(opp[k]) &&
      ms[k].difference == own[k] as int - opp[k] as int
    ensures ScoredSum(ms, n).Num? && AllowedSum(ms, n).Num?
    ensures DifferenceSum(ms, n) == ScoredSum(ms, n).value - AllowedSum(ms, n).value
  {
    if n > 0 {
      TotalsFromReadings(ms, own, opp, n - 1);
    }
  }

  /** The name `startMatch` returns: the caller's when the draw says the
      caller wins, the opponent's otherwise. */
  function WinnerName(a: Team, b: Team, d: MatchDraw): string
  {
    if d.callerWins then a.name else b.name
  }

  /** `startMatch` records the win on the caller when the returned name is
      the caller's: when the caller wins, or when both teams share a name. */
  predicate CallerRecordsWin(a: Team, b: Team, d: MatchDraw)
  {
    d.callerWins || a.name == b.name
  }

  /** The winner's and the loser's score of a match played with draw `d`. */
  function Scored(d: MatchDraw): (int, int)
  {
    NormaliseScore(d.firstScore, d.secondScore)
  }

  /** The whole of `getFinalTeamStats()` as a value. */
  function FinalStatsOf(t: Team): FinalStats
    reads t
  {
    var ms := t.winMatches + t.lossMatches;
    FinalStats(t.name, t.winsCount, t.lossesCount, t.points,
      ScoredSum(ms, |ms|), AllowedSum(ms, |ms|), DifferenceSum(ms, |ms|))
  }

  /** The entry the winner of a match played with draw `d` records against
      `opponent`: the result written as `w-l` and the difference `w - l`. */
  function WinRecord(opponent: string, d: MatchDraw): MatchRecord
  {
    MatchRecord(opponent, ResultString(Scored(d).0, Scored(d).1), Scored(d).0 - Scored(d).1)
  }

  /** The entry the loser records, from its own side: `l-w` and `l - w`. */
  function LossRecord(opponent: string, d: MatchDraw): MatchRecord
  {
    MatchRecord(opponent, ResultString(Scored(d).1, Scored(d).0), Scored(d).1 - Scored(d).0)
  }

  /** One match as a team writes it down: an entry of its wins list or an
      entry of its losses list. */
  datatype Outcome = Won(record: MatchRecord) | Lost(record: MatchRecord)

  /** The win entries among `os`, in order. */
  function Wins(os: seq<Outcome>): seq<MatchRecord>
  {
    if os == [] then []
    else Wins(os[..|os| - 1]) + (if os[|os| - 1].Won? then [os[|os| - 1].record] else [])
  }

  /** The loss entries among `os`, in order. */
  function Losses(os: seq<Outcome>): seq<MatchRecord>
  {
    if os == [] then []
    else Losses(os[..|os| - 1]) + (if os[|os| - 1].Lost? then [os[|os| - 1].record] else [])
  }

  /** Every match is written down once, as a win or as a loss. */
  lemma {:induction false} WinsAndLosses(os: seq<Outcome>)
    ensures |Wins(os)| + |Losses(os)| == |os|
  {
    if os != [] {
      WinsAndLosses(os[..|os| - 1]);
    }
  }

  /** The entries of two runs of matches, one after the other, are those of
      the first run followed by those of the second. */
  lemma {:induction false} OutcomesAppend(a: seq<Outcome>, b: seq<Outcome>)
    ensures Wins(a + b) == Wins(a) + Wins(b)
    ensures Losses(a + b) == Losses(a) + Losses(b)
  {
    if b == [] {
      assert a + b == a;
    } else {
      OutcomesAppend(a, b[..|b| - 1]);
      assert (a + b)[..|a + b| - 1] == a + b[..|b| - 1];
    }
  }

  /** The entry the caller of `startMatch` writes down against `b`. */
  function CallerOutcome(a: Team, b: Team, d: MatchDraw): Outcome
  {
    if CallerRecordsWin(a, b, d) then Won(WinRecord(b.name, d)) else Lost(LossRecord(b.name, d))
  }

  /** The entry the opponent `b` writes down against the caller `a`. */
  function OpponentOutcome(a: Team, b: Team, d: MatchDraw): Outcome
  {
    if CallerRecordsWin(a, b, d) then Lost(LossRecord(a.name, d)) else Won(WinRecord(a.name, d))
  }

  /** The two entries of one match mirror each other: one is a win and the
      other a loss, each names the other team, the winner's difference is
      positive and the loser's is its negation, and each result string is
      the other's with the two scores exchanged. */
  lemma MirroredOutcomes(a: Team, b: Team, d: MatchDraw)
    ensures CallerOutcome(a, b, d).Won? <==> OpponentOutcome(a, b, d).Lost?
    ensures CallerOutcome(a, b, d).record.opponent == b.name && OpponentOutcome(a, b, d).record.opponent == a.name
    ensures CallerOutcome(a, b, d).record.difference == -OpponentOutcome(a, b, d).record.difference
    ensures CallerOutcome(a, b, d).Won? ==> CallerOutcome(a, b, d).record.difference > 0
    ensures OpponentOutcome(a, b, d).Won? ==> OpponentOutcome(a, b, d).record.difference > 0
    ensures CallerOutcome(a, b, d).Won? ==>
      CallerOutcome(a, b, d).record.result == ResultString(Scored(d).0, Scored(d).1) &&
      OpponentOutcome(a, b, d).record.result == ResultString(Scored(d).1, Scored(d).0)
    ensures CallerOutcome(a, b, d).Lost? ==>
      CallerOutcome(a, b, d).record.result == ResultString(Scored(d).1, Scored(d).0) &&
      OpponentOutcome(a, b, d).record.result == ResultString(Scored(d).0, Scored(d).1)
  {
  }

  /** The snapshot `s` after one more match written down as `o`: the entry
      appended to the list it belongs to, that count raised by one, and
      three points for a win or one for a loss. */
  function After(s: TeamStats, o: Outcome): TeamStats
  {
    match o
    case Won(m) => s.(winsCount := s.winsCount + 1, winMatches := s.winMatches + [m], points := s.points + 3)
    case Lost(m) => s.(lossesCount := s.lossesCount + 1, lossMatches := s.lossMatches + [m], points := s.points + 1)
  }

  /** The snapshot `s` after the matches `os`, played in order. */
  function Replay(s: TeamStats, os: seq<Outcome>): TeamStats
  {
    if os == [] then s else After(Replay(s, os[..|os| - 1]), os[|os| - 1])
  }

  /** What a run of matches does to a snapshot: the win entries appended
      to the wins list and the loss entries to the losses list, in playing
      order, the counts raised to match, three points per win and one per
      loss; name and ranks unchanged. */
  lemma {:induction false} ReplayLists(s: TeamStats, os: seq<Outcome>)
    ensures Replay(s, os).name == s.name
    ensures Replay(s, os).winMatches == s.winMatches + Wins(os)
    ensures Replay(s, os).winsCount == s.winsCount + |Wins(os)|
    ensures Replay(s, os).lossMatches == s.lossMatches + Losses(os)
    ensures Replay(s, os).lossesCount == s.lossesCount + |Losses(os)|
    ensures Replay(s, os).points == s.points + 3 * |Wins(os)| + |Losses(os)|
    ensures Replay(s, os).groupRank == s.groupRank && Replay(s, os).drawRank == s.drawRank
  {
    if os != [] {
      ReplayLists(s, os[..|os| - 1]);
    }
  }

  /** A snapshot whose counts match its lists and whose points are 3 per
      win plus 1 per loss. */
  predicate Consistent(s: TeamStats)
  {
    s.winsCount == |s.winMatches| && s.lossesCount == |s.lossMatches| &&
    s.points == 3 * s.winsCount + s.lossesCount
  }

  /** Playing matches keeps a snapshot consistent. */
  lemma ReplayConsistent(s: TeamStats, os: seq<Outcome>)
    requires Consistent(s)
    ensures Consistent(Replay(s, os))
  {
    ReplayLists(s, os);
  }

  /** Two runs of matches, one after the other, make one run. */
  lemma {:induction false} ReplayAppend(s: TeamStats, a: seq<Outcome>, b: seq<Outcome>)
    ensures Replay(s, a + b) == Replay(Replay(s, a), b)
  {
    if b == [] {
      assert a + b == a;
    } else {
      ReplayAppend(s, a, b[..|b| - 1]);
      assert (a + b)[..|a + b| - 1] == a + b[..|b| - 1];
    }
  }

  /** The snapshots of a list of teams, one per team in list order, as
      `getTeamsStats()` returns them. */
  function StatsOf(ts: seq<Team>): (r: seq<TeamStats>)
    reads ts
    ensures |r| == |ts|
    ensures forall k :: 0 <= k < |ts| ==> r[k] == ts[k].Stats()
  {
    seq(|ts|, k requires 0 <= k < |ts| reads ts => ts[k].Stats())
  }

  /** The entries the caller writes down against each team of `rest`, in
      playing order, the j-th match played with `draws[j]`. */
  function HeadOutcomes(c: Team, rest: seq<Team>, draws: seq<MatchDraw>): (r: seq<Outcome>)
    requires |draws| >= |rest|
    ensures |r| == |rest|
    ensures forall j :: 0 <= j < |rest| ==> r[j] == CallerOutcome(c, rest[j], draws[j])
  {
    seq(|rest|, j requires 0 <= j < |rest| => CallerOutcome(c, rest[j], draws[j]))
  }

  /** The names `startMatch` returns when `c` plays each team of `rest` in
      order, the j-th match with `draws[j]`. */
  function Winners(c: Team, rest: seq<Team>, draws: seq<MatchDraw>): (r: seq<string>)
    requires |draws| >= |rest|
    ensures |r| == |rest|
    ensures forall j :: 0 <= j < |rest| ==> r[j] == WinnerName(c, rest[j], draws[j])
  {
    seq(|rest|, j requires 0 <= j < |rest| => WinnerName(c, rest[j], draws[j]))
  }

  /** Playing one more team of `rest` extends the names returned and the
      caller's entries by that match. */
  lemma Extend(c: Team, rest: seq<Team>, draws: seq<MatchDraw>, j: nat)
    requires j < |rest| <= |draws|
    ensures Winners(c, rest[..j + 1], draws) == Winners(c, rest[..j], draws) + [WinnerName(c, rest[j], draws[j])]
    ensures HeadOutcomes(c, rest[..j + 1], draws) == HeadOutcomes(c, rest[..j], draws) + [CallerOutcome(c, rest[j], draws[j])]
  {
    assert Winners(c, rest[..j + 1], draws) == Winners(c, rest[..j], draws) + [WinnerName(c, rest[j], draws[j])];
  }

  /** The snapshots `now` of the teams `rest` are those of `start` after
      the first `j` of them each played the caller `c` once, the k-th with
      `draws[k]`, and the others played nothing. */
  predicate OpponentsFollow(now: seq<TeamStats>, start: seq<TeamStats>, c: Team, rest: seq<Team>,
    draws: seq<MatchDraw>, j: nat)
  {
    |now| == |rest| && |start| == |rest| && j <= |rest| <= |draws| &&
    forall k :: 0 <= k < |rest| ==>
      now[k] == if k < j then After(start[k], OpponentOutcome(c, rest[k], draws[k])) else start[k]
  }

  /** The caller's snapshot after the match against `rest[j]`, on top of
      its matches against the teams before it. */
  lemma HeadStep(start: TeamStats, c: Team, rest: seq<Team>, draws: seq<MatchDraw>, j: nat)
    requires j < |rest| <= |draws|
    ensures After(Replay(start, HeadOutcomes(c, rest[..j], draws)), CallerOutcome(c, rest[j], draws[j]))
      == Replay(start, HeadOutcomes(c, rest[..j + 1], draws))
  {
    Extend(c, rest, draws, j);
    var os := HeadOutcomes(c, rest[..j + 1], draws);
    assert os[..|os| - 1] == HeadOutcomes(c, rest[..j], draws);
  }

  /** The opponents' snapshots after the match against `rest[j]`: that team
      gained its entry, the others did not change. */
  lemma OpponentsStep(before: seq<TeamStats>, now: seq<TeamStats>, start: seq<TeamStats>, c: Team,
    rest: seq<Team>, draws: seq<MatchDraw>, j: nat)
    requires OpponentsFollow(before, start, c, rest, draws, j) && j < |rest|
    requires |now| == |rest| && now[j] == After(before[j], OpponentOutcome(c, rest[j], draws[j]))
    requires forall k :: 0 <= k < |rest| && k != j ==> now[k] == before[k]
    ensures OpponentsFollow(now, start, c, rest, draws, j + 1)
  {
  }

  class Team {
    const name: string
    const code: string
    const rank: int
    const group: string
    var groupRank: Option<int>
    var points: int
    var winsCount: int
    var winMatches: seq<MatchRecord>
    var lossesCount: int
    var lossMatches: seq<MatchRecord>
    var drawRank: Option<int>

    /** The counts match the lists, and points are 3 per win plus 1 per loss. */
    ghost predicate Valid()
      reads this
    {
      Consistent(Stats())
    }

    /** No match played and no rank assigned yet. */
    ghost predicate IsFresh()
      reads this
    {
      points == 0 && winsCount == 0 && winMatches == [] &&
      lossesCount == 0 && lossMatches == [] && groupRank == None && drawRank == None
    }

    constructor (entry: RosterEntry, group: string)
      ensures name == entry.name && code == entry.code && rank == entry.rank && this.group == group
      ensures IsFresh() && Valid()
    {
      name, code, rank, this.group := entry.name, entry.code, entry.rank, group;
      groupRank, drawRank := None, None;
      points := 0;
      winsCount, winMatches := 0, [];
      lossesCount, lossMatches := 0, [];
    }

    function Info(): TeamInfo
    {
      TeamInfo(name, code, rank, group)
    }

    function Stats(): TeamStats
      reads this
    {
      TeamStats(name, winsCount, winMatches, lossesCount, lossMatches, points, groupRank, drawRank)
    }

    method SetWinResult(opponent: string, result: string, difference: int)
      modifies this
      ensures Stats() == After(old(Stats()), Won(MatchRecord(opponent, result, difference)))
      ensures old(Valid()) ==> Valid()
    {
      winsCount := winsCount + 1;
      winMatches := winMatches + [MatchRecord(opponent, result, difference)];
      points := points + 3;
    }

    method SetLossResult(opponent: string, result: string, difference: int)
      modifies this
      ensures Stats() == After(old(Stats()), Lost(MatchRecord(opponent, result, difference)))
      ensures old(Valid()) ==> Valid()
    {
      lossesCount := lossesCount + 1;
      lossMatches := lossMatches + [MatchRecord(opponent, result, difference)];
      points := points + 1;
    }

    /** Plays this team against `other` with the random inputs `d`, records
      the result on both teams and returns the winner's name. */
    method StartMatch(other: Team, d: MatchDraw) returns (winner: string)
      modifies this, other
      ensures winner == WinnerName(this, other, d)
      ensures winner == name <==> CallerRecordsWin(this, other, d)
      ensures this != other ==>
        Stats() == After(old(Stats()), CallerOutcome(this, other, d)) &&
        other.Stats() == After(old(other.Stats()), OpponentOutcome(this, other, d))
      ensures this == other ==>
        Stats() == After(After(old(Stats()), CallerOutcome(this, other, d)), OpponentOutcome(this, other, d))
    {
      var enemy := other.Info();
      winner := if d.callerWins then name else enemy.name;
      var (winScore, lossScore) := Scored(d);
      if winner == name {
        SetWinResult(enemy.name, ResultString(winScore, lossScore), winScore - lossScore);
        other.SetLossResult(name, ResultString(lossScore, winScore), lossScore - winScore);
      } else {
        SetLossResult(enemy.name, ResultString(lossScore, winScore), lossScore - winScore);
        other.SetWinResult(name, ResultString(winScore, lossScore), winScore - lossScore);
      }
    }

    /** `startMatch` between two different teams. */
    method Meet(other: Team, d: MatchDraw) returns (winner: string)
      requires this != other
      modifies this, other
      ensures winner == WinnerName(this, other, d)
      ensures Stats() == After(old(Stats()), CallerOutcome(this, other, d))
      ensures other.Stats() == After(old(other.Stats()), OpponentOutcome(this, other, d))
    {
      winner := StartMatch(other, d);
    }

    /** Plays this team against each team of `rest` in order, the j-th match
      with draw `draws[j]`, and returns the winners' names. */
    method PlayWithRest(rest: seq<Team>, draws: seq<MatchDraw>) returns (results: seq<string>)
      requires |draws| >= |rest|
      requires this !in rest
      requires forall i, j :: 0 <= i < j < |rest| ==> rest[i] != rest[j]
      modifies this, rest
      ensures |results| == |rest|
      ensures forall j :: 0 <= j < |rest| ==> results[j] == WinnerName(this, rest[j], draws[j])
      ensures Stats() == Replay(old(Stats()), HeadOutcomes(this, rest, draws))
      ensures forall j :: 0 <= j < |rest| ==>
        rest[j].Stats() == After(old(rest[j].Stats()), OpponentOutcome(this, rest[j], draws[j]))
    {
      ghost var start, startRest := Stats(), StatsOf(rest);
      results := [];
      var j := 0;
      while j < |rest|
        invariant 0 <= j <= |rest|
        invariant results == Winners(this, rest[..j], draws)
        invariant Stats() == Replay(start, HeadOutcomes(this, rest[..j], draws))
        invariant OpponentsFollow(StatsOf(rest), startRest, this, rest, draws, j)
      {
        var result := PlayNext(rest, draws, j, start, startRest);
        Extend(this, rest, draws, j);
        results := results + [result];
        j := j + 1;
      }
      assert rest[..j] == rest;
    }

    /** One pass of the `playWithRest` loop: the match against `rest[j]`,
      on top of the matches against the teams before it. */
    method PlayNext(rest: seq<Team>, draws: seq<MatchDraw>, j: nat, ghost start: TeamStats,
      ghost startRest: seq<TeamStats>)
      returns (result: string)
      requires j < |rest| <= |draws| && |startRest| == |rest|
      requires this !in rest
      requires forall i, k :: 0 <= i < k < |rest| ==> rest[i] != rest[k]
      requires Stats() == Replay(start, HeadOutcomes(this, rest[..j], draws))
      requires OpponentsFollow(StatsOf(rest), startRest, this, rest, draws, j)
      modifies this, rest[j]
      ensures result == WinnerName(this, rest[j], draws[j])
      ensures Stats() == Replay(start, HeadOutcomes(this, rest[..j + 1], draws))
      ensures OpponentsFollow(StatsOf(rest), startRest, this, rest, draws, j + 1)
    {
      ghost var before := StatsOf(rest);
      result := Meet(rest[j], draws[j]);
      HeadStep(start, this, rest, draws, j);
      forall k | 0 <= k < |rest| && k != j
        ensures StatsOf(rest)[k] == before[k]
      {
        assert rest[k] != rest[j];
      }
      OpponentsStep(before, StatsOf(rest), startRest, this, rest, draws, j);
    }

    /** Totals over all stored records: points scored and allowed parsed
      back from the result strings, and the summed differences. */
    method FinalTeamStats() returns (r: FinalStats)
      ensures r == FinalStatsOf(this)
    {
      ghost var all := winMatches + lossMatches;
      assert all[..|winMatches|] == winMatches && all[|winMatches|..] == lossMatches;
      var pointsScored, pointAllowed, difference := AddRecords(winMatches, all, 0, Num(0), Num(0), 0);
      pointsScored, pointAllowed, difference :=
        AddRecords(lossMatches, all, |winMatches|, pointsScored, pointAllowed, difference);
      r := FinalStats(name, winsCount, lossesCount, points, pointsScored, pointAllowed, difference);
    }
  }
}
