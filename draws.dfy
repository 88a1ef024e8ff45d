/** The knockout stage: the seeding of the group placements, the four pots
    of the draw, and the bracket of quarterfinals, semifinals, the match for
    third place and the final. */
module Draws {
  import opened Js
  import opened Scores
  import opened Teams
  import opened Ranking
  import opened Groups

  // ---------------------------------------------------------------------
  // Points scored in the group stage

  /** The position of the first name equal to `name`, if any: the search
      that every `find` by name in the knockout stage performs. */
  function FirstIndex(names: seq<string>, name: string): (r: Option<nat>)
    ensures r.None? <==> forall k :: 0 <= k < |names| ==> names[k] != name
    ensures r.Some? ==> (r.value < |names| && names[r.value] == name &&
      forall j :: 0 <= j < r.value ==> names[j] != name)
  {
    if names == [] then None
    else if names[0] == name then Some(0)
    else match FirstIndex(names[1..], name)
      case None => None
      case Some(k) => Some(k + 1)
  }

  /** `group.find` by name over one group's final statistics: the first
      entry named `name`, if any. */
  function FindStats(group: seq<FinalStats>, name: string): (r: Option<FinalStats>)
    ensures r.None? <==> forall k :: 0 <= k < |group| ==> group[k].name != name
    ensures r.Some? ==> exists k :: (0 <= k < |group| && group[k] == r.value && r.value.name == name &&
      forall j :: 0 <= j < k ==> group[j].name != name)
  {
    var names := seq(|group|, k requires 0 <= k < |group| => group[k].name);
    assert forall k :: 0 <= k < |group| ==> names[k] == group[k].name;
    match FirstIndex(names, name)
      case None => None
      case Some(k) => Some(group[k])
  }

  /** `getTeamPoints`: the points scored of the first entry named `name`,
      the groups searched in order, or the number 0 when no group has one. */
  function TeamPoints(groupResults: seq<seq<FinalStats>>, name: string): (r: JsNumber)
    ensures r == Num(0) || exists g, k :: (0 <= g < |groupResults| && 0 <= k < |groupResults[g]| &&
      groupResults[g][k].name == name && groupResults[g][k].pointsScored == r)
  {
    if groupResults == [] then Num(0)
    else match FindStats(groupResults[0], name)
      case Some(found) => found.pointsScored
      case None =>
        var r := TeamPoints(groupResults[1..], name);
        assert r == Num(0) || exists g, k :: (0 <= g < |groupResults| && 0 <= k < |groupResults[g]| &&
          groupResults[g][k].name == name && groupResults[g][k].pointsScored == r) by {
          if r != Num(0) {
            var g, k :| 0 <= g < |groupResults[1..]| && 0 <= k < |groupResults[1..][g]| &&
              groupResults[1..][g][k].name == name && groupResults[1..][g][k].pointsScored == r;
            assert groupResults[g + 1] == groupResults[1..][g];
          }
        }
        r
  }

  /** The value comes from the first group that has an entry of that name. */
  lemma {:induction false} TeamPointsFound(groupResults: seq<seq<FinalStats>>, name: string, g: nat)
    requires g < |groupResults| && FindStats(groupResults[g], name).Some?
    requires forall h :: 0 <= h < g ==> FindStats(groupResults[h], name).None?
    ensures TeamPoints(groupResults, name) == FindStats(groupResults[g], name).value.pointsScored
  {
    if g > 0 {
      assert FindStats(groupResults[0], name).None?;
      forall h | 0 <= h < g - 1
        ensures FindStats(groupResults[1..][h], name).None?
      {
        assert groupResults[1..][h] == groupResults[h + 1];
      }
      assert groupResults[1..][g - 1] == groupResults[g];
      TeamPointsFound(groupResults[1..], name, g - 1);
    }
  }

  /** A name no group knows reads as the number 0. */
  lemma {:induction false} TeamPointsMissing(groupResults: seq<seq<FinalStats>>, name: string)
    requires forall g, k :: 0 <= g < |groupResults| && 0 <= k < |groupResults[g]| ==> groupResults[g][k].name != name
    ensures TeamPoints(groupResults, name) == Num(0)
  {
    if groupResults != [] {
      assert FindStats(groupResults[0], name).None?;
      forall g, k | 0 <= g < |groupResults[1..]| && 0 <= k < |groupResults[1..][g]|
        ensures groupResults[1..][g][k].name != name
      {
        assert groupResults[1..][g] == groupResults[g + 1];
      }
      TeamPointsMissing(groupResults[1..], name);
    }
  }

  // ---------------------------------------------------------------------
  // Seeding

  /** The tie rule of the seeding: the lower of two entries with equal
      points moves up when its points scored are greater; a NaN on either
      side never moves it. */
  function SeedPrefers(groupResults: seq<seq<FinalStats>>): (TeamStats, TeamStats) -> bool
  {
    (current: TeamStats, next: TeamStats) =>
      Less(TeamPoints(groupResults, current.name), TeamPoints(groupResults, next.name))
  }

  function WithDrawRanks(s: seq<TeamStats>): (r: seq<TeamStats>)
    ensures |r| == |s|
    ensures forall k :: 0 <= k < |s| ==> r[k] == s[k].(drawRank := Some(k + 1))
  {
    seq(|s|, k requires 0 <= k < |s| => s[k].(drawRank := Some(k + 1)))
  }

  function ClearDrawRanks(s: seq<TeamStats>): (r: seq<TeamStats>)
    ensures |r| == |s|
    ensures forall k :: 0 <= k < |s| ==> r[k] == s[k].(drawRank := None)
  {
    seq(|s|, k requires 0 <= k < |s| => s[k].(drawRank := None))
  }

  /** What `sortList` leaves in its list: the stable sort by descending
      points, one tie pass with the points-scored rule, then draw rank
      k + 1 at index k. */
  function Seeding(s: seq<TeamStats>, groupResults: seq<seq<FinalStats>>): (r: seq<TeamStats>)
    ensures forall k :: 0 <= k < |r| ==> r[k].drawRank == Some(k + 1)
  {
    WithDrawRanks(TiePass(SortDesc(s, Points), Points, SeedPrefers(groupResults), 0))
  }

  /** For entries without a draw rank, the seeding is a re-ordering of them
      with points non-increasing, and the entry at index k has rank k + 1. */
  lemma SeedingInvariants(s: seq<TeamStats>, groupResults: seq<seq<FinalStats>>)
    requires forall k :: 0 <= k < |s| ==> s[k].drawRank == None
    ensures |Seeding(s, groupResults)| == |s|
    ensures forall k :: 0 <= k < |s| ==> Seeding(s, groupResults)[k].drawRank == Some(k + 1)
    ensures multiset(ClearDrawRanks(Seeding(s, groupResults))) == multiset(s)
    ensures NonIncreasing(Seeding(s, groupResults), Points)
  {
    var prefer := SeedPrefers(groupResults);
    var sorted := SortDesc(s, Points);
    SortDescSortsAndPermutes(s, Points);
    assert |sorted| == |multiset(sorted)| == |s|;
    var p := TiePass(sorted, Points, prefer, 0);
    TiePassKeepsKeys(sorted, Points, prefer, 0);
    TiePassPermutes(sorted, Points, prefer, 0);
    TiePassSorted(sorted, Points, prefer);
    forall k | 0 <= k < |p|
      ensures p[k].drawRank == None
    {
      assert p[k] in multiset(s);
    }
    assert ClearDrawRanks(Seeding(s, groupResults)) == p;
    var r := Seeding(s, groupResults);
    forall i, j | 0 <= i < j < |r|
      ensures Points(r[i]) >= Points(r[j])
    {
      assert Points(r[i]) == Points(p[i]) && Points(r[j]) == Points(p[j]);
    }
  }

  /** Two neighbours of the points-sorted list with equal points, both
      differing in points from the entries around them, are swapped exactly
      when the lower one scored more points in the group stage; otherwise
      they keep their order. */
  lemma SeedingTieRule(s: seq<TeamStats>, groupResults: seq<seq<FinalStats>>, i: nat)
    requires i + 1 < |SortDesc(s, Points)|
    requires SortDesc(s, Points)[i].points == SortDesc(s, Points)[i + 1].points
    requires i > 0 ==> SortDesc(s, Points)[i - 1].points != SortDesc(s, Points)[i].points
    requires i + 2 < |SortDesc(s, Points)| ==> SortDesc(s, Points)[i + 2].points != SortDesc(s, Points)[i + 1].points
    ensures |Seeding(s, groupResults)| == |SortDesc(s, Points)|
    ensures var t := SortDesc(s, Points);
      Less(TeamPoints(groupResults, t[i].name), TeamPoints(groupResults, t[i + 1].name)) ==>
        Seeding(s, groupResults)[i] == t[i + 1].(drawRank := Some(i + 1)) &&
        Seeding(s, groupResults)[i + 1] == t[i].(drawRank := Some(i + 2))
    ensures var t := SortDesc(s, Points);
      !Less(TeamPoints(groupResults, t[i].name), TeamPoints(groupResults, t[i + 1].name)) ==>
        Seeding(s, groupResults)[i] == t[i].(drawRank := Some(i + 1)) &&
        Seeding(s, groupResults)[i + 1] == t[i + 1].(drawRank := Some(i + 2))
  {
    IsolatedTie(SortDesc(s, Points), Points, SeedPrefers(groupResults), 0, i);
  }

  /** An entry with its draw rank cleared: everything the tie pass looks at. */
  function Undrawn(x: TeamStats): TeamStats
  {
    x.(drawRank := None)
  }

  /** The name and the points do not depend on the draw rank. */
  lemma UndrawnAgrees(x: TeamStats, x': TeamStats)
    requires Undrawn(x) == Undrawn(x')
    ensures x.name == x'.name && x.points == x'.points
    ensures forall r :: x.(drawRank := r) == x'.(drawRank := r)
  {
    assert Undrawn(x).name == Undrawn(x').name;
  }

  /** One iteration of the loop of `sortList`: rank i + 1 at index i, then,
      on equal points with the next entry, the points-scored comparison,
      which ranks the next entry or swaps the two. */
  function SeedStep(groupResults: seq<seq<FinalStats>>, a: seq<TeamStats>, i: nat): (r: seq<TeamStats>)
    requires i < |a|
    ensures |r| == |a|
  {
    var a1 := a[i := a[i].(drawRank := Some(i + 1))];
    if i + 1 < |a| && a1[i].points == a1[i + 1].points then
      var currentTeamPoints := TeamPoints(groupResults, a1[i].name);
      var nextTeamPoints := TeamPoints(groupResults, a1[i + 1].name);
      if Less(nextTeamPoints, currentTeamPoints) then
        a1[i + 1 := a1[i + 1].(drawRank := Some(i + 2))]
      else if Less(currentTeamPoints, nextTeamPoints) then
        a1[i := a1[i + 1].(drawRank := Some(i + 1))][i + 1 := a1[i].(drawRank := Some(i + 2))]
      else a1
    else a1
  }

  /** The loop state after i iterations against the tie pass `g` run to
      position i: entries before i are ranked, the others agree up to rank. */
  predicate SeededUpTo(a: seq<TeamStats>, g: seq<TeamStats>, i: nat)
  {
    |a| == |g| && i <= |a| &&
    (forall k :: 0 <= k < i ==> a[k] == g[k].(drawRank := Some(k + 1))) &&
    (forall k :: i <= k < |g| ==> Undrawn(a[k]) == Undrawn(g[k]))
  }

  /** One loop iteration follows one step of the tie pass. */
  lemma SeedStepFollows(groupResults: seq<seq<FinalStats>>, a: seq<TeamStats>, g: seq<TeamStats>, i: nat)
    requires SeededUpTo(a, g, i) && i < |a|
    ensures SeededUpTo(SeedStep(groupResults, a, i),
      if i + 1 < |g| then Step(g, Points, SeedPrefers(groupResults), i) else g, i + 1)
  {
    var r := SeedStep(groupResults, a, i);
    UndrawnAgrees(a[i], g[i]);
    if i + 1 < |g| {
      UndrawnAgrees(a[i + 1], g[i + 1]);
      var g' := Step(g, Points, SeedPrefers(groupResults), i);
      assert r[i] == g'[i].(drawRank := Some(i + 1));
      assert Undrawn(r[i + 1]) == Undrawn(g'[i + 1]);
    }
  }

  /** The body of the loop of `sortList`, in place on the array. */
  method SeedAt(teamToSort: array<TeamStats>, i: nat, groupResults: seq<seq<FinalStats>>)
    requires i < teamToSort.Length
    modifies teamToSort
    ensures teamToSort[..] == SeedStep(groupResults, old(teamToSort[..]), i)
  {
    teamToSort[i] := teamToSort[i].(drawRank := Some(i + 1));
    if i + 1 < teamToSort.Length && teamToSort[i].points == teamToSort[i + 1].points {
      var currentTeam, nextTeam := teamToSort[i], teamToSort[i + 1];
      var currentTeamPoints := TeamPoints(groupResults, currentTeam.name);
      var nextTeamPoints := TeamPoints(groupResults, nextTeam.name);
      if Less(nextTeamPoints, currentTeamPoints) {
        teamToSort[i + 1] := nextTeam.(drawRank := Some(i + 2));
      } else if Less(currentTeamPoints, nextTeamPoints) {
        teamToSort[i], teamToSort[i + 1] := nextTeam.(drawRank := Some(i + 1)), currentTeam.(drawRank := Some(i + 2));
      }
    }
  }

  /** `teamToSort.sort((a, b) => b.points - a.points)`: the stable sort by
      descending points, in place. */
  method SortByPoints(teamToSort: array<TeamStats>)
    modifies teamToSort
    ensures teamToSort[..] == SortDesc(old(teamToSort[..]), Points)
  {
    var sorted := SortDesc(teamToSort[..], Points);
    SortDescSortsAndPermutes(teamToSort[..], Points);
    assert |sorted| == |multiset(sorted)| == teamToSort.Length;
    forall k | 0 <= k < teamToSort.Length {
      teamToSort[k] := sorted[k];
    }
    assert teamToSort[..] == sorted;
  }

  /** The ranking loop of `sortList` over the points-sorted array. */
  method RankSeeds(teamToSort: array<TeamStats>, groupResults: seq<seq<FinalStats>>)
    modifies teamToSort
    ensures teamToSort[..] == WithDrawRanks(TiePass(old(teamToSort[..]), Points, SeedPrefers(groupResults), 0))
  {
    ghost var sorted := teamToSort[..];
    ghost var g := sorted;
    var i := 0;
    while i < teamToSort.Length
      invariant TiePass(g, Points, SeedPrefers(groupResults), i) == TiePass(sorted, Points, SeedPrefers(groupResults), 0)
      invariant SeededUpTo(teamToSort[..], g, i)
    {
      SeedStepFollows(groupResults, teamToSort[..], g, i);
      SeedAt(teamToSort, i, groupResults);
      if i + 1 < teamToSort.Length {
        g := Step(g, Points, SeedPrefers(groupResults), i);
      }
      i := i + 1;
    }
    assert teamToSort[..] == WithDrawRanks(g);
  }

  // ---------------------------------------------------------------------
  // The pots and the quarterfinal pairing

  /** One pot of the draw (`drawD` .. `drawG`): two consecutive entries of
      the seeding, `undefined` past its end. */
  datatype Pot = Pot(first: Option<TeamStats>, second: Option<TeamStats>)

  /** A quarterfinal pairing: the two pot entries that meet. */
  type Pairing = (Option<TeamStats>, Option<TeamStats>)

  /** `pot[c]`. */
  function Slot(p: Pot, c: nat): Option<TeamStats>
    requires c <= 1
  {
    if c == 0 then p.first else p.second
  }

  /** The four pairings `startSchema` pushes for the coin `coin` and the
      other index `1 - coin`: pot D meets pot G and pot E meets pot F. */
  function QuarterPairs(d: Pot, e: Pot, f: Pot, g: Pot, coin: nat): (r: seq<Pairing>)
    requires coin <= 1
    ensures |r| == 4
  {
    [(Slot(d, coin), Slot(g, 1 - coin)), (Slot(d, 1 - coin), Slot(g, coin)),
     (Slot(e, coin), Slot(f, 1 - coin)), (Slot(e, 1 - coin), Slot(f, coin))]
  }

  /** `x` and `y` are the two entries of the pot `p`, in one order or the other. */
  predicate FillsPot(x: Option<TeamStats>, y: Option<TeamStats>, p: Pot)
  {
    (x == p.first && y == p.second) || (x == p.second && y == p.first)
  }

  /** Whatever the coin, the first two matches put both entries of pot D
      against both entries of pot G and the last two pot E against pot F,
      every entry in exactly one match. */
  lemma QuarterPairsCover(d: Pot, e: Pot, f: Pot, g: Pot, coin: nat)
    requires coin <= 1
    ensures |QuarterPairs(d, e, f, g, coin)| == 4
    ensures var q := QuarterPairs(d, e, f, g, coin);
      FillsPot(q[0].0, q[1].0, d) && FillsPot(q[0].1, q[1].1, g) &&
      FillsPot(q[2].0, q[3].0, e) && FillsPot(q[2].1, q[3].1, f)
  {
  }

  /** The coin changes only the order of the matches, not who meets whom:
      the two D-G matches trade places, and so do the two E-F matches. */
  lemma CoinOrdersOnly(d: Pot, e: Pot, f: Pot, g: Pot)
    ensures var q0, q1 := QuarterPairs(d, e, f, g, 0), QuarterPairs(d, e, f, g, 1);
      q1 == [q0[1], q0[0], q0[3], q0[2]]
  {
  }

  /** With the pots filled from a seeded list, seed k meets seed 7 - k
      whatever the coin: 0 v 7 and 1 v 6 across pots D and G, 2 v 5 and
      3 v 4 across pots E and F, in the order the coin picks. */
  lemma SeedCrossing(s: seq<TeamStats>, coin: nat)
    requires coin <= 1
    ensures var p := PotsOf(s);
      var q := QuarterPairs(p.0.value, p.1.value, p.2.value, p.3.value, coin);
      q[0] == (Place(s, coin), Place(s, 7 - coin)) && q[1] == (Place(s, 1 - coin), Place(s, 6 + coin)) &&
      q[2] == (Place(s, 2 + coin), Place(s, 5 - coin)) && q[3] == (Place(s, 3 - coin), Place(s, 4 + coin))
  {
  }

  // ---------------------------------------------------------------------
  // The bracket

  /** The names of the roster teams, in roster order. */
  function RosterNames(roster: seq<Team>): (r: seq<string>)
    ensures |r| == |roster|
  {
    if roster == [] then [] else [roster[0].name] + RosterNames(roster[1..])
  }

  /** Entry k of the names is the name of roster team k. */
  lemma {:induction false} RosterNamesAt(roster: seq<Team>)
    ensures forall k :: 0 <= k < |roster| ==> RosterNames(roster)[k] == roster[k].name
  {
    if roster != [] {
      RosterNamesAt(roster[1..]);
      assert forall k :: 1 <= k < |roster| ==> RosterNames(roster)[k] == RosterNames(roster[1..])[k - 1];
    }
  }

  /** `teams.find` by name over the roster of teams: the first team named
      `name`, if any. */
  function FindTeam(roster: seq<Team>, name: string): (r: Option<Team>)
    ensures r.None? <==> forall k :: 0 <= k < |roster| ==> roster[k].name != name
    ensures r.Some? ==> exists k :: (0 <= k < |roster| && roster[k] == r.value && r.value.name == name &&
      forall j :: 0 <= j < k ==> roster[j].name != name)
  {
    RosterNamesAt(roster);
    match FirstIndex(RosterNames(roster), name)
      case None => None
      case Some(k) => Some(roster[k])
  }

  /** The roster team a pairing entry stands for; none for an empty entry. */
  function Lookup(roster: seq<Team>, entry: Option<TeamStats>): Option<Team>
  {
    if entry.None? then None else FindTeam(roster, entry.value.name)
  }

  /** Both entries of the pairing are there and name roster teams: the
      match can be played. */
  predicate PairPlayable(roster: seq<Team>, p: Pairing)
  {
    Lookup(roster, p.0).Some? && Lookup(roster, p.1).Some?
  }

  predicate Playable(roster: seq<Team>, pairs: seq<Pairing>)
  {
    forall k :: 0 <= k < |pairs| ==> PairPlayable(roster, pairs[k])
  }

  /** The team the bracket keeps after `a` plays `b` with the draw `d`:
      `a` when the returned name is its own, `b` otherwise. */
  function MatchWinner(a: Team, b: Team, d: MatchDraw): (r: Team)
    ensures r == a || r == b
    ensures r.name == WinnerName(a, b, d)
  {
    if WinnerName(a, b, d) == a.name then a else b
  }

  function MatchLoser(a: Team, b: Team, d: MatchDraw): (r: Team)
    ensures r == a || r == b
    ensures a != b ==> r != MatchWinner(a, b, d)
  {
    if WinnerName(a, b, d) == a.name then b else a
  }

  /** The roster team that goes through from the quarterfinal `p`. */
  function QuarterWinner(roster: seq<Team>, p: Pairing, d: MatchDraw): Team
    requires PairPlayable(roster, p)
  {
    MatchWinner(Lookup(roster, p.0).value, Lookup(roster, p.1).value, d)
  }

  /** The pairings before the end of `winners` are playable, and `winners`
      holds their winners in order, the k-th played with draw k. */
  ghost predicate QuartersPlayed(roster: seq<Team>, pairs: seq<Pairing>, draws: seq<MatchDraw>, winners: seq<Team>)
  {
    |winners| <= |pairs| && |winners| <= |draws| &&
    forall k :: 0 <= k < |winners| ==>
      PairPlayable(roster, pairs[k]) && winners[k] == QuarterWinner(roster, pairs[k], draws[k])
  }

  /** Playing the next pairing extends the winners by its winner. */
  lemma QuarterPlayed(roster: seq<Team>, pairs: seq<Pairing>, draws: seq<MatchDraw>, winners: seq<Team>, w: Team)
    requires QuartersPlayed(roster, pairs, draws, winners)
    requires |winners| < |pairs| && |winners| < |draws| && PairPlayable(roster, pairs[|winners|])
    requires w == QuarterWinner(roster, pairs[|winners|], draws[|winners|])
    ensures QuartersPlayed(roster, pairs, draws, winners + [w])
  {
    var next := winners + [w];
    forall k | 0 <= k < |next|
      ensures PairPlayable(roster, pairs[k]) && next[k] == QuarterWinner(roster, pairs[k], draws[k])
    {
      if k < |winners| {
        assert next[k] == winners[k];
      }
    }
  }

  /** The semifinal list: the winners of the four quarterfinals in order,
      the k-th played with draw k. */
  function Semifinalists(roster: seq<Team>, pairs: seq<Pairing>, draws: seq<MatchDraw>): (r: seq<Team>)
    requires |pairs| == 4 && |draws| >= 4 && Playable(roster, pairs)
    ensures |r| == 4
    ensures forall k :: 0 <= k < 4 ==> r[k] in roster
  {
    seq(4, k requires 0 <= k < 4 => QuarterWinner(roster, pairs[k], draws[k]))
  }

  /** The names of the two teams of a playable pairing. */
  function PairNames(p: Pairing): set<string>
    requires p.0.Some? && p.1.Some?
  {
    {p.0.value.name, p.1.value.name}
  }

  /** Quarterfinals with no name in common send four different teams to the
      semifinals. */
  lemma SemifinalistsDistinct(roster: seq<Team>, pairs: seq<Pairing>, draws: seq<MatchDraw>)
    requires |pairs| == 4 && |draws| >= 4 && Playable(roster, pairs)
    requires forall k, l :: 0 <= k < l < 4 ==> PairNames(pairs[k]) !! PairNames(pairs[l])
    ensures forall k, l :: 0 <= k < l < 4 ==> Semifinalists(roster, pairs, draws)[k] != Semifinalists(roster, pairs, draws)[l]
  {
    var sf := Semifinalists(roster, pairs, draws);
    forall k | 0 <= k < 4
      ensures sf[k].name in PairNames(pairs[k])
    {
      assert sf[k] == QuarterWinner(roster, pairs[k], draws[k]);
    }
  }

  /** What `toString()` gives for a team object, which defines none. */
  const ObjectString: string := "[object Object]"

  /** The semifinal test as written compares the winner's name with the
      first team's `toString()`: the first team goes to the final only when
      the winner's name equals that string, and the second team otherwise. */
  function FinalEntrant(a: Team, b: Team, d: MatchDraw): Team
  {
    if WinnerName(a, b, d) == ObjectString then a else b
  }

  /** The other team of the semifinal goes to the match for third place. */
  function ThirdEntrant(a: Team, b: Team, d: MatchDraw): Team
  {
    if WinnerName(a, b, d) == ObjectString then b else a
  }

  /** The final as built from the semifinals 0 v 3 (draw 4) and 1 v 2
      (draw 5). */
  function FinalPair(sf: seq<Team>, draws: seq<MatchDraw>): seq<Team>
    requires |sf| == 4 && |draws| >= 6
  {
    [FinalEntrant(sf[0], sf[3], draws[4]), FinalEntrant(sf[1], sf[2], draws[5])]
  }

  /** The match for third place as built from the same two semifinals. */
  function ThirdPair(sf: seq<Team>, draws: seq<MatchDraw>): seq<Team>
    requires |sf| == 4 && |draws| >= 6
  {
    [ThirdEntrant(sf[0], sf[3], draws[4]), ThirdEntrant(sf[1], sf[2], draws[5])]
  }

  /** Unless a team is literally named "[object Object]", the final is
      always semifinalist 3 against semifinalist 2 and the match for third
      place semifinalist 0 against semifinalist 1, whoever won the
      semifinals. */
  lemma BracketAsWritten(sf: seq<Team>, draws: seq<MatchDraw>)
    requires |sf| == 4 && |draws| >= 6
    requires forall k :: 0 <= k < 4 ==> sf[k].name != ObjectString
    ensures FinalPair(sf, draws) == [sf[3], sf[2]]
    ensures ThirdPair(sf, draws) == [sf[0], sf[1]]
  {
    assert WinnerName(sf[0], sf[3], draws[4]) in {sf[0].name, sf[3].name};
    assert WinnerName(sf[1], sf[2], draws[5]) in {sf[1].name, sf[2].name};
  }

  /** Unless a team is named "[object Object]", the final is always
      between the winners of the two pot E v pot F quarterfinals and the
      match for third place between the winners of the two pot D v pot G
      quarterfinals, whatever the semifinals give: no team of pot D or G can
      finish better than third. */
  lemma FinalFromPotsEF(roster: seq<Team>, d: Pot, e: Pot, f: Pot, g: Pot, coin: nat, draws: seq<MatchDraw>)
    requires coin <= 1 && |draws| >= 8
    requires Playable(roster, QuarterPairs(d, e, f, g, coin))
    requires forall t :: t in roster ==> t.name != ObjectString
    ensures var q := QuarterPairs(d, e, f, g, coin);
      var sf := Semifinalists(roster, q, draws);
      FinalPair(sf, draws) == [QuarterWinner(roster, q[3], draws[3]), QuarterWinner(roster, q[2], draws[2])] &&
      ThirdPair(sf, draws) == [QuarterWinner(roster, q[0], draws[0]), QuarterWinner(roster, q[1], draws[1])] &&
      FillsPot(q[2].0, q[3].0, e) && FillsPot(q[2].1, q[3].1, f) &&
      FillsPot(q[0].0, q[1].0, d) && FillsPot(q[0].1, q[1].1, g)
  {
    var q := QuarterPairs(d, e, f, g, coin);
    var sf := Semifinalists(roster, q, draws);
    QuarterPairsCover(d, e, f, g, coin);
    BracketAsWritten(sf, draws);
  }

  /** Each semifinal sends one team to the final and the other to the match
      for third place, so with four different semifinalists the gold,
      silver and bronze medallists are three different teams. */
  lemma MedallistsDistinct(sf: seq<Team>, draws: seq<MatchDraw>)
    requires |sf| == 4 && |draws| >= 8
    requires forall k, l :: 0 <= k < l < 4 ==> sf[k] != sf[l]
    ensures var fp, tp := FinalPair(sf, draws), ThirdPair(sf, draws);
      ((fp[0] == sf[0] && tp[0] == sf[3]) || (fp[0] == sf[3] && tp[0] == sf[0])) &&
      ((fp[1] == sf[1] && tp[1] == sf[2]) || (fp[1] == sf[2] && tp[1] == sf[1]))
    ensures var fp, tp := FinalPair(sf, draws), ThirdPair(sf, draws);
      var gold, silver, bronze := MatchWinner(fp[0], fp[1], draws[7]), MatchLoser(fp[0], fp[1], draws[7]),
        MatchWinner(tp[0], tp[1], draws[6]);
      gold != silver && gold != bronze && silver != bronze
  {
  }

  /** Placement `c` (0 first, 1 second, 2 third) of every group, in order. */
  function Column(gs: seq<Group>, c: nat): (r: seq<Option<TeamStats>>)
    reads gs
    ensures |r| == |gs|
  {
    if gs == [] then []
    else
      var place := if c == 0 then gs[0].firstPlaced else if c == 1 then gs[0].secondPlaced else gs[0].thirdPlaced;
      [place] + Column(gs[1..], c)
  }

  /** The placements of every group: all firsts, then all seconds, then
      all thirds, as `createDraw` pools them. */
  function Pool(gs: seq<Group>): (r: seq<Option<TeamStats>>)
    reads gs
    ensures |r| == 3 * |gs|
  {
    Column(gs, 0) + Column(gs, 1) + Column(gs, 2)
  }

  /** Entry k of a column is group k's placement in that column. */
  lemma {:induction false} ColumnAt(gs: seq<Group>, c: nat)
    ensures forall k :: 0 <= k < |gs| ==>
      Column(gs, c)[k] == (if c == 0 then gs[k].firstPlaced else if c == 1 then gs[k].secondPlaced else gs[k].thirdPlaced)
  {
    if gs != [] {
      ColumnAt(gs[1..], c);
      forall k | 0 < k < |gs|
        ensures Column(gs, c)[k] == Column(gs[1..], c)[k - 1]
      {
      }
    }
  }

  /** The pool lists the first placed team of every group, in group order,
      then the second placed teams, then the third placed teams. */
  lemma PoolOrder(gs: seq<Group>)
    ensures forall k :: 0 <= k < |gs| ==>
      Pool(gs)[k] == gs[k].firstPlaced && Pool(gs)[|gs| + k] == gs[k].secondPlaced &&
      Pool(gs)[2 * |gs| + k] == gs[k].thirdPlaced
  {
    ColumnAt(gs, 0);
    ColumnAt(gs, 1);
    ColumnAt(gs, 2);
  }

  /** The four pots filled from a seeded list: D with entries 0 and 1,
      E with 2 and 3, F with 4 and 5, G with 6 and 7. */
  function PotsOf(s: seq<TeamStats>): (r: (Option<Pot>, Option<Pot>, Option<Pot>, Option<Pot>))
    ensures r.0.Some? && r.1.Some? && r.2.Some? && r.3.Some?
    ensures forall k :: 0 <= k < 8 ==>
      Slot([r.0.value, r.1.value, r.2.value, r.3.value][k / 2], k % 2) == Place(s, k)
  {
    (Some(Pot(Place(s, 0), Place(s, 1))), Some(Pot(Place(s, 2), Place(s, 3))),
     Some(Pot(Place(s, 4), Place(s, 5))), Some(Pot(Place(s, 6), Place(s, 7))))
  }

  predicate AllPresent(p: seq<Option<TeamStats>>)
  {
    forall k :: 0 <= k < |p| ==> p[k].Some?
  }

  function Values(p: seq<Option<TeamStats>>): (r: seq<TeamStats>)
    requires AllPresent(p)
    ensures |r| == |p|
    ensures forall k :: 0 <= k < |p| ==> p[k] == Some(r[k])
  {
    seq(|p|, k requires 0 <= k < |p| => p[k].value)
  }

  /** One knockout match: `a.startMatch(b)` with the draw `d`, of which the
      bracket uses only the returned name. */
  method Play(a: Team, b: Team, d: MatchDraw) returns (winner: string)
    modifies a, b
    ensures winner == WinnerName(a, b, d)
  {
    winner := a.StartMatch(b, d);
  }

  /** One pass of the quarterfinal loop: both entries are looked up in the
      roster by name and the two teams play. None when an entry is empty or
      names no roster team, where the source stops with a TypeError. */
  method PlayQuarterfinal(roster: seq<Team>, group: Pairing, d: MatchDraw) returns (winner: Option<Team>)
    modifies roster
    ensures winner.Some? == PairPlayable(roster, group)
    ensures winner.Some? ==> winner.value == QuarterWinner(roster, group, d)
  {
    if group.0.None? || group.1.None? {
      return None;
    }
    var selectedTeam := FindTeam(roster, group.0.value.name);
    var enemyTeam := FindTeam(roster, group.1.value.name);
    if selectedTeam.None? || enemyTeam.None? {
      return None;
    }
    var result := Play(selectedTeam.value, enemyTeam.value, d);
    if result == selectedTeam.value.name {
      winner := Some(selectedTeam.value);
    } else {
      winner := Some(enemyTeam.value);
    }
  }

  class Draw {
    const groups: seq<Group>
    const groupResults: seq<seq<FinalStats>>
    var drawD: Option<Pot>
    var drawE: Option<Pot>
    var drawF: Option<Pot>
    var drawG: Option<Pot>
    var quarterfinal: seq<Pairing>
    var semifinal: seq<Team>
    var teamsForThirdPlace: seq<Team>
    var final: seq<Team>
    var firstPlaced: Team?
    var secondPlaced: Team?
    var thirdPlaced: Team?

    /** The four pots are set together or not at all. */
    ghost predicate Valid()
      reads this
    {
      drawD.Some? == drawE.Some? && drawE.Some? == drawF.Some? && drawF.Some? == drawG.Some?
    }

    /** A draw over copies of the group list and the group results, with
      no pots and an empty bracket. */
    constructor (groups: seq<Group>, groupResults: seq<seq<FinalStats>>)
      ensures this.groups == groups && this.groupResults == groupResults
      ensures drawD == None && drawE == None && drawF == None && drawG == None
      ensures quarterfinal == [] && semifinal == [] && teamsForThirdPlace == [] && final == []
      ensures firstPlaced == null && secondPlaced == null && thirdPlaced == null
      ensures Valid()
    {
      this.groups := groups;
      this.groupResults := groupResults;
      drawD, drawE, drawF, drawG := None, None, None, None;
      quarterfinal, semifinal, teamsForThirdPlace, final := [], [], [], [];
      firstPlaced, secondPlaced, thirdPlaced := null, null, null;
    }

    /** `sortList`: sorts the array by points and ranks it in one pass,
      swapping a tie when the lower entry scored more points in the group
      stage. */
    method SortList(teamToSort: array<TeamStats>)
      modifies teamToSort
      ensures teamToSort[..] == Seeding(old(teamToSort[..]), groupResults)
    {
      SortByPoints(teamToSort);
      RankSeeds(teamToSort, groupResults);
    }

    /** `createDraw`: pools the placements of the groups in
      `globalGroups` (the program-wide group list, not this draw's copy),
      seeds them, and fills the pots D, E, F and G with entries 0-1, 2-3,
      4-5 and 6-7. An empty placement in the pool makes the seeding fail
      and leaves the draw as it was. */
    method CreateDraw(globalGroups: seq<Group>) returns (ok: bool)
      modifies this`drawD, this`drawE, this`drawF, this`drawG
      ensures ok == AllPresent(old(Pool(globalGroups)))
      ensures ok ==> (drawD, drawE, drawF, drawG) == PotsOf(Seeding(Values(old(Pool(globalGroups))), groupResults))
      ensures !ok ==> (drawD, drawE, drawF, drawG) == old((drawD, drawE, drawF, drawG))
      ensures old(Valid()) ==> Valid()
    {
      var pool := Pool(globalGroups);
      if !AllPresent(pool) {
        return false;
      }
      var allTeams := Values(pool);
      var teamToSort := new TeamStats[|allTeams|](k requires 0 <= k < |allTeams| => allTeams[k]);
      assert teamToSort[..] == allTeams;
      SortList(teamToSort);
      var sorted := teamToSort[..];
      drawD := Some(Pot(Place(sorted, 0), Place(sorted, 1)));
      drawE := Some(Pot(Place(sorted, 2), Place(sorted, 3)));
      drawF := Some(Pot(Place(sorted, 4), Place(sorted, 5)));
      drawG := Some(Pot(Place(sorted, 6), Place(sorted, 7)));
      ok := true;
    }

    /** `startSchema`: pairs the pots with the coin `coin`, plays the
      quarterfinals with draws 0-3 between the roster teams the entries
      name, the semifinals 0 v 3 and 1 v 2 with draws 4 and 5, then the
      match for third place with draw 6 and the final with draw 7. Missing
      pots, an empty entry or a name not in the roster stop it (`ok` false). */
    method StartSchema(roster: seq<Team>, coin: nat, draws: seq<MatchDraw>) returns (ok: bool)
      requires Valid() && coin <= 1 && |draws| >= 8
      requires quarterfinal == [] && semifinal == [] && teamsForThirdPlace == [] && final == []
      modifies this`quarterfinal, this`semifinal, this`teamsForThirdPlace, this`final
      modifies this`firstPlaced, this`secondPlaced, this`thirdPlaced, roster
      ensures old(drawD).None? ==> !ok && quarterfinal == [] && semifinal == [] && teamsForThirdPlace == [] && final == []
      ensures old(drawD).None? ==>
        firstPlaced == old(firstPlaced) && secondPlaced == old(secondPlaced) && thirdPlaced == old(thirdPlaced) &&
        unchanged(roster)
      ensures old(drawD).Some? ==>
        quarterfinal == QuarterPairs(old(drawD).value, old(drawE).value, old(drawF).value, old(drawG).value, coin)
      ensures ok <==> old(drawD).Some? && Playable(roster, quarterfinal)
      ensures ok ==> Bracket(roster, draws)
    {
      if drawD.None? {
        return false;
      }
      PairPots(coin);
      ghost var q := quarterfinal;
      assert q == QuarterPairs(old(drawD).value, old(drawE).value, old(drawF).value, old(drawG).value, coin);
      ok := PlayBracket(roster, draws);
      assert quarterfinal == q;
    }

    /** The bracket after a complete run: the winners of the quarterfinals
      in order, the final and the match for third place as the semifinal
      test builds them, the bronze to the winner of the match for third
      place, the gold to the winner of the final and the silver to its
      loser. */
    ghost predicate Bracket(roster: seq<Team>, draws: seq<MatchDraw>)
      reads this
    {
      |quarterfinal| == 4 && |draws| >= 8 && Playable(roster, quarterfinal) &&
      semifinal == Semifinalists(roster, quarterfinal, draws) &&
      final == FinalPair(semifinal, draws) && teamsForThirdPlace == ThirdPair(semifinal, draws) &&
      thirdPlaced == MatchWinner(teamsForThirdPlace[0], teamsForThirdPlace[1], draws[6]) &&
      firstPlaced == MatchWinner(final[0], final[1], draws[7]) &&
      secondPlaced == MatchLoser(final[0], final[1], draws[7])
    }

    /** Everything after the pairing: quarterfinals, semifinals, the match
      for third place and the final. */
    method PlayBracket(roster: seq<Team>, draws: seq<MatchDraw>) returns (ok: bool)
      requires |quarterfinal| == 4 && semifinal == [] && teamsForThirdPlace == [] && final == [] && |draws| >= 8
      modifies this`semifinal, this`teamsForThirdPlace, this`final
      modifies this`firstPlaced, this`secondPlaced, this`thirdPlaced, roster
      ensures ok == Playable(roster, quarterfinal)
      ensures ok ==> Bracket(roster, draws)
    {
      ok := PlayQuarterfinals(roster, draws);
      if !ok {
        return;
      }
      PlaySemifinals(draws);
      PlayMedalMatches(draws);
    }

    /** The switch on the coin: pushes the four pairings. */
    method PairPots(coin: nat)
      requires Valid() && drawD.Some? && coin <= 1
      modifies this`quarterfinal
      ensures quarterfinal == old(quarterfinal) + QuarterPairs(drawD.value, drawE.value, drawF.value, drawG.value, coin)
    {
      var teamNum1 := coin;
      var teamNum2 := if teamNum1 == 0 then 1 else 0;
      var d, e, f, g := drawD.value, drawE.value, drawF.value, drawG.value;
      quarterfinal := quarterfinal + [(Slot(d, teamNum1), Slot(g, teamNum2))];
      quarterfinal := quarterfinal + [(Slot(d, teamNum2), Slot(g, teamNum1))];
      quarterfinal := quarterfinal + [(Slot(e, teamNum1), Slot(f, teamNum2))];
      quarterfinal := quarterfinal + [(Slot(e, teamNum2), Slot(f, teamNum1))];
    }

    /** The quarterfinal loop: the winner of each pairing joins the
      semifinal list. */
    method PlayQuarterfinals(roster: seq<Team>, draws: seq<MatchDraw>) returns (ok: bool)
      requires |quarterfinal| == 4 && semifinal == [] && |draws| >= 4
      modifies this`semifinal, roster
      ensures quarterfinal == old(quarterfinal) && final == old(final) && teamsForThirdPlace == old(teamsForThirdPlace)
      ensures ok == Playable(roster, quarterfinal)
      ensures ok ==> semifinal == Semifinalists(roster, quarterfinal, draws)
    {
      var i := 0;
      while i < |quarterfinal|
        invariant 0 <= i <= 4 && |semifinal| == i
        invariant QuartersPlayed(roster, quarterfinal, draws, semifinal)
      {
        var winner := PlayQuarterfinal(roster, quarterfinal[i], draws[i]);
        if winner.None? {
          return false;
        }
        QuarterPlayed(roster, quarterfinal, draws, semifinal, winner.value);
        semifinal := semifinal + [winner.value];
        i := i + 1;
      }
      ok := true;
    }

    /** The two semifinals, and the split of their teams between the final
      and the match for third place by the test as written. */
    method PlaySemifinals(draws: seq<MatchDraw>)
      requires |semifinal| == 4 && final == [] && teamsForThirdPlace == [] && |draws| >= 6
      modifies this`final, this`teamsForThirdPlace, semifinal
      ensures quarterfinal == old(quarterfinal) && semifinal == old(semifinal)
      ensures final == FinalPair(semifinal, draws) && teamsForThirdPlace == ThirdPair(semifinal, draws)
    {
      var firstSemifinalTeam1, firstSemifinalTeam2 := semifinal[0], semifinal[3];
      var secondSemifinalTeam1, secondSemifinalTeam2 := semifinal[1], semifinal[2];
      var resultFirstSemifinal := Play(firstSemifinalTeam1, firstSemifinalTeam2, draws[4]);
      var resultSecondSemifinal := Play(secondSemifinalTeam1, secondSemifinalTeam2, draws[5]);
      if resultFirstSemifinal == ObjectString {
        final := final + [firstSemifinalTeam1];
        teamsForThirdPlace := teamsForThirdPlace + [firstSemifinalTeam2];
      } else {
        final := final + [firstSemifinalTeam2];
        teamsForThirdPlace := teamsForThirdPlace + [firstSemifinalTeam1];
      }
      if resultSecondSemifinal == ObjectString {
        final := final + [secondSemifinalTeam1];
        teamsForThirdPlace := teamsForThirdPlace + [secondSemifinalTeam2];
      } else {
        final := final + [secondSemifinalTeam2];
        teamsForThirdPlace := teamsForThirdPlace + [secondSemifinalTeam1];
      }
    }

    /** The match for third place, then the final. */
    method PlayMedalMatches(draws: seq<MatchDraw>)
      requires |final| == 2 && |teamsForThirdPlace| == 2 && |draws| >= 8
      modifies this`firstPlaced, this`secondPlaced, this`thirdPlaced, final, teamsForThirdPlace
      ensures quarterfinal == old(quarterfinal) && semifinal == old(semifinal)
      ensures final == old(final) && teamsForThirdPlace == old(teamsForThirdPlace)
      ensures thirdPlaced == MatchWinner(teamsForThirdPlace[0], teamsForThirdPlace[1], draws[6])
      ensures firstPlaced == MatchWinner(final[0], final[1], draws[7])
      ensures secondPlaced == MatchLoser(final[0], final[1], draws[7])
    {
      var resultForThirdPlace := Play(teamsForThirdPlace[0], teamsForThirdPlace[1], draws[6]);
      if resultForThirdPlace == teamsForThirdPlace[0].name {
        thirdPlaced := teamsForThirdPlace[0];
      } else {
        thirdPlaced := teamsForThirdPlace[1];
      }
      var resultFinal := Play(final[0], final[1], draws[7]);
      if resultFinal == final[0].name {
        firstPlaced, secondPlaced := final[0], final[1];
      } else {
        firstPlaced, secondPlaced := final[1], final[0];
      }
    }
  }
}
