# Olympic basketball tournament engine — a verified model

This project models `index.js` in Dafny. `index.js` is a small engine that
simulates the Olympic basketball tournament:

- **Group stage:** teams are split into groups and each group plays a round robin.
  - A win is worth 3 points and a loss 1.
  - Each match records a result string such as `"87-80"` and a score
    difference on both teams.
- **Standings:** each group's standings come from one pass over the
  points-sorted team list. A tie between neighbours is settled head to head.
- **Seeding:** the first, second and third placed teams of every group are
  pooled and sorted the same way. Ties are settled on points scored in the
  group stage.
- **Pots:** the seeded list fills the pots D, E, F and G.
- **Knockout bracket:** a coin pairs pot D with pot G and pot E with pot F for
  the quarterfinals, followed by semifinals, a match for third place and a
  final.

Modules:

- `Js` (`js.dfy`): the JavaScript conversions the engine depends on: formatting an integer in a template literal, `split` with a one-character separator, unary plus on a string (a number or NaN), and `+` and `<` on numbers that may be NaN.
- `Scores` (`scores.dfy`): a match's random inputs, how its scores are normalised, and the result string with its reading back.
- `Teams` (`teams.dfy`): the `Team` class: its record of wins and losses, `startMatch`, `playWithRest`, the stats snapshot and the final statistics.
- `RoundRobin` (`roundrobin.dfy`): the match schedule that `startMatches` plays, as pairs of list positions.
- `Ranking` (`ranking.dfy`): the stable sort by descending points and the one-pass tie swap, generic over the tie rule.
- `Groups` (`groups.dfy`): the `Group` class: the round robin, the standings, and the final group statistics.
- `Draws` (`draws.dfy`): the `Draw` class: the seeding (`sortList`, `getTeamPoints`), the pots (`createDraw`) and the bracket (`startSchema`).

Modelling choices:

- **Randomness is an input.**
  - Each match takes a `MatchDraw`:
    - whether the calling team wins, which stands in for the Elo draw;
    - the two raw scores in [0, 120].
  - A round robin over n teams reads its draws in playing order from a
    stream.
  - The knockout stage reads eight draws: four quarterfinals, two semifinals,
    the match for third place, then the final.
  - `startSchema`'s coin is a parameter in {0, 1}.
- **Team identity.** A team's name, code, rank and group are never
  reassigned, so they are `const` fields. The counters and lists are `var`
  fields, updated in place.
- **Snapshots are values.** `getStats()` snapshots become values of the
  datatype `TeamStats`. The group standings and the seeding write ranks onto
  these snapshots, never onto the teams, and the model does the same.
- **Crashes become a failure result.** A path on which the JavaScript would
  throw a TypeError returns `ok == false`. Such a path reads a property of
  `undefined` or `null`: an empty placement, a missing pot, or a name that
  is not in the roster.
- **Two team lists, two sets of objects.** The knockout stage looks teams up
  by name in the program-wide `teams` roster (`index.js:379-380`). That
  roster holds objects separate from the teams of the groups, so knockout
  matches are recorded on the roster teams. The roster is a parameter of
  `StartSchema`.
- **The global group list is a parameter.** `createDraw` pools the placements
  of the program-wide `groups` list (`index.js:339-341`), not its own copy,
  so `CreateDraw` takes that list as a parameter.

Three behaviours of the code are modelled as written:

- **A tie at zero leaves a -1 score** (`index.js:166-169`).
  - When both score draws are 0, the loser's score becomes -1.
  - The result strings `"0--1"` and `"-1-0"` then read back as (0, 0) and
    (0, 1), not as (0, -1) and (-1, 0).
  - `NegativeScoreMisread` shows this. `ResultRoundTrip` proves that every
    other score pair reads back intact.
- **The semifinal test compares a name with `"[object Object]"`**
  (`index.js:402` and `index.js:410`).
  - It compares the winner's name with the first team's `toString()`, which
    is `"[object Object]"` for a `Team`.
  - So, unless a team bears that name, the final is always semifinalist 3
    against semifinalist 2. The match for third place is always
    semifinalist 0 against semifinalist 1, whoever won the semifinals.
  - `BracketAsWritten` states this. `MedallistsDistinct` shows that the three
    medallists are still three different teams.
- **The coin only reorders the quarterfinals.**
  - It swaps the two pot D v pot G quarterfinals with each other, and the
    two pot E v pot F quarterfinals with each other. It never changes who
    meets whom (`CoinOrdersOnly`): seed k always meets seed 7 - k
    (`SeedCrossing`).
  - The semifinals pair quarterfinal winners 0 v 3 and 1 v 2, so the coin
    only swaps the order of the two semifinals.
  - Together with the name test above, the final is always between the
    winners of the two pot E v pot F quarterfinals, and the match for third
    place between the winners of the two pot D v pot G quarterfinals
    (`FinalFromPotsEF`). A team from pot D or G finishes third at best.

## Model

| member | source | states |
|---|---|---|
| `Js.DecimalDigits` | index.js:179 | the decimal form of a non-negative score is a non-empty string of digits |
| `Js.DecimalRoundTrip` | index.js:67 | unary plus on the decimal form of n gives back the number n |
| `Js.Split` | index.js:67-68 | `split` on the one-character separator keeps empty pieces and always gives at least one piece; `SplitWithoutSeparator` and `SplitAtFirstSeparator` say what the pieces are |
| `Js.SplitWithoutSeparator` | index.js:67-68 | a string without the separator splits into a single piece, itself |
| `Js.SplitAtFirstSeparator` | index.js:67-68 | splitting `a-b`, where `a` has no `-`, yields `a` followed by the pieces of `b` |
| `Js.DigitsHaveNoSeparator` | index.js:179 | a string of digits holds no `-` |
| `Scores.StrengthOrder` | index.js:139-148 | (stronger, weaker) is the caller's rank and the opponent's rank, in non-decreasing order |
| `Scores.NormaliseScore` | index.js:156-173 | the winner's score is the larger draw and is strictly above the loser's; on different draws the loser gets the smaller one, on equal draws the loser gets the draw minus one |
| `Scores.ScoreRange` | index.js:159-173 | with draws in [0, 120] the winner's score is in [0, 120], the loser's in [-1, 119], and it is -1 exactly when both draws are 0 |
| `Scores.ResultRoundTrip` | index.js:67-68 | for non-negative scores a, b the result string `a-b` reads back as a on the left and b on the right |
| `Scores.NegativeScoreMisread` | index.js:166-169 | the -1 case: `"0--1"` reads as (0, 0) and `"-1-0"` as (0, 1), so the scores do not round-trip |
| `Teams.AddRecords` | index.js:66-80 | one accumulation loop adds the readings of its records to the running totals: the left halves, the right halves and the differences, each summed in record order |
| `Teams.RecordTotals` | index.js:60-93 | for records written from non-negative scores, points scored and allowed are numbers (never NaN) and the summed difference equals scored minus allowed |
| `Teams.TotalsFromReadings` | index.js:66-80 | for any prefix of such records, the running totals are numbers and the summed difference equals scored minus allowed |
| `Teams.Team.constructor` | index.js:9-25 | a new team has the roster entry's name, code and rank and the given group, no matches, 0 points and no ranks |
| `Teams.WinsAndLosses` | index.js:108-127 | every match is written down once, either in the wins list or in the losses list |
| `Teams.OutcomesAppend` | index.js:108-127 | the win and loss entries of two runs of matches are those of the first run followed by those of the second |
| `Teams.MirroredOutcomes` | index.js:176-204 | the two entries of one match mirror each other: one win and one loss, each naming the other team, opposite differences, the winner's positive, and result strings with the two scores exchanged |
| `Teams.ReplayLists` | index.js:108-127 | a run of matches appends its win entries to the wins list and its loss entries to the losses list, in playing order, raises the counts to match, adds 3 points per win and 1 per loss, and leaves name and ranks alone |
| `Teams.ReplayConsistent` | index.js:108-127 | playing matches keeps the bookkeeping invariant: counts equal list lengths, points = 3 per win + 1 per loss |
| `Teams.ReplayAppend` | index.js:96-105 | two runs of matches, one after the other, act as one run |
| `Teams.StatsOf` | index.js:230-232 | the snapshots are those of the teams, one per team in list order |
| `Teams.HeadOutcomes` | index.js:96-105 | the caller's entries against a list of teams: one per team, the j-th against team j with draw j |
| `Teams.Winners` | index.js:96-105 | the names returned against a list of teams: one per team, the j-th for the match against team j with draw j |
| `Teams.Extend` | index.js:99-103 | one more match extends the names returned and the caller's entries by that match |
| `Teams.HeadStep` | index.js:99-103 | the caller's snapshot after the match against team j is its snapshot after the matches against the teams before j, plus that match |
| `Teams.OpponentsStep` | index.js:99-103 | after the match against team j, team j has gained its entry against the caller and the other listed teams have not changed |
| `Teams.Team.SetWinResult` | index.js:108-116 | the new snapshot is the old one after one win with that record: appended to the wins list, one more win, 3 more points, nothing else changed; the bookkeeping invariant is preserved |
| `Teams.Team.SetLossResult` | index.js:119-127 | the new snapshot is the old one after one loss with that record: appended to the losses list, one more loss, 1 more point, nothing else changed; the invariant is preserved |
| `Teams.Team.StartMatch` | index.js:135-210 | the returned name is the caller's exactly when the draw says the caller wins or the two teams share a name (`CallerRecordsWin`), which includes a team playing itself; the caller's snapshot gains its entry against the opponent and the opponent's snapshot its entry against the caller (mirrored as `MirroredOutcomes` states, with the normalised scores, own first, and their difference); a team playing itself gains both entries |
| `Teams.Team.Meet` | index.js:135-210 | `startMatch` between two different teams: the returned name, the caller's entry and the opponent's entry |
| `Teams.Team.PlayNext` | index.js:99-103 | one pass of the loop: the match against team j on top of the matches against the teams before it, for this team and for every listed team |
| `Teams.Team.PlayWithRest` | index.js:96-105 | the j-th result is the winner of this team against the j-th listed team, played with the j-th draw; this team's snapshot is its old one after its entries against each listed team, in list order; each listed team's snapshot is its old one after exactly one entry, the one against this team |
| `Teams.Team.FinalTeamStats` | index.js:60-93 | the final statistics carry the counts and points and, as totals, the readings of all win records and then all loss records |
| `RoundRobin.Round` | index.js:266-272 | round i over n teams is position i against each later position, in list order |
| `RoundRobin.CountAppend` | index.js:266-273 | the matches a team plays in two consecutive stretches add up |
| `RoundRobin.CountRound` | index.js:266-272 | in round i the head plays n - 1 - i matches, each later team plays one, and each earlier team plays none |
| `RoundRobin.CountScheduleUpTo` | index.js:266-273 | after m rounds, a team at position k < m has played n - 1 matches and any other team has played m |
| `RoundRobin.EveryTeamPlaysAllOthers` | index.js:261-276 | over the whole round robin every team plays n - 1 matches |
| `RoundRobin.ScheduleUpToMembers` | index.js:266-273 | the first m rounds hold exactly the pairs (i, j) with i < j < n and i < m |
| `RoundRobin.ScheduleUpToCallers` | index.js:266-273 | in the first m rounds the calling position is below m and below its opponent, which is below n |
| `RoundRobin.ScheduleUpToDistinct` | index.js:266-273 | no pair is played twice |
| `RoundRobin.ScheduleUpToLength` | index.js:266-273 | the first m rounds hold m(2n - m - 1)/2 matches |
| `RoundRobin.ScheduleUpToPrefix` | index.js:266-273 | the matches of the first m rounds are a prefix of those of any later number of rounds |
| `RoundRobin.ScheduleIsRoundRobin` | index.js:261-276 | every unordered pair of the n teams meets exactly once, n(n - 1)/2 matches in all |
| `RoundRobin.RoundOffset` | index.js:266-272 | the j-th match of round i is at position |first i rounds| + j of the whole schedule, and it is (i, i + 1 + j) |
| `Ranking.SortDescSortsAndPermutes` | index.js:281 | sorting by descending points keeps the same elements and leaves the points non-increasing |
| `Ranking.SortDescStable` | index.js:281 | the sort is stable: the elements with any given points keep their original relative order |
| `Ranking.TiePassKeepsKeys` | index.js:285-310 | the tie pass only exchanges neighbours with equal points, so every position keeps its points |
| `Ranking.TiePassPermutes` | index.js:285-310 | the tie pass is a permutation |
| `Ranking.TiePassSorted` | index.js:285-310 | a points-sorted list stays sorted through the tie pass |
| `Ranking.TiePassFrame` | index.js:285-310 | the pass from position i never touches earlier positions |
| `Ranking.IsolatedTie` | index.js:288-307 | a two-way tie whose neighbours have other points ends up swapped exactly when the lower entry is preferred |
| `Groups.ByPointsKeepsDistinct` | index.js:281 | sorting a team list without repeats leaves it without repeats |
| `Groups.Standings` | index.js:283-316 | the entry at index k has group rank k + 1; `StandingsInvariants` and `StandingsTieRule` state the order |
| `Groups.ByPointsSortsAndPermutes` | index.js:281 | the sorted team list holds the same teams, with points non-increasing |
| `Groups.StandingsInvariants` | index.js:283-316 | the standings are a re-ordering of the snapshots with points non-increasing, and the entry at index k has group rank k + 1 |
| `Groups.SetScoresHeadline` | index.js:279-317 | for teams without a group rank, the standings of the points-sorted teams' snapshots keep every snapshot, have points non-increasing, and give group rank k + 1 at index k |
| `Groups.StandingsTieRule` | index.js:288-307 | two isolated tied neighbours are swapped exactly when the lower one beat the upper one and the upper one did not beat it; their ranks follow their new positions |
| `Groups.UnrankedAgrees` | index.js:290-296 | the head-to-head check and the points do not depend on the group rank already written |
| `Groups.RankAt` | index.js:286-308 | one loop iteration on the snapshot array: rank i + 1 at i, then on equal points either rank i + 2 for the next entry or swap the two with their ranks |
| `Groups.RankStepFollows` | index.js:285-310 | one loop iteration corresponds to one step of the tie pass |
| `Groups.RankStandings` | index.js:285-310 | the ranking loop leaves exactly the standings of the sorted snapshots |
| `Groups.MatchIndexInSchedule` | index.js:266-272 | the match between positions i < j sits at `MatchIndex(n, i, j)` of the schedule, with i the caller |
| `Groups.OutcomesUpToLength` | index.js:266-273 | after m rounds a team that has been the head holds n - 1 entries and any other team holds m |
| `Groups.HeadEntry` | index.js:267-272 | in round i the head's entry against a later team j is its round-robin entry against j |
| `Groups.OpponentEntry` | index.js:267-272 | in round i a later team writes down exactly one entry, its round-robin entry against the head |
| `Groups.OutcomesUpToEntry` | index.js:266-273 | once one of two teams has been the head, each holds its entry against the other at that opponent's place among the other teams in list order |
| `Groups.RoundRobinShape` | index.js:261-276 | over the whole round robin each team holds n - 1 entries, one win or loss per other team, in list order of the opponents, each naming its opponent and played with the draw at that match's place in the schedule |
| `Groups.HeadToHead` | index.js:176-204 | the entries of two teams against each other mirror: exactly one is a win, each names the other team, and the differences are opposite |
| `Groups.PlayRound` | index.js:267-272 | the shifted-off head plays every remaining team; the results are the winners in order; the head gains its entries against every later team, each later team exactly its entry against the head, and earlier teams do not change |
| `Groups.RoundSteps` | index.js:267-272 | earlier teams unchanged, the head's entries against every later team, and each later team's entry against the head together make one round of the round robin |
| `Groups.PlayAndCompose` | index.js:267-272 | one round played on top of i finished rounds leaves every team as after i + 1 rounds |
| `Groups.PlayRounds` | index.js:263-273 | the loop over a copy of the team list plays n - 1 rounds, their winners are the rounds played in order, and every team is as after all the rounds |
| `Groups.PlayRoundAt` | index.js:267-272 | one pass of the loop: the shifted-off head plays the rest, its result extends the rounds played, the next round's draws start where this round's end, and every team is as after one more round |
| `Groups.ComposeRounds` | index.js:266-273 | i finished rounds plus one more round make i + 1 finished rounds, for every team |
| `Groups.RoundEntry` | index.js:267-272 | what a team gains in round i is exactly its entries of that round |
| `Groups.ReplayRound` | index.js:266-273 | a team's entries up to round i followed by those of round i are its entries up to round i + 1 |
| `Groups.RoundRobinDone` | index.js:261-276 | after the last round a team's snapshot is its starting one after all its round-robin entries, and it keeps the bookkeeping invariant |
| `Groups.RoundFits` | index.js:266-273 | the draws of round i fit within the whole schedule's draws |
| `Groups.RoundResult` | index.js:271 | what `playWithRest` returns for round i is that round's result, read at that round's offset of the draw stream |
| `Groups.NextRound` | index.js:271-272 | appending the next round's result extends the rounds played, and the next round starts where this one ends |
| `Groups.RankedStandings` | index.js:283-316 | the snapshots copied into an array and ranked there come out as the standings |
| `Groups.Group.constructor` | index.js:215-222 | one fresh, distinct team for each roster entry, carrying the group's name, and no placements |
| `Groups.Group.StartMatches` | index.js:261-276 | n - 1 rounds; in round i the team at i plays each later team with the draw at that match's place in the schedule, and the results are the winners; each team's snapshot is its old one after its round-robin entries, which `RoundRobinShape` and `HeadToHead` describe: one entry against each other team, in list order, mirrored by that team's entry; every team keeps its invariant and ranks |
| `Groups.Group.SetScoresToTeams` | index.js:279-317 | the team list becomes its stable sort by points and stays without repeats, and the four placements are entries 0..3 of the standings of the sorted teams' snapshots, or undefined where the group is shorter; `SetScoresHeadline` states what those standings are |
| `Groups.Group.FinalGroupStats` | index.js:235-246 | the final statistics of every team, in team-list order |
| `Draws.FirstIndex` | index.js:475 | the position of the first name equal to the one sought, or none exactly when no name equals it; both `find` by name searches (`FindStats`, `FindTeam`) are read off it |
| `Draws.FindStats` | index.js:475 | the result is the first entry with the name, or none exactly when no entry has it |
| `Draws.TeamPoints` | index.js:473-481 | the value is 0 or the points scored of an entry with that name; `TeamPointsFound` and `TeamPointsMissing` pin it down |
| `Draws.TeamPointsFound` | index.js:473-481 | a team's points scored come from the first group, in order, that has an entry with its name |
| `Draws.TeamPointsMissing` | index.js:473-481 | a name that no group knows gives the number 0 |
| `Draws.Seeding` | index.js:444-470 | the entry at index k has draw rank k + 1; `SeedingInvariants` and `SeedingTieRule` state the order |
| `Draws.SeedingInvariants` | index.js:444-470 | the seeding is a re-ordering of the pool with points non-increasing, and the entry at index k has draw rank k + 1 |
| `Draws.SeedingTieRule` | index.js:455-467 | two isolated tied neighbours are swapped exactly when the lower one scored more points in the group stage (a NaN on either side never swaps); their ranks follow their new positions |
| `Draws.UndrawnAgrees` | index.js:455-460 | the name and the points do not depend on the draw rank already written |
| `Draws.SeedAt` | index.js:449-468 | one loop iteration: rank i + 1 at i, then on equal points either rank i + 2 for the next entry or swap the two with their ranks |
| `Draws.SeedStepFollows` | index.js:448-469 | one loop iteration corresponds to one step of the tie pass |
| `Draws.SortByPoints` | index.js:446 | the array becomes its stable sort by descending points |
| `Draws.RankSeeds` | index.js:448-469 | the ranking loop leaves exactly the tie pass of the sorted array, with draw rank k + 1 at index k |
| `Draws.Draw.SortList` | index.js:444-470 | the array ends up as the seeding of its old contents |
| `Draws.Draw.constructor` | index.js:321-335 | the draw keeps the groups and group results; pots and winners are null; the bracket lists are empty |
| `Draws.Column` | index.js:339-341 | one placement per group; `ColumnAt` states that entry k is group k's placement |
| `Draws.Pool` | index.js:338-343 | the pool holds three placements per group |
| `Draws.ColumnAt` | index.js:338-340 | each mapped column holds, at index k, group k's placement in that column |
| `Draws.PoolOrder` | index.js:338-343 | the pool lists the first placed teams of every group, then the second, then the third |
| `Draws.PotsOf` | index.js:348-351 | all four pots are present, and pot k/2 holds seeded entry k at position k mod 2, undefined past the end of the list |
| `Draws.Draw.CreateDraw` | index.js:338-352 | it succeeds exactly when every pooled placement is present; pot D holds seeded entries 0 and 1, E 2 and 3, F 4 and 5, G 6 and 7 (undefined past the end); on failure the pots do not change |
| `Draws.QuarterPairs` | index.js:356-374 | four pairings; `SeedCrossing` states who meets whom (seed k against seed 7 - k), `QuarterPairsCover` that each pot entry plays once, and `CoinOrdersOnly` how the two coins relate |
| `Draws.QuarterPairsCover` | index.js:356-374 | for either coin, the first two quarterfinals pair both pot D entries with both pot G entries, the last two pair pot E with pot F, and every entry is in exactly one match |
| `Draws.CoinOrdersOnly` | index.js:356-374 | the coin swaps quarterfinals 0 and 1, and 2 and 3; it never changes who meets whom |
| `Draws.SeedCrossing` | index.js:356-374 | with the pots filled from the seeded list, the quarterfinals are seed c v 7 - c, 1 - c v 6 + c, 2 + c v 5 - c and 3 - c v 4 + c for the coin c, so seed k meets seed 7 - k whatever the coin |
| `Draws.Draw.PairPots` | index.js:356-374 | the four pairings for the coin are appended to the quarterfinal list |
| `Draws.FindTeam` | index.js:379-380 | the result is the first roster team with that name, or none exactly when no roster team has it |
| `Draws.MatchWinner` | index.js:383-387 | the team kept is one of the two, and its name is the name `startMatch` returns |
| `Draws.MatchLoser` | index.js:430-438 | the silver medallist is one of the two finalists, and not the winner when they differ |
| `Draws.Play` | index.js:383-387 | a knockout match returns the name `startMatch` decides for the two teams and the draw |
| `Draws.PlayQuarterfinal` | index.js:379-387 | a quarterfinal is played exactly when both entries are present and name roster teams, and the team kept is the winner among those roster teams |
| `Draws.QuarterPlayed` | index.js:378-388 | after one more pairing is played, the winners so far are still exactly the winners of the pairings before them, in order, each pairing playable |
| `Draws.Draw.PlayQuarterfinals` | index.js:378-388 | it succeeds exactly when all four quarterfinals can be played, and the semifinal list is then their winners in order |
| `Draws.Semifinalists` | index.js:378-388 | four semifinalists, all roster teams |
| `Draws.SemifinalistsDistinct` | index.js:378-388 | quarterfinals with no name in common produce four different semifinalists |
| `Draws.BracketAsWritten` | index.js:402-416 | unless a semifinalist is named "[object Object]", the final is semifinalists 3 and 2 and the match for third place is semifinalists 0 and 1 |
| `Draws.Draw.PlaySemifinals` | index.js:391-416 | semifinals 0 v 3 and 1 v 2; the final and third-place lists are built by the name-against-`toString()` test |
| `Draws.Draw.PlayMedalMatches` | index.js:420-438 | bronze goes to the winner of the match for third place, gold to the winner of the final, silver to the final's other team |
| `Draws.FinalFromPotsEF` | index.js:356-416 | unless a roster team is named "[object Object]", the final is between the winners of the two pot E v pot F quarterfinals and the match for third place between the winners of the two pot D v pot G quarterfinals, whatever the coin |
| `Draws.MedallistsDistinct` | index.js:402-438 | each semifinal sends one team to the final and the other to the match for third place; with four different semifinalists the three medallists differ |
| `Draws.Draw.PlayBracket` | index.js:378-438 | it succeeds exactly when the quarterfinals can be played, and the whole bracket then follows from the draws |
| `Draws.Draw.StartSchema` | index.js:355-441 | with no pots it fails and changes nothing (bracket lists, medallists and roster teams); otherwise the quarterfinals are the coin's pairings; it succeeds exactly when they can be played, and then the semifinals, the final, the match for third place and the three medallists follow as above |

## Left out

- Reading `groups.json` (`loadTeamsFromFile`) and the driver `start()` that chains the stages are not modelled. Nor are the console output (`printToConsole` and the strings the engine prints) and `getRandomScoreNumber`.
- `calculateWinProbability` and the Elo formula use floating point. The outcome of the draw against that probability is the input `callerWins`, and the ranks it compares are modelled by `StrengthOrder` only.
- `Math.random` is replaced by inputs: one `MatchDraw` per match and the coin of `startSchema`.
- `setGroupRank` is never called by the engine and is not modelled. `Group.getTeams` (`index.js:225-227`), which maps `getInfo` over the team list, is never called by the engine and is not modelled. `getInfo` and `getPlaces` are the plain functions `Team.Info` and `Group.Places`, without contracts of their own.
- Snapshots share their wins and losses arrays with their team, and the seeding writes draw ranks onto the same objects the groups hold as placements. This object sharing is not modelled: snapshots are values.
- Unary plus is modelled only on what the engine can feed it: digits, and empty pieces. Whitespace, signs, exponents and the other JavaScript number syntax are not.
- Draws.Play: states only the name a knockout match returns. The records it adds to the two roster teams are stated by `Teams.Team.StartMatch` and are not carried up into the knockout methods.
- Draws.Draw.StartSchema: requires the four bracket lists to be empty, as they are after the constructor. The engine calls it once per draw.
- Draws.Draw.StartSchema: on a failing path it states only the quarterfinal pairings. The matches already played and the partial semifinal list are not described.
- Draws.Draw.CreateDraw: its failure covers any pooled placement being undefined or null, where the source throws inside `sortList`. The draw ranks written onto the pool before that throw are not modelled.
- Draws.Draw.PlayQuarterfinals: on failure it does not describe the quarterfinals already played.
