/** The outcome model of one match: which rank counts as the stronger one,
    how two raw score draws become a winner's and a loser's score, and how a
    score pair is written into a team's record and read back from it. */
module Scores {
  import opened Js

  /** The random inputs of one match. `callerWins` stands for
      `Math.random() < calculateWinProbability(weaker, stronger)`; the two
      scores stand for the two `getRandomScoreNumber(0, 120)` draws. */
  datatype MatchDraw = MatchDraw(callerWins: bool, firstScore: int, secondScore: int)

  /** A draw as the engine's random source produces it: scores in [0, 120]. */
  predicate InRange(d: MatchDraw)
  {
    0 <= d.firstScore <= 120 && 0 <= d.secondScore <= 120
  }

  /** (stronger rank, weaker rank) of a team with rank `own` facing one with
      rank `enemy`; a lower rank is stronger, and on equal ranks the enemy's
      rank is taken as the stronger one. These two ranks feed only the win
      probability, which the boolean `callerWins` replaces. */
  function StrengthOrder(own: int, enemy: int): (r: (int, int))
    ensures r.0 <= r.1
    ensures (r.0 == own && r.1 == enemy) || (r.0 == enemy && r.1 == own)
  {
    if own < enemy then (own, enemy) else (enemy, own)
  }

  /** (winner's score, loser's score) from the two draws: the larger draw
      goes to the winner; on equal draws the loser gets one point less. */
  function NormaliseScore(first: int, second: int): (r: (int, int))
    ensures r.0 > r.1
    ensures r.0 == (if first >= second then first else second)
    ensures first != second ==> r.1 == (if first <= second then first else second)
    ensures first == second ==> r.1 == first - 1
  {
    if first > second then (first, second)
    else if first == second then (second, first - 1)
    else (second, first)
  }

  /** With both draws in [0, 120] the winner's score stays in range and the
      loser's score is -1 exactly when both draws are 0. */
  lemma ScoreRange(d: MatchDraw)
    requires InRange(d)
    ensures 0 <= NormaliseScore(d.firstScore, d.secondScore).0 <= 120
    ensures -1 <= NormaliseScore(d.firstScore, d.secondScore).1 < 120
    ensures NormaliseScore(d.firstScore, d.secondScore).1 == -1 <==> d.firstScore == 0 && d.secondScore == 0
  {
  }

  /** The result string `${a}-${b}` stored in a match record. */
  function ResultString(a: int, b: int): string
  {
    IntToString(a) + "-" + IntToString(b)
  }

  /** `+result.split("-")[0]`, the score a record credits to its owner. */
  function LeftValue(result: string): JsNumber
  {
    FieldNumber(result, '-', 0)
  }

  /** `+result.split("-")[1]`, the score a record credits to the opponent. */
  function RightValue(result: string): JsNumber
  {
    FieldNumber(result, '-', 1)
  }

  /** Non-negative scores survive the trip through the result string. */
  lemma ResultRoundTrip(a: nat, b: nat)
    ensures LeftValue(ResultString(a, b)) == Num(a)
    ensures RightValue(ResultString(a, b)) == Num(b)
  {
    var da, db := NatToDecimal(a), NatToDecimal(b);
    DecimalDigits(a);
    DecimalDigits(b);
    DigitsHaveNoSeparator(da, '-');
    DigitsHaveNoSeparator(db, '-');
    assert ResultString(a, b) == da + ['-'] + db;
    SplitAtFirstSeparator(da, db, '-');
    SplitWithoutSeparator(db, '-');
    DecimalRoundTrip(a);
    DecimalRoundTrip(b);
  }

  /** The loser's score -1 (both draws 0) does not survive: the winner's
      record "0--1" reads back as 0 to 0, and the loser's record "-1-0" reads
      back as 0 scored and 1 allowed. */
  lemma NegativeScoreMisread()
    ensures ResultString(0, -1) == "0--1" && ResultString(-1, 0) == "-1-0"
    ensures LeftValue("0--1") == Num(0) && RightValue("0--1") == Num(0)
    ensures LeftValue("-1-0") == Num(0) && RightValue("-1-0") == Num(1)
  {
    assert NatToDecimal(0) == "0" && NatToDecimal(1) == "1";
    assert "0--1" == "0" + ['-'] + ("" + ['-'] + "1");
    SplitAtFirstSeparator("0", "" + ['-'] + "1", '-');
    SplitAtFirstSeparator("", "1", '-');
    SplitWithoutSeparator("1", '-');
    assert Split("0--1", '-') == ["0", "", "1"];
    assert "-1-0" == "" + ['-'] + ("1" + ['-'] + "0");
    SplitAtFirstSeparator("", "1" + ['-'] + "0", '-');
    SplitAtFirstSeparator("1", "0", '-');
    SplitWithoutSeparator("0", '-');
    assert Split("-1-0", '-') == ["", "1", "0"];
    assert ToNumber("1") == Num(1) && ToNumber("0") == Num(0) && ToNumber("") == Num(0);
  }
}
