/** The order in which a group's matches are played: the head of the list
    plays every team after it, is then dropped, and so on while more than
    one team remains. Matches are named by the list positions of the two
    teams, the caller first. */
module RoundRobin {

  /** The matches of round `i` over `n` teams: position `i` against every
      later position, in list order. */
  function Round(i: nat, n: nat): (r: seq<(nat, nat)>)
    ensures |r| == if i + 1 < n then n - 1 - i else 0
    ensures forall j :: 0 <= j < |r| ==> r[j] == (i, i + 1 + j)
  {
    if i + 1 < n then seq(n - 1 - i, j requires 0 <= j < n - 1 - i => (i, i + 1 + j)) else []
  }

  /** The matches of the first `m` rounds, in playing order. */
  function ScheduleUpTo(m: nat, n: nat): seq<(nat, nat)>
  {
    if m == 0 then [] else ScheduleUpTo(m - 1, n) + Round(m - 1, n)
  }

  /** Every match a group of `n` teams plays. */
  function Schedule(n: nat): seq<(nat, nat)>
  {
    ScheduleUpTo(n, n)
  }

  predicate Involves(p: (nat, nat), k: nat)
  {
    p.0 == k || p.1 == k
  }

  /** How many matches of `s` team position `k` plays in. */
  function CountInvolving(s: seq<(nat, nat)>, k: nat): nat
  {
    if s == [] then 0
    else CountInvolving(s[..|s| - 1], k) + (if Involves(s[|s| - 1], k) then 1 else 0)
  }

  lemma {:induction false} CountAppend(a: seq<(nat, nat)>, b: seq<(nat, nat)>, k: nat)
    ensures CountInvolving(a + b, k) == CountInvolving(a, k) + CountInvolving(b, k)
    decreases |b|
  {
    if b != [] {
      var ab, b' := a + b, b[..|b| - 1];
      assert ab[..|ab| - 1] == a + b';
      assert ab[|ab| - 1] == b[|b| - 1];
      CountAppend(a, b', k);
      assert CountInvolving(ab, k) == CountInvolving(a + b', k) + (if Involves(b[|b| - 1], k) then 1 else 0);
      assert CountInvolving(b, k) == CountInvolving(b', k) + (if Involves(b[|b| - 1], k) then 1 else 0);
    } else {
      assert a + b == a;
    }
  }

  /** In the first `j` matches of round `i`, position `k` plays all of them
      when it is the caller, one when it is among the first `j` opponents,
      and none otherwise. */
  lemma {:induction false} CountRoundPrefix(i: nat, n: nat, k: nat, j: nat)
    requires j <= |Round(i, n)|
    ensures CountInvolving(Round(i, n)[..j], k) ==
      if k == i then j else if i < k < i + 1 + j then 1 else 0
  {
    if j > 0 {
      var r := Round(i, n);
      assert r[..j][..j - 1] == r[..j - 1];
      assert r[..j][j - 1] == (i, i + j);
      CountRoundPrefix(i, n, k, j - 1);
    }
  }

  lemma CountRound(i: nat, n: nat, k: nat)
    requires k < n
    ensures CountInvolving(Round(i, n), k) ==
      if i + 1 >= n then 0 else if k == i then n - 1 - i else if i < k then 1 else 0
  {
    var r := Round(i, n);
    assert r[..|r|] == r;
    CountRoundPrefix(i, n, k, |r|);
  }

  /** After the first `m` rounds, position `k` has played once against each
      earlier caller and, if its own round is done, once against every later
      position. */
  lemma {:induction false} CountScheduleUpTo(m: nat, n: nat, k: nat)
    requires k < n && m <= n
    ensures CountInvolving(ScheduleUpTo(m, n), k) ==
      (if k < m then k + (n - 1 - k) else m)
  {
    if m > 0 {
      CountScheduleUpTo(m - 1, n, k);
      CountAppend(ScheduleUpTo(m - 1, n), Round(m - 1, n), k);
      CountRound(m - 1, n, k);
    }
  }

  /** Every team of a group plays exactly `n - 1` matches. */
  lemma EveryTeamPlaysAllOthers(n: nat, k: nat)
    requires k < n
    ensures CountInvolving(Schedule(n), k) == n - 1
  {
    CountScheduleUpTo(n, n, k);
  }

  /** The first `m` rounds hold exactly the pairs `(i, j)` with `i < j < n`
      and `i < m`, the earlier-listed position being the caller. */
  lemma {:induction false} ScheduleUpToMembers(m: nat, n: nat)
    ensures forall p :: p in ScheduleUpTo(m, n) <==> p.0 < p.1 < n && p.0 < m
  {
    if m > 0 {
      ScheduleUpToMembers(m - 1, n);
      var prev: seq<(nat, nat)>, r: seq<(nat, nat)> := ScheduleUpTo(m - 1, n), Round(m - 1, n);
      forall p: (nat, nat) | p.0 < p.1 < n && p.0 == m - 1
        ensures p in r
      {
        assert r[p.1 - m] == p;
      }
    }
  }

  /** Every match of the first `m` rounds has a caller before `m` listed
      before its opponent. */
  lemma {:induction false} ScheduleUpToCallers(m: nat, n: nat)
    ensures forall q :: 0 <= q < |ScheduleUpTo(m, n)| ==>
      ScheduleUpTo(m, n)[q].0 < m && ScheduleUpTo(m, n)[q].0 < ScheduleUpTo(m, n)[q].1 < n
  {
    if m > 0 {
      ScheduleUpToCallers(m - 1, n);
      var prev: seq<(nat, nat)>, r: seq<(nat, nat)> := ScheduleUpTo(m - 1, n), Round(m - 1, n);
      var s: seq<(nat, nat)> := prev + r;
      forall q | 0 <= q < |s|
        ensures s[q].0 < m && s[q].0 < s[q].1 < n
      {
        if q < |prev| {
          assert s[q] == prev[q];
        } else {
          assert s[q] == r[q - |prev|];
        }
      }
    }
  }

  predicate NoRepeats(s: seq<(nat, nat)>)
  {
    forall a, b :: 0 <= a < b < |s| ==> s[a] != s[b]
  }

  /** No pair is played twice. */
  lemma {:induction false} ScheduleUpToDistinct(m: nat, n: nat)
    ensures NoRepeats(ScheduleUpTo(m, n))
  {
    if m > 0 {
      ScheduleUpToDistinct(m - 1, n);
      ScheduleUpToCallers(m - 1, n);
      var prev: seq<(nat, nat)>, r: seq<(nat, nat)> := ScheduleUpTo(m - 1, n), Round(m - 1, n);
      var s := prev + r;
      forall a, b | 0 <= a < b < |s|
        ensures s[a] != s[b]
      {
        if b >= |prev| {
          assert s[b] == r[b - |prev|];
          if a < |prev| {
            assert s[a] == prev[a];
          } else {
            assert s[a] == r[a - |prev|];
          }
        } else {
          assert s[a] == prev[a] && s[b] == prev[b];
        }
      }
    }
  }

  /** Twice the number of matches in the first `m` rounds is m(2n - m - 1). */
  lemma {:induction false} ScheduleUpToLength(m: nat, n: nat)
    requires m <= n
    ensures 2 * |ScheduleUpTo(m, n)| == m * (2 * n - m - 1)
  {
    if m > 0 {
      ScheduleUpToLength(m - 1, n);
      assert |ScheduleUpTo(m, n)| == |ScheduleUpTo(m - 1, n)| + (n - m);
      assert (m - 1) * (2 * n - (m - 1) - 1) + 2 * (n - m) == m * (2 * n - m - 1);
    }
  }

  /** Over `n` teams every unordered pair meets exactly once, the
      earlier-listed team calling, for n(n-1)/2 matches in all. */
  lemma ScheduleIsRoundRobin(n: nat)
    ensures forall p :: p in Schedule(n) <==> p.0 < p.1 < n
    ensures NoRepeats(Schedule(n))
    ensures |Schedule(n)| == n * (n - 1) / 2
  {
    ScheduleUpToMembers(n, n);
    ScheduleUpToDistinct(n, n);
    ScheduleUpToLength(n, n);
  }

  /** Earlier rounds are a prefix of later ones. */
  lemma {:induction false} ScheduleUpToPrefix(m: nat, m': nat, n: nat)
    requires m <= m'
    ensures |ScheduleUpTo(m, n)| <= |ScheduleUpTo(m', n)|
    ensures ScheduleUpTo(m', n)[..|ScheduleUpTo(m, n)|] == ScheduleUpTo(m, n)
    decreases m' - m
  {
    if m < m' {
      ScheduleUpToPrefix(m, m' - 1, n);
      var a, b := ScheduleUpTo(m' - 1, n), Round(m' - 1, n);
      assert (a + b)[..|a|] == a;
      assert (a + b)[..|ScheduleUpTo(m, n)|] == a[..|ScheduleUpTo(m, n)|];
    } else {
      assert ScheduleUpTo(m, n)[..|ScheduleUpTo(m, n)|] == ScheduleUpTo(m, n);
    }
  }

  /** Round `i` starts at position |ScheduleUpTo(i, n)| of the whole
      schedule: its `j`-th match is the match at that offset plus `j`. */
  lemma RoundOffset(i: nat, j: nat, n: nat)
    requires i < n && j < n - 1 - i
    ensures |ScheduleUpTo(i, n)| + j < |Schedule(n)|
    ensures Schedule(n)[|ScheduleUpTo(i, n)| + j] == (i, i + 1 + j)
  {
    ScheduleUpToPrefix(i + 1, n, n);
    var a, r := ScheduleUpTo(i, n), Round(i, n);
    assert ScheduleUpTo(i + 1, n) == a + r;
    assert (a + r)[|a| + j] == r[j];
    assert Schedule(n)[|a| + j] == Schedule(n)[..|a + r|][|a| + j];
  }
}
