/** The two ordering steps that both the group standings and the knockout
    seeding use: a stable sort by descending key (`Array.prototype.sort`
    with the comparator `(a, b) => b.points - a.points`), and one forward
    pass that swaps two neighbours with equal keys when the lower one is
    preferred. */
module Ranking {

  /** Stable insertion: `x` goes after every element whose key is at least its own. */
  function Insert<T>(x: T, s: seq<T>, key: T -> int): seq<T>
  {
    if s == [] then [x]
    else if key(s[0]) >= key(x) then [s[0]] + Insert(x, s[1..], key)
    else [x] + s
  }

  /** Stable sort by descending key. */
  function SortDesc<T>(s: seq<T>, key: T -> int): seq<T>
  {
    if s == [] then [] else Insert(s[|s| - 1], SortDesc(s[..|s| - 1], key), key)
  }

  predicate NonIncreasing<T>(s: seq<T>, key: T -> int)
  {
    forall i, j :: 0 <= i < j < |s| ==> key(s[i]) >= key(s[j])
  }

  /** The elements of `s` whose key is `v`, in their order in `s`. */
  function Filter<T>(s: seq<T>, key: T -> int, v: int): seq<T>
  {
    if s == [] then [] else (if key(s[0]) == v then [s[0]] else []) + Filter(s[1..], key, v)
  }

  lemma {:induction false} InsertPermutes<T>(x: T, s: seq<T>, key: T -> int)
    ensures multiset(Insert(x, s, key)) == multiset(s) + multiset{x}
  {
    if s != [] && key(s[0]) >= key(x) {
      InsertPermutes(x, s[1..], key);
      assert s == [s[0]] + s[1..];
    }
  }

  lemma {:induction false} InsertSorted<T>(x: T, s: seq<T>, key: T -> int)
    requires NonIncreasing(s, key)
    ensures NonIncreasing(Insert(x, s, key), key)
  {
    if s != [] {
      if key(s[0]) >= key(x) {
        var rest := Insert(x, s[1..], key);
        InsertSorted(x, s[1..], key);
        InsertPermutes(x, s[1..], key);
        forall j | 0 <= j < |rest|
          ensures key(s[0]) >= key(rest[j])
        {
          assert rest[j] in multiset(rest);
          if rest[j] != x {
            assert rest[j] in multiset(s[1..]);
            var k :| 0 <= k < |s[1..]| && s[1..][k] == rest[j];
            assert s[1 + k] == rest[j];
          }
        }
        var r := [s[0]] + rest;
        forall i, j | 0 <= i < j < |r|
          ensures key(r[i]) >= key(r[j])
        {
          if i == 0 {
            assert r[j] == rest[j - 1];
          } else {
            assert r[i] == rest[i - 1] && r[j] == rest[j - 1];
          }
        }
      } else {
        var r := [x] + s;
        forall i, j | 0 <= i < j < |r|
          ensures key(r[i]) >= key(r[j])
        {
          if i == 0 {
            assert r[j] == s[j - 1];
          } else {
            assert r[i] == s[i - 1] && r[j] == s[j - 1];
          }
        }
      }
    }
  }

  /** The sort is a permutation whose keys are non-increasing. */
  lemma {:induction false} SortDescSortsAndPermutes<T>(s: seq<T>, key: T -> int)
    ensures multiset(SortDesc(s, key)) == multiset(s)
    ensures NonIncreasing(SortDesc(s, key), key)
  {
    if s != [] {
      var init, last := s[..|s| - 1], s[|s| - 1];
      SortDescSortsAndPermutes(init, key);
      InsertPermutes(last, SortDesc(init, key), key);
      InsertSorted(last, SortDesc(init, key), key);
      assert s == init + [last];
    }
  }

  /** No entry appears twice. */
  predicate Distinct<T(==)>(s: seq<T>)
  {
    forall i, j :: 0 <= i < j < |s| ==> s[i] != s[j]
  }

  /** In a list without repeats every value occurs at most once. */
  lemma {:induction false} DistinctCounts<T>(s: seq<T>)
    requires Distinct(s)
    ensures forall x :: multiset(s)[x] <= 1
  {
    if s != [] {
      var init, last := s[..|s| - 1], s[|s| - 1];
      assert s == init + [last];
      DistinctCounts(init);
      forall i | 0 <= i < |init|
        ensures init[i] != last
      {
        assert init[i] == s[i];
      }
      assert last !in init;
    }
  }

  /** A value at two positions occurs at least twice. */
  lemma TwoPositions<T>(b: seq<T>, i: nat, j: nat)
    requires i < j < |b|
    ensures b[i] == b[j] ==> multiset(b)[b[i]] >= 2
  {
    assert b == b[..j] + [b[j]] + b[j + 1..];
    assert b[..j][i] == b[i];
  }

  /** A re-ordering of a list without repeats has no repeats. */
  lemma PermutationKeepsDistinct<T>(a: seq<T>, b: seq<T>)
    requires multiset(a) == multiset(b) && Distinct(a)
    ensures Distinct(b)
  {
    DistinctCounts(a);
    forall i, j | 0 <= i < j < |b|
      ensures b[i] != b[j]
    {
      TwoPositions(b, i, j);
    }
  }

  lemma FilterCons<T>(y: T, t: seq<T>, key: T -> int, v: int)
    ensures Filter([y] + t, key, v) == (if key(y) == v then [y] else []) + Filter(t, key, v)
  {
    var r := [y] + t;
    assert r[0] == y && r[1..] == t;
  }

  lemma {:induction false} FilterAppend<T>(a: seq<T>, b: seq<T>, key: T -> int, v: int)
    ensures Filter(a + b, key, v) == Filter(a, key, v) + Filter(b, key, v)
  {
    if a == [] {
      assert a + b == b;
    } else {
      var h := if key(a[0]) == v then [a[0]] else [];
      assert a + b == [a[0]] + (a[1..] + b);
      FilterCons(a[0], a[1..] + b, key, v);
      FilterCons(a[0], a[1..], key, v);
      assert [a[0]] + a[1..] == a;
      FilterAppend(a[1..], b, key, v);
      assert h + (Filter(a[1..], key, v) + Filter(b, key, v)) == (h + Filter(a[1..], key, v)) + Filter(b, key, v);
    }
  }

  lemma {:induction false} FilterAllBelow<T>(s: seq<T>, key: T -> int, v: int)
    requires forall k :: 0 <= k < |s| ==> key(s[k]) < v
    ensures Filter(s, key, v) == []
  {
    if s != [] {
      FilterAllBelow(s[1..], key, v);
    }
  }

  /** One step of `InsertFilter` past a head that stays in front. */
  lemma InsertFilterPast<T>(x: T, s: seq<T>, key: T -> int, v: int)
    requires s != [] && key(s[0]) >= key(x)
    requires Filter(Insert(x, s[1..], key), key, v) == Filter(s[1..], key, v) + (if key(x) == v then [x] else [])
    ensures Filter(Insert(x, s, key), key, v) == Filter(s, key, v) + (if key(x) == v then [x] else [])
  {
    assert Insert(x, s, key) == [s[0]] + Insert(x, s[1..], key);
    FilterCons(s[0], Insert(x, s[1..], key), key, v);
    FilterCons(s[0], s[1..], key, v);
    assert [s[0]] + s[1..] == s;
  }

  lemma {:induction false} InsertFilter<T>(x: T, s: seq<T>, key: T -> int, v: int)
    requires NonIncreasing(s, key)
    ensures Filter(Insert(x, s, key), key, v) == Filter(s, key, v) + (if key(x) == v then [x] else [])
  {
    if s == [] {
      FilterCons(x, [], key, v);
      assert [x] + [] == [x];
    } else if key(s[0]) >= key(x) {
      assert NonIncreasing(s[1..], key) by {
        forall i, j | 0 <= i < j < |s[1..]|
          ensures key(s[1..][i]) >= key(s[1..][j])
        {
          assert s[1..][i] == s[i + 1] && s[1..][j] == s[j + 1];
        }
      }
      InsertFilter(x, s[1..], key, v);
      InsertFilterPast(x, s, key, v);
    } else {
      assert Insert(x, s, key) == [x] + s;
      FilterCons(x, s, key, v);
      if key(x) == v {
        FilterAllBelow(s, key, v);
      }
    }
  }

  /** The sort is stable: the elements sharing any one key keep their order. */
  lemma {:induction false} SortDescStable<T>(s: seq<T>, key: T -> int, v: int)
    ensures Filter(SortDesc(s, key), key, v) == Filter(s, key, v)
  {
    if s != [] {
      var init, last := s[..|s| - 1], s[|s| - 1];
      SortDescStable(init, key, v);
      SortDescSortsAndPermutes(init, key);
      InsertFilter(last, SortDesc(init, key), key, v);
      assert s == init + [last];
      FilterAppend(init, [last], key, v);
      FilterCons(last, [], key, v);
      assert [last] + [] == [last];
    }
  }

  function SwapAt<T>(s: seq<T>, i: nat): seq<T>
    requires i + 1 < |s|
  {
    s[i := s[i + 1]][i + 1 := s[i]]
  }

  /** The pass swaps positions `i` and `i + 1` exactly when their keys are
      equal and the lower one is preferred. */
  predicate SwapsAt<T>(s: seq<T>, key: T -> int, prefer: (T, T) -> bool, i: nat)
    requires i + 1 < |s|
  {
    key(s[i]) == key(s[i + 1]) && prefer(s[i], s[i + 1])
  }

  function Step<T>(s: seq<T>, key: T -> int, prefer: (T, T) -> bool, i: nat): seq<T>
    requires i + 1 < |s|
  {
    if SwapsAt(s, key, prefer, i) then SwapAt(s, i) else s
  }

  /** The forward pass from position `i` on: each adjacent pair is looked at
      once, after the swaps at earlier positions. */
  function TiePass<T>(s: seq<T>, key: T -> int, prefer: (T, T) -> bool, i: nat): seq<T>
    decreases |s| - i
  {
    if i + 1 >= |s| then s else TiePass(Step(s, key, prefer, i), key, prefer, i + 1)
  }

  /** The pass moves elements only between positions of equal key, so every
      position keeps its key; in particular a sorted list stays sorted. */
  lemma {:induction false} TiePassKeepsKeys<T>(s: seq<T>, key: T -> int, prefer: (T, T) -> bool, i: nat)
    ensures |TiePass(s, key, prefer, i)| == |s|
    ensures forall k :: 0 <= k < |s| ==> key(TiePass(s, key, prefer, i)[k]) == key(s[k])
    decreases |s| - i
  {
    if i + 1 < |s| {
      TiePassKeepsKeys(Step(s, key, prefer, i), key, prefer, i + 1);
    }
  }

  lemma {:induction false} TiePassPermutes<T>(s: seq<T>, key: T -> int, prefer: (T, T) -> bool, i: nat)
    ensures multiset(TiePass(s, key, prefer, i)) == multiset(s)
    decreases |s| - i
  {
    if i + 1 < |s| {
      var t := Step(s, key, prefer, i);
      if SwapsAt(s, key, prefer, i) {
        var u := s[i := s[i + 1]];
        assert multiset(u) == multiset(s) - multiset{s[i]} + multiset{s[i + 1]};
        assert multiset(t) == multiset(u) - multiset{u[i + 1]} + multiset{s[i]};
      }
      TiePassPermutes(t, key, prefer, i + 1);
    }
  }

  lemma TiePassSorted<T>(s: seq<T>, key: T -> int, prefer: (T, T) -> bool)
    requires NonIncreasing(s, key)
    ensures NonIncreasing(TiePass(s, key, prefer, 0), key)
  {
    TiePassKeepsKeys(s, key, prefer, 0);
  }

  /** Positions before `i` are never touched by the pass from `i`. */
  lemma {:induction false} TiePassFrame<T>(s: seq<T>, key: T -> int, prefer: (T, T) -> bool, i: nat)
    ensures |TiePass(s, key, prefer, i)| == |s|
    ensures forall k :: 0 <= k < i && k < |s| ==> TiePass(s, key, prefer, i)[k] == s[k]
    decreases |s| - i
  {
    if i + 1 < |s| {
      TiePassFrame(Step(s, key, prefer, i), key, prefer, i + 1);
    }
  }

  /** A tie between positions `i` and `i + 1` whose neighbours have other
      keys is decided by `prefer` alone: the pass swaps the two exactly when
      the lower one is preferred, and leaves them there. */
  lemma {:induction false} IsolatedTie<T>(s: seq<T>, key: T -> int, prefer: (T, T) -> bool, j: nat, i: nat)
    requires j <= i && i + 1 < |s|
    requires key(s[i]) == key(s[i + 1])
    requires i > 0 ==> key(s[i - 1]) != key(s[i])
    requires i + 2 < |s| ==> key(s[i + 2]) != key(s[i + 1])
    ensures |TiePass(s, key, prefer, j)| == |s|
    ensures prefer(s[i], s[i + 1]) ==>
      TiePass(s, key, prefer, j)[i] == s[i + 1] && TiePass(s, key, prefer, j)[i + 1] == s[i]
    ensures !prefer(s[i], s[i + 1]) ==>
      TiePass(s, key, prefer, j)[i] == s[i] && TiePass(s, key, prefer, j)[i + 1] == s[i + 1]
    decreases i - j
  {
    TiePassFrame(s, key, prefer, j);
    var t := Step(s, key, prefer, j);
    if j < i {
      assert t[i] == s[i] && t[i + 1] == s[i + 1];
      assert i > 0 ==> key(t[i - 1]) == key(s[i - 1]);
      assert i + 2 < |s| ==> t[i + 2] == s[i + 2];
      IsolatedTie(t, key, prefer, j + 1, i);
    } else {
      // the pair itself: t holds it in its final order
      if i + 2 < |s| {
        assert t[i + 2] == s[i + 2] && key(t[i + 1]) == key(s[i + 1]);
        var u := Step(t, key, prefer, i + 1);
        assert u[i] == t[i] && u[i + 1] == t[i + 1];
        TiePassFrame(u, key, prefer, i + 2);
      } else {
        TiePassFrame(t, key, prefer, i + 1);
      }
    }
  }
}
