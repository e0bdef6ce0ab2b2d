/** The ranking of line 436: the totalizer list sorted in place, ascending by
    `auxilioCotaVerbas`, stably (records with equal scores keep their order). */
module Ranking {
  import opened Aggregate

  predicate SortedByScore(s: seq<Totalizer>) {
    forall i, j :: 0 <= i < j < |s| ==> s[i].score <= s[j].score
  }

  /** `s` with `x` placed after the last element whose score does not exceed
      its own; what follows `x` all scores higher. */
  function Insert(s: seq<Totalizer>, x: Totalizer): (r: seq<Totalizer>)
    ensures |r| == |s| + 1
  {
    if s == [] || s[|s| - 1].score <= x.score then s + [x]
    else Insert(s[..|s| - 1], x) + [s[|s| - 1]]
  }

  /** Inserting adds `x` and loses nothing. */
  lemma {:induction false} InsertPermutation(s: seq<Totalizer>, x: Totalizer)
    ensures multiset(Insert(s, x)) == multiset(s) + multiset{x}
  {
    if !(s == [] || s[|s| - 1].score <= x.score) {
      var n := |s| - 1;
      InsertPermutation(s[..n], x);
      assert s == s[..n] + [s[n]];
    }
  }

  /** The stable ascending order of `s`: each element inserted in turn. */
  function Ranked(s: seq<Totalizer>): (r: seq<Totalizer>)
    ensures |r| == |s|
  {
    if s == [] then [] else Insert(Ranked(s[..|s| - 1]), s[|s| - 1])
  }

  /** The records of `s` with score `v`, in their order in `s`. */
  function WithScore(s: seq<Totalizer>, v: int): seq<Totalizer>
  {
    if s == [] then []
    else WithScore(s[..|s| - 1], v) + (if s[|s| - 1].score == v then [s[|s| - 1]] else [])
  }

  /** Inserting keeps every score under a bound that `x` and `s` are under. */
  lemma {:induction false} InsertBelow(s: seq<Totalizer>, x: Totalizer, b: int)
    requires forall i :: 0 <= i < |s| ==> s[i].score <= b
    requires x.score <= b
    ensures forall i :: 0 <= i < |Insert(s, x)| ==> Insert(s, x)[i].score <= b
  {
    if !(s == [] || s[|s| - 1].score <= x.score) {
      var n := |s| - 1;
      InsertBelow(s[..n], x, b);
      var p := Insert(s[..n], x);
      assert Insert(s, x) == p + [s[n]];
    }
  }

  lemma {:induction false} InsertSorted(s: seq<Totalizer>, x: Totalizer)
    requires SortedByScore(s)
    ensures SortedByScore(Insert(s, x))
  {
    if s != [] && s[|s| - 1].score > x.score {
      var n := |s| - 1;
      var t := s[..n];
      assert SortedByScore(t);
      InsertSorted(t, x);
      InsertBelow(t, x, s[n].score);
      var p := Insert(t, x);
      assert Insert(s, x) == p + [s[n]];
    }
  }

  /** The ranked list is in ascending score order. */
  lemma {:induction false} RankedSorted(s: seq<Totalizer>)
    ensures SortedByScore(Ranked(s))
  {
    if s != [] {
      RankedSorted(s[..|s| - 1]);
      InsertSorted(Ranked(s[..|s| - 1]), s[|s| - 1]);
    }
  }

  /** The ranked list is a permutation of the list. */
  lemma {:induction false} RankedPermutation(s: seq<Totalizer>)
    ensures multiset(Ranked(s)) == multiset(s)
  {
    if s != [] {
      var n := |s| - 1;
      RankedPermutation(s[..n]);
      InsertPermutation(Ranked(s[..n]), s[n]);
      assert s == s[..n] + [s[n]];
    }
  }

  lemma {:induction false} WithScoreConcat(a: seq<Totalizer>, b: seq<Totalizer>, v: int)
    ensures WithScore(a + b, v) == WithScore(a, v) + WithScore(b, v)
  {
    if b != [] {
      var n := |b| - 1;
      assert (a + b)[..|a + b| - 1] == a + b[..n];
      WithScoreConcat(a, b[..n], v);
    } else {
      assert a + b == a;
    }
  }

  /** Inserting `x` keeps the order of every score class and puts `x` last in its own. */
  lemma {:induction false} InsertStable(s: seq<Totalizer>, x: Totalizer, v: int)
    ensures WithScore(Insert(s, x), v) == WithScore(s, v) + (if x.score == v then [x] else [])
  {
    if s == [] || s[|s| - 1].score <= x.score {
      WithScoreConcat(s, [x], v);
      WithScoreOne(x, v);
    } else {
      var n := |s| - 1;
      var t := s[..n];
      var p := Insert(t, x);
      assert Insert(s, x) == p + [s[n]];
      assert s == t + [s[n]];
      InsertStable(t, x, v);
      StableStep(t, s[n], x, v, p);
    }
  }

  /** Passing `y`, which scores higher than `x`, does not reorder any score class. */
  lemma StableStep(t: seq<Totalizer>, y: Totalizer, x: Totalizer, v: int, p: seq<Totalizer>)
    requires y.score > x.score
    requires WithScore(p, v) == WithScore(t, v) + (if x.score == v then [x] else [])
    ensures WithScore(p + [y], v) == WithScore(t + [y], v) + (if x.score == v then [x] else [])
  {
    WithScoreConcat(p, [y], v);
    WithScoreConcat(t, [y], v);
    WithScoreOne(y, v);
  }

  lemma WithScoreOne(x: Totalizer, v: int)
    ensures WithScore([x], v) == if x.score == v then [x] else []
  {
    assert [x][..0] == [];
  }

  /** Stability: for every score, the records with that score appear in the
      ranked list in the order they had before. */
  lemma {:induction false} RankedStable(s: seq<Totalizer>, v: int)
    ensures WithScore(Ranked(s), v) == WithScore(s, v)
  {
    if s != [] {
      var n := |s| - 1;
      RankedStable(s[..n], v);
      InsertStable(Ranked(s[..n]), s[n], v);
      assert [s[n]][..0] == [];
    }
  }

  /** One shift of the insertion: `x` passes an element scoring higher. */
  lemma InsertPast(t: seq<Totalizer>, j: nat, x: Totalizer)
    requires 0 < j <= |t| && t[j - 1].score > x.score
    ensures Insert(t[..j], x) + t[j..] == Insert(t[..j - 1], x) + t[j - 1..]
  {
    assert t[..j][..j - 1] == t[..j - 1];
    assert t[j - 1..] == [t[j - 1]] + t[j..];
  }

  /** Copying the element before the gap into the gap moves the gap one place left. */
  lemma ShiftGap(t: seq<Totalizer>, j: nat, y: Totalizer, rest: seq<Totalizer>)
    requires 0 < j <= |t|
    ensures (t[..j] + [y] + t[j..] + rest)[j := t[j - 1]] == t[..j - 1] + [t[j - 1]] + t[j - 1..] + rest
  {
    var u := (t[..j] + [y] + t[j..] + rest)[j := t[j - 1]];
    var w := t[..j - 1] + [t[j - 1]] + t[j - 1..] + rest;
    assert |u| == |w|;
    forall k | 0 <= k < |u| ensures u[k] == w[k] {
      if k < j - 1 {
      } else if k == j - 1 || k == j {
      } else if k <= |t| {
        assert u[k] == t[k - 1];
      }
    }
  }

  /** The shifting loop of one insertion step: the records of `t` that score
      higher than `x` move one place right, leaving a gap at `j`. */
  method ShiftHigher(a: array<Totalizer>, i: nat, ghost t: seq<Totalizer>, x: Totalizer, ghost rest: seq<Totalizer>)
    returns (j: nat)
    requires |t| == i && a[..] == t + [x] + rest
    modifies a
    ensures j <= |t|
    ensures a[..] == t[..j] + [a[j]] + t[j..] + rest
    ensures Insert(t, x) == Insert(t[..j], x) + t[j..]
    ensures j == 0 || t[j - 1].score <= x.score
  {
    j := i;
    assert t[..j] == t && t[j..] == [];
    while j > 0 && a[j - 1].score > x.score
      invariant 0 <= j <= |t|
      invariant a[..] == t[..j] + [a[j]] + t[j..] + rest
      invariant Insert(t, x) == Insert(t[..j], x) + t[j..]
    {
      InsertPast(t, j, x);
      ShiftGap(t, j, a[j], rest);
      ghost var before := a[..];
      var y := a[j - 1];
      assert y == t[j - 1];
      a[j] := y;
      assert a[..] == before[j := y];
      j := j - 1;
    }
    assert j == 0 || a[j - 1] == t[j - 1];
  }

  /** One step of the sort: the record at `i` moves left past the records of
      the prefix that score higher, and lands where `Insert` places it. */
  method InsertAt(a: array<Totalizer>, i: nat)
    requires i < a.Length
    modifies a
    ensures a[..i + 1] == Insert(old(a[..i]), old(a[i]))
    ensures a[i + 1..] == old(a[i + 1..])
  {
    ghost var t := a[..i];
    ghost var rest := a[i + 1..];
    var x := a[i];
    assert a[..] == t + [x] + rest;
    var j := ShiftHigher(a, i, t, x, rest);
    ghost var before := a[..];
    a[j] := x;
    assert a[..] == before[j := x];
    FillGap(t, j, before[j], x, rest);
    assert Insert(t[..j], x) == t[..j] + [x];
    ghost var u := Insert(t, x);
    assert a[..] == u + rest;
    assert |u| == i + 1;
    assert a[..i + 1] == (u + rest)[..|u|];
    assert a[i + 1..] == (u + rest)[|u|..];
  }

  /** Writing `x` into the gap. */
  lemma FillGap(t: seq<Totalizer>, j: nat, y: Totalizer, x: Totalizer, rest: seq<Totalizer>)
    requires j <= |t|
    ensures (t[..j] + [y] + t[j..] + rest)[j := x] == t[..j] + [x] + t[j..] + rest
  {
    var u := (t[..j] + [y] + t[j..] + rest)[j := x];
    var w := t[..j] + [x] + t[j..] + rest;
    assert |u| == |w|;
    forall k | 0 <= k < |u| ensures u[k] == w[k] {
    }
  }

  lemma RankedSnoc(s: seq<Totalizer>, i: nat)
    requires i < |s|
    ensures Ranked(s[..i + 1]) == Insert(Ranked(s[..i]), s[i])
  {
    assert s[..i + 1][..i] == s[..i];
  }

  /** `deputadoTotalizador.sort(...)`: insertion sort in place. */
  method RankInPlace(a: array<Totalizer>)
    modifies a
    ensures a[..] == Ranked(old(a[..]))
  {
    ghost var s := a[..];
    var i := 0;
    while i < a.Length
      invariant 0 <= i <= a.Length
      invariant a[..i] == Ranked(s[..i])
      invariant a[i..] == s[i..]
    {
      assert a[i] == s[i];
      assert a[i + 1..] == s[i + 1..] by { assert a[i + 1..] == a[i..][1..]; assert s[i + 1..] == s[i..][1..]; }
      InsertAt(a, i);
      RankedSnoc(s, i);
      i := i + 1;
    }
    assert a[..] == a[..a.Length] && s[..a.Length] == s;
  }
}
