/** The array operations the routes use: `slice(0, n)` and `filter`. */
module JsArrays {

  function Min(a: int, b: int): int {
    if a <= b then a else b
  }

  /** `xs.slice(0, n)` (and `s.substring(0, n)` on strings): the first
      min(n, |xs|) elements, unchanged. */
  function Take<T>(xs: seq<T>, n: nat): (r: seq<T>)
    ensures |r| == Min(n, |xs|)
    ensures r <= xs
    ensures |xs| <= n ==> r == xs
  {
    if |xs| <= n then xs else xs[..n]
  }

  /** `xs.filter(keep)`. */
  function Filter<T>(xs: seq<T>, keep: T -> bool): (r: seq<T>)
    ensures |r| <= |xs|
    ensures forall k :: 0 <= k < |r| ==> keep(r[k])
    ensures (forall i :: 0 <= i < |xs| ==> keep(xs[i])) ==> r == xs
    ensures (forall i :: 0 <= i < |xs| ==> !keep(xs[i])) ==> r == []
  {
    if xs == [] then []
    else if keep(xs[0]) then [xs[0]] + Filter(xs[1..], keep)
    else Filter(xs[1..], keep)
  }

  /** `idx` picks, in increasing order, exactly the positions of `xs` whose
      element is kept, and `r` lists those elements in that order. */
  ghost predicate StableSelection<T>(xs: seq<T>, keep: T -> bool, r: seq<T>, idx: seq<nat>) {
    Picks(xs, r, idx) && Increasing(idx) && ExactlyKept(xs, keep, idx)
  }

  ghost predicate Picks<T>(xs: seq<T>, r: seq<T>, idx: seq<nat>) {
    |idx| == |r| && forall k :: 0 <= k < |idx| ==> idx[k] < |xs| && r[k] == xs[idx[k]]
  }

  ghost predicate Increasing(idx: seq<nat>) {
    forall k, l :: 0 <= k < l < |idx| ==> idx[k] < idx[l]
  }

  ghost predicate ExactlyKept<T>(xs: seq<T>, keep: T -> bool, idx: seq<nat>) {
    forall i :: 0 <= i < |xs| ==> (keep(xs[i]) <==> i in idx)
  }

  function Shift(idx: seq<nat>): seq<nat> {
    seq(|idx|, k requires 0 <= k < |idx| => idx[k] + 1)
  }

  lemma ShiftMembership(idx: seq<nat>, i: nat)
    ensures i + 1 in Shift(idx) <==> i in idx
    ensures 0 !in Shift(idx)
  {
    if i in idx {
      var k :| 0 <= k < |idx| && idx[k] == i;
      assert Shift(idx)[k] == i + 1;
    }
  }

  function ConsIndices<T>(x: T, keep: T -> bool, rest: seq<nat>): seq<nat> {
    if keep(x) then [0] + Shift(rest) else Shift(rest)
  }

  lemma PicksCons<T>(x: T, tail: seq<T>, keep: T -> bool, kept: seq<T>, rest: seq<nat>)
    requires Picks(tail, kept, rest)
    ensures Picks([x] + tail, if keep(x) then [x] + kept else kept, ConsIndices(x, keep, rest))
  {
    var xs := [x] + tail;
    var shifted := Shift(rest);
    forall k | 0 <= k < |shifted|
      ensures shifted[k] < |xs| && kept[k] == xs[shifted[k]]
    {
      assert xs[rest[k] + 1] == tail[rest[k]];
    }
  }

  lemma IncreasingCons<T>(x: T, keep: T -> bool, rest: seq<nat>)
    requires Increasing(rest)
    ensures Increasing(ConsIndices(x, keep, rest))
  {
  }

  lemma ExactlyKeptCons<T>(x: T, tail: seq<T>, keep: T -> bool, rest: seq<nat>)
    requires ExactlyKept(tail, keep, rest)
    ensures ExactlyKept([x] + tail, keep, ConsIndices(x, keep, rest))
  {
    var xs := [x] + tail;
    var idx := ConsIndices(x, keep, rest);
    forall i | 0 <= i < |xs|
      ensures keep(xs[i]) <==> i in idx
    {
      ShiftMembership(rest, 0);
      if i > 0 {
        ShiftMembership(rest, i - 1);
        assert xs[i] == tail[i - 1];
        assert i in idx <==> i in Shift(rest);
      }
    }
  }

  /** `filter` keeps every wanted element, drops every other one, and keeps
      the relative order of what it keeps. */
  lemma {:induction false} FilterIsStable<T>(xs: seq<T>, keep: T -> bool)
    returns (idx: seq<nat>)
    ensures StableSelection(xs, keep, Filter(xs, keep), idx)
  {
    if xs == [] {
      return [];
    }
    var tail := xs[1..];
    var rest := FilterIsStable(tail, keep);
    assert [xs[0]] + tail == xs;
    PicksCons(xs[0], tail, keep, Filter(tail, keep), rest);
    IncreasingCons(xs[0], keep, rest);
    ExactlyKeptCons(xs[0], tail, keep, rest);
    idx := ConsIndices(xs[0], keep, rest);
  }

  /** Dropping a position whose element the filter discards changes nothing:
      one failed unit never disturbs the others. */
  lemma {:induction false} FilterSkipsDropped<T>(xs: seq<T>, keep: T -> bool, i: nat)
    requires i < |xs| && !keep(xs[i])
    ensures Filter(xs[..i] + xs[i + 1..], keep) == Filter(xs, keep)
  {
    if i > 0 {
      FilterSkipsDropped(xs[1..], keep, i - 1);
      assert xs[..i] + xs[i + 1..] == [xs[0]] + (xs[1..][..i - 1] + xs[1..][i..]);
    } else {
      assert xs[..i] + xs[i + 1..] == xs[1..];
    }
  }
}
