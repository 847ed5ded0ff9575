/** What the seeded shuffle can reach: every order, each by exactly one sequence of draws. */
module Shuffles {
  import opened Wrappers
  import opened Partition

  // ---- every order is reached -------------------------------------------------

  lemma {:induction false} DrawsBelow(xs: seq<nat>, draws: seq<nat>, other: seq<nat>, i: nat)
    requires ValidDraws(draws, |xs|) && ValidDraws(other, |xs|) && i <= |xs|
    requires forall k :: 0 <= k < i ==> draws[k] == other[k]
    ensures ShuffleFrom(xs, draws, i) == ShuffleFrom(xs, other, i)
    decreases i
  {
    hide Swap;
    if i > 1 { DrawsBelow(Swap(xs, i - 1, draws[i - 1]), draws, other, i - 1); }
  }

  /** From position i on the two agree, and below it they hold the same values. */
  ghost predicate AgreeFrom(xs: seq<nat>, ys: seq<nat>, i: nat) {
    i <= |xs| == |ys| && (forall k :: i <= k < |xs| ==> xs[k] == ys[k]) && multiset(xs[..i]) == multiset(ys[..i])
  }

  lemma LastOfPrefix(xs: seq<nat>, i: nat)
    requires 0 < i <= |xs|
    ensures multiset(xs[..i]) == multiset(xs[..i - 1]) + multiset{xs[i - 1]}
  {
    assert xs[..i] == xs[..i - 1] + [xs[i - 1]];
  }

  lemma SwapPrefix(xs: seq<nat>, i: nat, j: nat)
    requires j < i <= |xs|
    ensures multiset(Swap(xs, i - 1, j)[..i]) == multiset(xs[..i])
  {
    SwapPermutes(xs[..i], i - 1, j);
    assert Swap(xs, i - 1, j)[..i] == Swap(xs[..i], i - 1, j);
  }

  lemma CancelOne(a: multiset<nat>, b: multiset<nat>, x: nat)
    requires a + multiset{x} == b + multiset{x}
    ensures a == b
  {
    assert a == a + multiset{x} - multiset{x} && b == b + multiset{x} - multiset{x};
  }

  /** Swapping the value that belongs at i - 1 there leaves two that agree from i - 1 on. */
  lemma SwapAgrees(xs: seq<nat>, ys: seq<nat>, i: nat, j: nat)
    requires 0 < i && AgreeFrom(xs, ys, i) && j < i && xs[j] == ys[i - 1]
    ensures AgreeFrom(Swap(xs, i - 1, j), ys, i - 1)
  {
    var zs := Swap(xs, i - 1, j);
    SwapPrefix(xs, i, j);
    LastOfPrefix(zs, i);
    LastOfPrefix(ys, i);
    CancelOne(multiset(zs[..i - 1]), multiset(ys[..i - 1]), ys[i - 1]);
  }

  lemma WhereItBelongs(xs: seq<nat>, ys: seq<nat>, i: nat) returns (j: nat)
    requires 0 < i && AgreeFrom(xs, ys, i)
    ensures j < i && xs[j] == ys[i - 1]
  {
    LastOfPrefix(ys, i);
    assert ys[i - 1] in multiset(xs[..i]);
    var k :| 0 <= k < i && xs[..i][k] == ys[i - 1];
    j := k;
  }

  lemma {:induction false} ReachesFrom(xs: seq<nat>, ys: seq<nat>, i: nat) returns (draws: seq<nat>)
    requires AgreeFrom(xs, ys, i)
    ensures ValidDraws(draws, |xs|) && ShuffleFrom(xs, draws, i) == ys
    decreases i
  {
    hide Swap, AgreeFrom;
    SameLengths(xs, ys, i);
    if i <= 1 {
      draws := seq(|xs|, _ => 0);
      NothingLeft(xs, ys, i);
    } else {
      var j := WhereItBelongs(xs, ys, i);
      SwapAgrees(xs, ys, i, j);
      var zs := Swap(xs, i - 1, j);
      var rest := ReachesFrom(zs, ys, i - 1);
      draws := rest[i - 1 := j];
      DrawsBelow(zs, draws, rest, i - 1);
    }
  }

  lemma SameLengths(xs: seq<nat>, ys: seq<nat>, i: nat)
    requires AgreeFrom(xs, ys, i)
    ensures i <= |xs| == |ys|
  {
  }

  lemma NothingLeft(xs: seq<nat>, ys: seq<nat>, i: nat)
    requires AgreeFrom(xs, ys, i) && i <= 1
    ensures xs == ys
  {
    if i == 1 { var j := WhereItBelongs(xs, ys, i); }
  }

  /** Every order of the rows is what some draws of the generator shuffle them to. */
  lemma ShuffleReachesEveryOrder(xs: seq<nat>, ys: seq<nat>) returns (draws: seq<nat>)
    requires multiset(ys) == multiset(xs)
    ensures ValidDraws(draws, |xs|) && Shuffled(xs, draws) == ys
  {
    assert |xs| == |multiset(xs)| && |ys| == |multiset(ys)|;
    assert xs[..|xs|] == xs && ys[..|ys|] == ys;
    draws := ReachesFrom(xs, ys, |xs|);
  }

  // ---- by one sequence of draws -----------------------------------------------

  lemma {:induction false} KeepsAbove(xs: seq<nat>, draws: seq<nat>, i: nat)
    requires ValidDraws(draws, |xs|) && i <= |xs|
    ensures forall k :: i <= k < |xs| ==> ShuffleFrom(xs, draws, i)[k] == xs[k]
    decreases i
  {
    if i > 1 { KeepsAbove(Swap(xs, i - 1, draws[i - 1]), draws, i - 1); }
  }

  lemma LastDrawTold(xs: seq<nat>, draws: seq<nat>, other: seq<nat>, i: nat)
    requires ValidDraws(draws, |xs|) && ValidDraws(other, |xs|) && 1 < i <= |xs| && NoDuplicates(xs)
    requires ShuffleFrom(xs, draws, i) == ShuffleFrom(xs, other, i)
    ensures draws[i - 1] == other[i - 1]
  {
    var j, k := draws[i - 1], other[i - 1];
    KeepsAbove(Swap(xs, i - 1, j), draws, i - 1);
    KeepsAbove(Swap(xs, i - 1, k), other, i - 1);
    assert ShuffleFrom(xs, draws, i)[i - 1] == xs[j];
    assert ShuffleFrom(xs, other, i)[i - 1] == xs[k];
  }

  lemma {:induction false} DrawsToldFrom(xs: seq<nat>, draws: seq<nat>, other: seq<nat>, i: nat)
    requires ValidDraws(draws, |xs|) && ValidDraws(other, |xs|) && i <= |xs| && NoDuplicates(xs)
    requires ShuffleFrom(xs, draws, i) == ShuffleFrom(xs, other, i)
    ensures forall k :: 0 <= k < i ==> draws[k] == other[k]
    decreases i
  {
    hide Swap, NoDuplicates;
    if i > 1 {
      LastDrawTold(xs, draws, other, i);
      SwapPermutes(xs, i - 1, draws[i - 1]);
      DrawsToldFrom(Swap(xs, i - 1, draws[i - 1]), draws, other, i - 1);
    }
  }

  /** And different draws shuffle distinct rows to different orders. */
  lemma DrawsAreTold(xs: seq<nat>, draws: seq<nat>, other: seq<nat>)
    requires ValidDraws(draws, |xs|) && ValidDraws(other, |xs|) && NoDuplicates(xs)
    requires Shuffled(xs, draws) == Shuffled(xs, other)
    ensures draws == other
  {
    DrawsToldFrom(xs, draws, other, |xs|);
  }
}
