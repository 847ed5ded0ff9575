/** Which buckets a new task gets: the least trained first, a bucket no round of the run has
    touched before one that some round has, then the longest untouched, then the lowest index. */
module BucketOrder {
  import opened Wrappers
  import opened Tables

  /** Whether row i sorts before row j: times_trained, "last_round IS NOT NULL", last_round, index. */
  predicate Ahead(bs: seq<Bucket>, i: int, j: int)
    requires 0 <= i < |bs| && 0 <= j < |bs|
  {
    var a, b := bs[i], bs[j];
    if a.times != b.times then a.times < b.times
    else if a.last.Some? != b.last.Some? then a.last.None?
    else if a.last.Some? && a.last.value != b.last.value then a.last.value < b.last.value
    else i < j
  }

  predicate IndicesOf(bs: seq<Bucket>, order: seq<int>) {
    forall k | 0 <= k < |order| :: 0 <= order[k] < |bs|
  }

  function Place(bs: seq<Bucket>, i: int, order: seq<int>): (r: seq<int>)
    requires 0 <= i < |bs| && IndicesOf(bs, order)
    ensures |r| == |order| + 1 && IndicesOf(bs, r)
  {
    if order == [] then [i]
    else if Ahead(bs, i, order[0]) then [i] + order
    else [order[0]] + Place(bs, i, order[1..])
  }

  /** The first n rows of the table, in the order of the query. */
  function Ranked(bs: seq<Bucket>, n: nat): (r: seq<int>)
    requires n <= |bs|
    ensures |r| == n && IndicesOf(bs, r)
  {
    if n == 0 then [] else Place(bs, n - 1, Ranked(bs, n - 1))
  }

  function Range(n: nat): (r: seq<int>)
    ensures |r| == n
  {
    seq(n, i => i)
  }

  function Min(a: int, b: int): int {
    if a <= b then a else b
  }

  /** A run whose buckets table was never seeded is still workable. */
  function PickBuckets(bs: seq<Bucket>, n: nat, total: nat): seq<int> {
    var picked := Ranked(bs, |bs|)[..Min(n, |bs|)];
    if picked == [] then Range(Min(n, total)) else picked
  }

  // ---- the ranking ----------------------------------------------------------

  ghost predicate InOrder(bs: seq<Bucket>, order: seq<int>)
    requires IndicesOf(bs, order)
  {
    forall k, l :: 0 <= k < l < |order| ==> Ahead(bs, order[k], order[l])
  }

  lemma AheadIsTotal(bs: seq<Bucket>, i: int, j: int)
    requires 0 <= i < |bs| && 0 <= j < |bs| && i != j
    ensures Ahead(bs, i, j) != Ahead(bs, j, i)
  {
  }

  lemma AheadChains(bs: seq<Bucket>, i: int, j: int, k: int)
    requires 0 <= i < |bs| && 0 <= j < |bs| && 0 <= k < |bs| && Ahead(bs, i, j) && Ahead(bs, j, k)
    ensures Ahead(bs, i, k)
  {
  }

  lemma {:induction false} PlaceAdds(bs: seq<Bucket>, i: int, order: seq<int>)
    requires 0 <= i < |bs| && IndicesOf(bs, order)
    ensures forall j :: j in Place(bs, i, order) <==> j == i || j in order
  {
    if order != [] && !Ahead(bs, i, order[0]) {
      PlaceAdds(bs, i, order[1..]);
      assert order == [order[0]] + order[1..];
    }
  }

  lemma {:induction false} PlaceKeepsOrder(bs: seq<Bucket>, i: int, order: seq<int>)
    requires 0 <= i < |bs| && IndicesOf(bs, order) && InOrder(bs, order) && i !in order
    ensures InOrder(bs, Place(bs, i, order))
  {
    hide Ahead;
    if order == [] {
    } else if Ahead(bs, i, order[0]) {
      forall l | 0 <= l < |order| ensures Ahead(bs, i, order[l]) {
        if l > 0 {
          AheadChains(bs, i, order[0], order[l]);
        }
      }
    } else {
      var rest := Place(bs, i, order[1..]);
      PlaceKeepsOrder(bs, i, order[1..]);
      PlaceAdds(bs, i, order[1..]);
      AheadIsTotal(bs, i, order[0]);
      forall l | 0 <= l < |rest| ensures Ahead(bs, order[0], rest[l]) {
        assert rest[l] in rest;
      }
    }
  }

  lemma {:induction false} RankedIsRange(bs: seq<Bucket>, n: nat)
    requires n <= |bs|
    ensures forall j :: j in Ranked(bs, n) <==> 0 <= j < n
    ensures InOrder(bs, Ranked(bs, n))
  {
    if n > 0 {
      RankedIsRange(bs, n - 1);
      PlaceAdds(bs, n - 1, Ranked(bs, n - 1));
      PlaceKeepsOrder(bs, n - 1, Ranked(bs, n - 1));
    }
  }

  ghost predicate Distinct(xs: seq<int>) {
    forall k, l :: 0 <= k < l < |xs| ==> xs[k] != xs[l]
  }

  lemma OrderIsDistinct(bs: seq<Bucket>, order: seq<int>)
    requires IndicesOf(bs, order) && InOrder(bs, order)
    ensures Distinct(order)
  {
    forall k, l | 0 <= k < l < |order| ensures order[k] != order[l] {
      assert Ahead(bs, order[k], order[l]);
    }
  }

  /** What a claim gets from a seeded table: the asked number of distinct buckets, or all of
      them, and every bucket it leaves out ranks behind every one it takes. */
  lemma PickIsLeastTrained(bs: seq<Bucket>, n: nat, total: nat)
    requires bs != [] && n >= 1
    ensures var p := PickBuckets(bs, n, total);
      && |p| == Min(n, |bs|) && Distinct(p) && IndicesOf(bs, p)
      && forall i, j :: i in p && 0 <= j < |bs| && j !in p ==> Ahead(bs, i, j)
  {
    var all := Ranked(bs, |bs|);
    var m := Min(n, |bs|);
    var p := all[..m];
    RankedIsRange(bs, |bs|);
    OrderIsDistinct(bs, all);
    hide Ranked, Ahead;
    assert forall l :: 0 <= l < m ==> all[l] in p;
    forall i, j | i in p && 0 <= j < |bs| && j !in p ensures Ahead(bs, i, j) {
      assert j in all;
      var l :| 0 <= l < |all| && all[l] == j;
      var k :| 0 <= k < |p| && p[k] == i;
      assert all[k] == i;
    }
  }

  /** So no bucket left out has been trained less often than one taken; of those trained as often, a fresh
      one is taken before a touched one, one touched in an earlier round before a later, and otherwise the
      lower index first. */
  lemma PickPrefers(bs: seq<Bucket>, n: nat, total: nat, i: int, j: int)
    requires bs != [] && n >= 1 && i in PickBuckets(bs, n, total) && 0 <= j < |bs| && j !in PickBuckets(bs, n, total)
    ensures 0 <= i < |bs| && bs[i].times <= bs[j].times
    ensures bs[i].times == bs[j].times && bs[j].last.None? ==> bs[i].last.None?
    ensures bs[i].times == bs[j].times && bs[i].last.Some? && bs[j].last.Some? ==> bs[i].last.value <= bs[j].last.value
    ensures bs[i].times == bs[j].times && bs[i].last == bs[j].last ==> i < j
  {
    hide PickBuckets;
    PickIsLeastTrained(bs, n, total);
    var p := PickBuckets(bs, n, total);
    var k :| 0 <= k < |p| && p[k] == i;
  }

  /** The fallback for a run whose table was never seeded hands out the first buckets. */
  lemma PickWithoutTable(n: nat, total: nat)
    ensures PickBuckets([], n, total) == Range(Min(n, total))
    ensures Distinct(PickBuckets([], n, total))
    ensures forall i :: i in PickBuckets([], n, total) ==> 0 <= i < total
  {
  }

  /** Whatever the table, a claim never gets a bucket twice. */
  lemma PickIsDistinct(bs: seq<Bucket>, n: nat, total: nat)
    ensures Distinct(PickBuckets(bs, n, total))
  {
    if bs == [] {
      PickWithoutTable(n, total);
    } else if n >= 1 {
      PickIsLeastTrained(bs, n, total);
    }
  }
}
