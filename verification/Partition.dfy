/** The split of a dataset into held-out rows and equal buckets, which the
    coordinator sizes and every worker derives again for itself. */
module Partition {
  import opened Wrappers

  datatype DataError =
    | EmptyDataset | NoBuckets | NegativeEvalSize | TooFewRows
    | BucketOutOfRange | MicroBatchTooSmall | NoRowsAssigned | ShardSmallerThanBatch

  ghost predicate NoDuplicates<T>(xs: seq<T>) {
    forall i, j :: 0 <= i < j < |xs| ==> xs[i] != xs[j]
  }

  ghost predicate SameMembers(xs: seq<nat>, ys: seq<nat>) {
    forall x :: x in xs <==> x in ys
  }

  // ---- the seeded shuffle -------------------------------------------------

  /** What the generator draws for a shuffle of n items: position i swaps with draws[i] <= i. */
  ghost predicate ValidDraws(draws: seq<nat>, n: nat) {
    |draws| == n && forall i :: 0 <= i < n ==> draws[i] <= i
  }

  function Swap<T>(xs: seq<T>, i: nat, j: nat): (r: seq<T>)
    requires i < |xs| && j < |xs|
    ensures |r| == |xs|
  {
    xs[i := xs[j]][j := xs[i]]
  }

  /** The swaps for positions i, i - 1, ..., 1, in that order. */
  function ShuffleFrom(xs: seq<nat>, draws: seq<nat>, i: nat): (r: seq<nat>)
    requires ValidDraws(draws, |xs|) && i <= |xs|
    ensures |r| == |xs|
    decreases i
  {
    if i <= 1 then xs else ShuffleFrom(Swap(xs, i - 1, draws[i - 1]), draws, i - 1)
  }

  function Shuffled(xs: seq<nat>, draws: seq<nat>): (r: seq<nat>)
    requires ValidDraws(draws, |xs|)
    ensures |r| == |xs|
  {
    ShuffleFrom(xs, draws, |xs|)
  }

  method Shuffle(a: array<nat>, draws: seq<nat>)
    requires ValidDraws(draws, a.Length)
    modifies a
    ensures a[..] == Shuffled(old(a[..]), draws)
  {
    var i := a.Length;
    while i > 1
      invariant 0 <= i <= a.Length
      invariant ShuffleFrom(a[..], draws, i) == Shuffled(old(a[..]), draws)
    {
      ghost var before := a[..];
      var j := draws[i - 1];
      a[i - 1], a[j] := a[j], a[i - 1];
      assert a[..] == Swap(before, i - 1, j);
      i := i - 1;
    }
  }

  lemma {:induction false} ShufflePermutes(xs: seq<nat>, draws: seq<nat>, i: nat)
    requires ValidDraws(draws, |xs|) && i <= |xs|
    ensures multiset(ShuffleFrom(xs, draws, i)) == multiset(xs)
    ensures SameMembers(ShuffleFrom(xs, draws, i), xs)
    ensures NoDuplicates(xs) ==> NoDuplicates(ShuffleFrom(xs, draws, i))
    decreases i
  {
    if i > 1 {
      var ys := Swap(xs, i - 1, draws[i - 1]);
      SwapPermutes(xs, i - 1, draws[i - 1]);
      ShufflePermutes(ys, draws, i - 1);
    }
  }

  lemma SwapPermutes(xs: seq<nat>, i: nat, j: nat)
    requires i < |xs| && j < |xs|
    ensures multiset(Swap(xs, i, j)) == multiset(xs)
    ensures SameMembers(Swap(xs, i, j), xs)
    ensures NoDuplicates(xs) ==> NoDuplicates(Swap(xs, i, j))
  {
    var ys := Swap(xs, i, j);
    forall x ensures x in ys <==> x in xs {
      assert x in ys <==> x in multiset(ys);
      assert x in xs <==> x in multiset(xs);
    }
  }

  // ---- the partition ------------------------------------------------------

  datatype Split = Split(nRows: nat, evalSize: nat, numBuckets: nat, samplesPerBucket: nat, order: seq<nat>) {
    ghost predicate Valid() {
      && |order| == nRows
      && evalSize + numBuckets * samplesPerBucket <= nRows
      && NoDuplicates(order)
      && forall row :: row in order <==> 0 <= row < nRows
    }

    function Dropped(): int { nRows - evalSize - numBuckets * samplesPerBucket }

    function EvalIndices(): (r: seq<nat>)
      requires Valid()
      ensures |r| == evalSize
    {
      order[..evalSize]
    }

    /** Where bucket b begins in the shuffled order. */
    function Start(b: nat): nat { evalSize + b * samplesPerBucket }

    lemma BucketFits(b: nat)
      requires Valid() && b < numBuckets
      ensures Start(b) + samplesPerBucket == Start(b + 1) <= nRows
    {
      MultiplesApart(b, numBuckets, samplesPerBucket);
      assert (b + 1) * samplesPerBucket == b * samplesPerBucket + samplesPerBucket;
    }

    function BucketIndices(b: int): (r: Result<seq<nat>, DataError>)
      requires Valid()
      ensures r.Ok? <==> 0 <= b < numBuckets
      ensures r.Ok? ==> |r.value| == samplesPerBucket
    {
      if 0 <= b < numBuckets then
        BucketFits(b);
        Ok(order[Start(b)..Start(b) + samplesPerBucket])
      else Err(BucketOutOfRange)
    }

    function RowsFor(buckets: seq<int>): (r: Result<seq<nat>, DataError>)
      requires Valid()
    {
      if buckets == [] then Ok([])
      else
        match BucketIndices(buckets[0])
        case Err(e) => Err(e)
        case Ok(first) =>
          match RowsFor(buckets[1..])
          case Err(e) => Err(e)
          case Ok(rest) => Ok(first + rest)
    }
  }

  function Range(n: nat): (r: seq<nat>)
    ensures |r| == n && forall i :: 0 <= i < n ==> r[i] == i
  {
    seq(n, i requires 0 <= i < n => i)
  }

  /** What plan_partition answers; draws stands for the generator that the data seed starts. */
  function PlanOf(nRows: int, numBuckets: int, evalSize: int, draws: seq<nat>): Result<Split, DataError>
    requires nRows > 0 ==> ValidDraws(draws, nRows)
  {
    if nRows <= 0 then Err(EmptyDataset)
    else if numBuckets < 1 then Err(NoBuckets)
    else if evalSize < 0 then Err(NegativeEvalSize)
    else if nRows - evalSize < numBuckets then Err(TooFewRows)
    else Ok(Split(nRows, evalSize, numBuckets, (nRows - evalSize) / numBuckets, Shuffled(Range(nRows), draws)))
  }

  method PlanPartition(nRows: int, numBuckets: int, evalSize: int, draws: seq<nat>)
    returns (r: Result<Split, DataError>)
    requires nRows > 0 ==> ValidDraws(draws, nRows)
    ensures r == PlanOf(nRows, numBuckets, evalSize, draws)
  {
    if nRows <= 0 { return Err(EmptyDataset); }
    if numBuckets < 1 { return Err(NoBuckets); }
    if evalSize < 0 { return Err(NegativeEvalSize); }
    var nTrain := nRows - evalSize;
    if nTrain < numBuckets { return Err(TooFewRows); }
    var order := new nat[nRows](i => i);
    assert order[..] == Range(nRows);
    Shuffle(order, draws);
    return Ok(Split(nRows, evalSize, numBuckets, nTrain / numBuckets, order[..]));
  }

  /** Every planned split is well formed: equal buckets of at least one row, fewer rows
      dropped than there are buckets, and the shuffled order holds each row once. */
  lemma PlanIsValid(nRows: int, numBuckets: int, evalSize: int, draws: seq<nat>)
    requires nRows > 0 ==> ValidDraws(draws, nRows)
    ensures PlanOf(nRows, numBuckets, evalSize, draws).Ok?
       <==> 0 <= evalSize && 1 <= numBuckets && evalSize + numBuckets <= nRows
    ensures var r := PlanOf(nRows, numBuckets, evalSize, draws);
      r.Ok? ==> r.value.Valid() && r.value.samplesPerBucket >= 1 && 0 <= r.value.Dropped() < numBuckets
  {
    var r := PlanOf(nRows, numBuckets, evalSize, draws);
    if r.Ok? {
      var p, nTrain := r.value, nRows - evalSize;
      ShufflePermutes(Range(nRows), draws, nRows);
      assert nTrain == numBuckets * (nTrain / numBuckets) + nTrain % numBuckets;
      QuotientAtLeastOne(nTrain, numBuckets);
      forall row ensures row in p.order <==> 0 <= row < nRows {
        assert 0 <= row < nRows ==> Range(nRows)[row] == row;
      }
    }
  }

  lemma QuotientAtLeastOne(a: nat, b: nat)
    requires 1 <= b <= a
    ensures a / b >= 1
  {
  }

  lemma BucketsDisjoint(p: Split, b: nat, c: nat, row: nat)
    requires p.Valid() && b < p.numBuckets && c < p.numBuckets && b != c
    requires row in p.BucketIndices(b).value
    ensures row !in p.BucketIndices(c).value
  {
    p.BucketFits(b);
    p.BucketFits(c);
    if b < c {
      MultiplesApart(b, c, p.samplesPerBucket);
    } else {
      MultiplesApart(c, b, p.samplesPerBucket);
    }
    SlicesDisjoint(p.order, p.Start(b), p.Start(c), p.samplesPerBucket, p.samplesPerBucket, row);
  }

  lemma SlicesDisjoint(xs: seq<nat>, i: nat, j: nat, m: nat, n: nat, x: nat)
    requires NoDuplicates(xs) && i + m <= |xs| && j + n <= |xs|
    requires i + m <= j || j + n <= i
    requires x in xs[i..i + m]
    ensures x !in xs[j..j + n]
  {
    var k :| 0 <= k < m && xs[i..i + m][k] == x;
    assert xs[i + k] == x;
    var ys := xs[j..j + n];
    forall l | 0 <= l < |ys| ensures ys[l] != x {
      assert ys[l] == xs[j + l] != xs[i + k];
    }
  }

  lemma BucketAvoidsEval(p: Split, b: nat, row: nat)
    requires p.Valid() && b < p.numBuckets && row in p.BucketIndices(b).value
    ensures row !in p.EvalIndices()
  {
    p.BucketFits(b);
    assert p.Start(b) >= p.evalSize;
    SlicesDisjoint(p.order, p.Start(b), 0, p.samplesPerBucket, p.evalSize, row);
    assert p.order[0..0 + p.evalSize] == p.EvalIndices();
  }

  lemma {:induction false} AssignmentInRange(p: Split, buckets: seq<int>)
    requires p.Valid()
    ensures p.RowsFor(buckets).Ok? <==> forall b :: b in buckets ==> 0 <= b < p.numBuckets
  {
    if buckets != [] {
      var b, rest := buckets[0], buckets[1..];
      AssignmentInRange(p, rest);
      assert buckets == [b] + rest;
      assert b in buckets;
      assert forall c :: c in buckets <==> c == b || c in rest;
    }
  }

  /** Row `row` lies in bucket b. */
  ghost predicate InBucket(p: Split, b: int, row: nat)
    requires p.Valid()
  {
    0 <= b < p.numBuckets && row in p.BucketIndices(b).value
  }

  /** The rows of an assignment are the rows of its buckets, with their multiplicity. */
  lemma {:induction false} AssignmentRows(p: Split, buckets: seq<int>)
    requires p.Valid() && p.RowsFor(buckets).Ok?
    ensures |p.RowsFor(buckets).value| == |buckets| * p.samplesPerBucket
    ensures forall row :: row in p.RowsFor(buckets).value <==> exists b :: b in buckets && InBucket(p, b, row)
  {
    if buckets != [] {
      var b, rest := buckets[0], buckets[1..];
      assert buckets == [b] + rest;
      AssignmentRows(p, rest);
      var first, others := p.BucketIndices(b).value, p.RowsFor(rest).value;
      assert p.RowsFor(buckets).value == first + others;
      assert |buckets| * p.samplesPerBucket == p.samplesPerBucket + |rest| * p.samplesPerBucket;
      forall row ensures row in first + others <==> exists c :: c in buckets && InBucket(p, c, row) {
        if row in first {
          assert b in buckets && InBucket(p, b, row);
        }
      }
    }
  }

  /** An assignment of distinct buckets names no row twice, and none that is held out. */
  lemma {:induction false} AssignmentIsExact(p: Split, buckets: seq<int>)
    requires p.Valid() && NoDuplicates(buckets) && p.RowsFor(buckets).Ok?
    ensures NoDuplicates(p.RowsFor(buckets).value)
    ensures forall row :: row in p.RowsFor(buckets).value ==> row !in p.EvalIndices()
  {
    if buckets != [] {
      var b, rest := buckets[0], buckets[1..];
      AssignmentIsExact(p, rest);
      AssignmentRows(p, rest);
      var first, others := p.BucketIndices(b).value, p.RowsFor(rest).value;
      forall row | row in first ensures row !in p.EvalIndices() && row !in others {
        BucketAvoidsEval(p, b, row);
        if row in others {
          var c :| c in rest && InBucket(p, c, row);
          var k :| 0 <= k < |rest| && rest[k] == c;
          assert buckets[0] != buckets[k + 1];
          BucketsDisjoint(p, b, c, row);
        }
      }
      p.BucketFits(b);
      DisjointConcat(first, others);
    }
  }

  lemma DisjointConcat(xs: seq<nat>, ys: seq<nat>)
    requires NoDuplicates(xs) && NoDuplicates(ys)
    requires forall x :: x in xs ==> x !in ys
    ensures NoDuplicates(xs + ys)
  {
    forall i, j | 0 <= i < j < |xs + ys| ensures (xs + ys)[i] != (xs + ys)[j] {
      if i < |xs| <= j {
        assert xs[i] in xs && ys[j - |xs|] in ys;
      }
    }
  }

  // ---- what the split is made of ------------------------------------------

  function Buckets(lo: nat, hi: nat): (r: seq<int>)
    requires lo <= hi
    ensures |r| == hi - lo
  {
    seq(hi - lo, i requires 0 <= i < hi - lo => lo + i)
  }

  lemma SlicesJoin(xs: seq<nat>, a: nat, b: nat, c: nat)
    requires a <= b <= c <= |xs|
    ensures xs[a..b] + xs[b..c] == xs[a..c]
  {
  }

  lemma StartsInOrder(p: Split, lo: nat, hi: nat)
    requires p.Valid() && lo <= hi <= p.numBuckets
    ensures p.Start(lo) <= p.Start(hi) <= p.nRows == |p.order|
  {
    if lo < hi { MultiplesApart(lo, hi, p.samplesPerBucket); }
    if hi < p.numBuckets { MultiplesApart(hi, p.numBuckets, p.samplesPerBucket); }
  }

  lemma RowsOfFirst(p: Split, b: nat, rest: seq<int>)
    requires p.Valid() && b < p.numBuckets && p.RowsFor(rest).Ok?
    ensures p.Start(b) <= p.Start(b + 1) <= |p.order|
    ensures p.RowsFor([b] + rest) == Ok(p.order[p.Start(b)..p.Start(b + 1)] + p.RowsFor(rest).value)
  {
    p.BucketFits(b);
    assert ([b] + rest)[1..] == rest;
  }

  /** The rows of consecutive buckets lie side by side in the shuffled order. */
  lemma {:induction false} ConsecutiveBuckets(p: Split, lo: nat, hi: nat)
    requires p.Valid() && lo <= hi <= p.numBuckets
    ensures p.Start(lo) <= p.Start(hi) <= |p.order| && p.RowsFor(Buckets(lo, hi)) == Ok(p.order[p.Start(lo)..p.Start(hi)])
    decreases hi - lo
  {
    hide Split.Valid, Split.Start, Split.RowsFor;
    StartsInOrder(p, lo, hi);
    if lo == hi {
      NoRows(p, lo);
    } else {
      ConsecutiveBuckets(p, lo + 1, hi);
      assert Buckets(lo, hi) == [lo] + Buckets(lo + 1, hi);
      RowsOfFirst(p, lo, Buckets(lo + 1, hi));
      StartsInOrder(p, lo + 1, hi);
      SlicesJoin(p.order, p.Start(lo), p.Start(lo + 1), p.Start(hi));
    }
  }

  lemma NoRows(p: Split, b: nat)
    requires p.Valid() && p.Start(b) <= |p.order|
    ensures p.RowsFor(Buckets(b, b)) == Ok(p.order[p.Start(b)..p.Start(b)])
  {
    assert Buckets(b, b) == [] && p.order[p.Start(b)..p.Start(b)] == [];
  }

  /** The held-out rows, the rows of all buckets and the dropped ones are together the shuffled order:
      as many rows held out as asked for, and each row of the dataset in exactly one place. */
  lemma EveryRowHasItsPlace(p: Split) returns (dropped: seq<nat>)
    requires p.Valid()
    ensures |p.EvalIndices()| == p.evalSize && |dropped| == p.Dropped()
    ensures p.RowsFor(Buckets(0, p.numBuckets)).Ok?
    ensures var all := p.EvalIndices() + p.RowsFor(Buckets(0, p.numBuckets)).value + dropped;
      |all| == p.nRows && NoDuplicates(all) && forall row :: row in all <==> 0 <= row < p.nRows
  {
    ConsecutiveBuckets(p, 0, p.numBuckets);
    dropped := p.order[p.Start(p.numBuckets)..];
    var a, b := p.Start(0), p.Start(p.numBuckets);
    assert p.order[..a] + p.order[a..b] + p.order[b..] == p.order;
  }

  /** Which complaint a plan that cannot be made gets: the first that applies. */
  lemma PlanErrors(nRows: int, numBuckets: int, evalSize: int, draws: seq<nat>)
    requires nRows > 0 ==> ValidDraws(draws, nRows)
    ensures var r := PlanOf(nRows, numBuckets, evalSize, draws);
      && (r == Err(EmptyDataset) <==> nRows <= 0)
      && (r == Err(NoBuckets) <==> nRows > 0 && numBuckets < 1)
      && (r == Err(NegativeEvalSize) <==> nRows > 0 && numBuckets >= 1 && evalSize < 0)
      && (r == Err(TooFewRows) <==> nRows > 0 && numBuckets >= 1 && evalSize >= 0 && nRows - evalSize < numBuckets)
  {
  }
}
