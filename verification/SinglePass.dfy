/** The end-to-end promise of the sizing arithmetic: a coordinator that never sees the data
    hands out step counts that a worker, deriving the rows for itself, covers in one pass. */
module SinglePass {
  import opened Wrappers
  import opened Budget
  import opened Partition
  import opened BatchStream

  /** The coordinator and the worker read the same micro-batch, accumulation and bucket size. */
  ghost predicate Agree(s: Shape, p: Split, microBatch: nat, gradAccum: nat) {
    && p.Valid()
    && s.samplesPerStep == microBatch * gradAccum
    && s.samplesPerBucket == p.samplesPerBucket
    && s.totalBuckets == p.numBuckets
  }

  lemma PassesAtMostOne(steps: int, n: nat, s: Shape)
    requires FitsData(steps, n, s) && 0.0 < s.targetPasses <= 1.0 && s.samplesPerBucket >= 0
    ensures steps * s.samplesPerStep <= n * s.samplesPerBucket
  {
    var have := (n * s.samplesPerBucket) as real;
    assert have >= 0.0;
    assert have * (1.0 - s.targetPasses) >= 0.0;
    assert (steps * s.samplesPerStep) as real == steps as real * s.samplesPerStep as real;
  }

  /** A shard of n rows holds every micro-batch of a plan that fits it. */
  lemma ShardHoldsPlan(steps: nat, gradAccum: nat, microBatch: nat, n: nat)
    requires steps >= 1 && gradAccum >= 1 && microBatch >= 1
    requires steps * (microBatch * gradAccum) <= n
    ensures microBatch <= n
    ensures steps * gradAccum <= PerEpoch(n, microBatch)
  {
    var k := steps * gradAccum;
    assert k >= 1;
    assert steps * (microBatch * gradAccum) == k * microBatch;
    assert (k - 1) * microBatch >= 0;
    assert k * microBatch == (k - 1) * microBatch + microBatch;
    SliceFits(n, microBatch, k - 1);
  }

  lemma FirstPass(rows: seq<nat>, microBatch: nat, draws: nat -> seq<nat>, k: nat)
    requires 1 <= microBatch <= |rows| && DrawsEveryEpoch(draws, |rows|)
    requires k < PerEpoch(|rows|, microBatch)
    ensures BatchAt(rows, microBatch, draws, k).epoch == 0
    ensures (k + 1) * microBatch <= |rows|
    ensures BatchAt(rows, microBatch, draws, k).rows == Slice(Shuffled(rows, draws(0)), k, microBatch)
  {
    SliceFits(|rows|, microBatch, k);
    DivModUnique(k, PerEpoch(|rows|, microBatch), 0, k);
  }

  /** Position i of batch k of the stream. */
  ghost function RowAt(rows: seq<nat>, microBatch: nat, draws: nat -> seq<nat>, k: nat, i: nat): nat
    requires 1 <= microBatch <= |rows| && DrawsEveryEpoch(draws, |rows|) && i < microBatch
  {
    BatchAt(rows, microBatch, draws, k).rows[i]
  }

  lemma FirstPassRow(rows: seq<nat>, microBatch: nat, draws: nat -> seq<nat>, k: nat, i: nat)
    requires 1 <= microBatch <= |rows| && DrawsEveryEpoch(draws, |rows|) && i < microBatch
    requires k < PerEpoch(|rows|, microBatch)
    ensures k * microBatch + i < |rows|
    ensures RowAt(rows, microBatch, draws, k, i) == Shuffled(rows, draws(0))[k * microBatch + i]
  {
    FirstPass(rows, microBatch, draws, k);
    OneMore(k, microBatch);
  }

  /** Within the first pass no row of the shard is drawn twice, and only shard rows are drawn. */
  lemma FirstPassIsInjective(rows: seq<nat>, microBatch: nat, draws: nat -> seq<nat>, k: nat, i: nat, l: nat, j: nat)
    requires 1 <= microBatch <= |rows| && DrawsEveryEpoch(draws, |rows|) && NoDuplicates(rows)
    requires i < microBatch && j < microBatch
    requires k < PerEpoch(|rows|, microBatch) && l < PerEpoch(|rows|, microBatch)
    ensures RowAt(rows, microBatch, draws, k, i) in rows
    ensures RowAt(rows, microBatch, draws, k, i) == RowAt(rows, microBatch, draws, l, j) ==> k == l && i == j
  {
    FirstPassRow(rows, microBatch, draws, k, i);
    FirstPassRow(rows, microBatch, draws, l, j);
    ShufflePermutes(rows, draws(0), |rows|);
    var order := Shuffled(rows, draws(0));
    assert order[k * microBatch + i] in order;
    if k < l {
      MultiplesApart(k, l, microBatch);
    } else if l < k {
      MultiplesApart(l, k, microBatch);
    }
  }

  /** The first `batches` micro-batches stay in epoch 0, draw only rows of the shard, and draw
      none of them twice. */
  ghost predicate InOnePass(rows: seq<nat>, microBatch: nat, draws: nat -> seq<nat>, batches: nat)
    requires 1 <= microBatch <= |rows| && DrawsEveryEpoch(draws, |rows|)
  {
    && (forall k: nat :: k < batches ==> BatchAt(rows, microBatch, draws, k).epoch == 0)
    && (forall k: nat, i: nat :: k < batches && i < microBatch ==> RowAt(rows, microBatch, draws, k, i) in rows)
    && (forall k: nat, i: nat, l: nat, j: nat ::
          (k < batches && l < batches && i < microBatch && j < microBatch
           && RowAt(rows, microBatch, draws, k, i) == RowAt(rows, microBatch, draws, l, j)) ==> (k == l && i == j))
  }

  lemma OneEpochIsOnePass(rows: seq<nat>, microBatch: nat, draws: nat -> seq<nat>, batches: nat)
    requires 1 <= microBatch <= |rows| && DrawsEveryEpoch(draws, |rows|) && NoDuplicates(rows)
    requires batches <= PerEpoch(|rows|, microBatch)
    ensures InOnePass(rows, microBatch, draws, batches)
  {
    forall k: nat | k < batches ensures BatchAt(rows, microBatch, draws, k).epoch == 0 {
      FirstPass(rows, microBatch, draws, k);
    }
    forall k: nat, i: nat | k < batches && i < microBatch ensures RowAt(rows, microBatch, draws, k, i) in rows {
      FirstPassIsInjective(rows, microBatch, draws, k, i, k, i);
    }
    forall k: nat, i: nat, l: nat, j: nat |
      k < batches && l < batches && i < microBatch && j < microBatch
      && RowAt(rows, microBatch, draws, k, i) == RowAt(rows, microBatch, draws, l, j)
      ensures k == l && i == j
    {
      FirstPassIsInjective(rows, microBatch, draws, k, i, l, j);
    }
  }

  /** A full run of a planned task: the stream opens, every step draws from epoch 0, no row is
      trained twice, and no held-out row is trained at all. */
  lemma TaskTrainsInOnePass(
    plan: Plan, remaining: int, measured: Option<real>, calibrated: Option<real>, coldStart: real,
    s: Shape, o: Overheads, minUsable: int,
    p: Split, buckets: seq<int>, microBatch: nat, gradAccum: nat, draws: nat -> seq<nat>)
    requires Offered(plan, remaining, measured, calibrated, coldStart, s, o, minUsable)
    requires s.targetPasses <= 1.0 && microBatch >= 1 && gradAccum >= 1
    requires Agree(s, p, microBatch, gradAccum)
    requires NoDuplicates(buckets) && |buckets| == plan.nBuckets && p.RowsFor(buckets).Ok?
    requires DrawsEveryEpoch(draws, |p.RowsFor(buckets).value|)
    ensures var rows := p.RowsFor(buckets).value;
      && 1 <= microBatch <= |rows|
      && InOnePass(rows, microBatch, draws, plan.localSteps * gradAccum)
      && (forall row :: row in rows ==> row !in p.EvalIndices())
  {
    PlanIsExact(plan, remaining, measured, calibrated, coldStart, s, o, minUsable);
    assert FitsData(plan.localSteps, plan.nBuckets, s);
    PassesAtMostOne(plan.localSteps, plan.nBuckets, s);
    AssignmentRows(p, buckets);
    AssignmentIsExact(p, buckets);
    var rows := p.RowsFor(buckets).value;
    ShardHoldsPlan(plan.localSteps, gradAccum, microBatch, |rows|);
    OneEpochIsOnePass(rows, microBatch, draws, plan.localSteps * gradAccum);
  }
}
