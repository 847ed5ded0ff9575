/** The endless stream of micro-batches a worker trains on, and the optimizer loop that
    consumes it. */
module BatchStream {
  import opened Wrappers
  import opened RealSeqs
  import opened Partition

  datatype Batch = Batch(rows: seq<nat>, epoch: nat)

  /** What the generator for each pass draws: one shuffle of n rows an epoch. */
  ghost predicate DrawsEveryEpoch(draws: nat -> seq<nat>, n: nat) {
    forall epoch :: ValidDraws(draws(epoch), n)
  }

  /** Whole micro-batches in one pass; the remainder of a pass is not used. */
  function PerEpoch(n: nat, microBatch: nat): nat
    requires microBatch >= 1
  {
    n / microBatch
  }

  /** The k-th micro-batch of the stream, without running it: batch k % per of pass k / per. */
  ghost function BatchAt(rows: seq<nat>, microBatch: nat, draws: nat -> seq<nat>, k: nat): (b: Batch)
    requires 1 <= microBatch <= |rows| && DrawsEveryEpoch(draws, |rows|)
    ensures |b.rows| == microBatch
  {
    var per := PerEpoch(|rows|, microBatch);
    SliceFits(|rows|, microBatch, k % per);
    var order := Shuffled(rows, draws(k / per));
    Batch(Slice(order, k % per, microBatch), k / per)
  }

  /** The whole stream as a function of the batch number. */
  ghost function Source(rows: seq<nat>, microBatch: nat, draws: nat -> seq<nat>): nat -> Batch
    requires 1 <= microBatch <= |rows| && DrawsEveryEpoch(draws, |rows|)
  {
    (k: nat) => BatchAt(rows, microBatch, draws, k)
  }

  lemma SliceFits(n: nat, microBatch: nat, i: nat)
    requires 1 <= microBatch <= n
    ensures PerEpoch(n, microBatch) >= 1
    ensures i < PerEpoch(n, microBatch) <==> (i + 1) * microBatch <= n
  {
    var per := n / microBatch;
    assert n == per * microBatch + n % microBatch;
    if i < per {
      assert (per - i - 1) * microBatch >= 0;
    } else {
      assert (i - per) * microBatch >= 0;
    }
    assert per >= 1;
  }

  function Slice(xs: seq<nat>, i: nat, m: nat): (r: seq<nat>)
    requires (i + 1) * m <= |xs|
    ensures |r| == m
  {
    xs[i * m..(i + 1) * m]
  }

  lemma OneMore(i: nat, m: nat)
    ensures (i + 1) * m == i * m + m
  {
  }

  lemma PassDone(drawn: nat, epoch: nat, emitted: nat, per: nat)
    requires drawn == epoch * per + emitted && emitted == per
    ensures drawn == (epoch + 1) * per
  {
  }

  // ---- the stream ---------------------------------------------------------

  class Stream {
    const rows: seq<nat>
    const microBatch: nat
    const draws: nat -> seq<nat>
    var order: array<nat>
    var epoch: nat
    var emitted: nat     // batches yielded in the current pass
    ghost var drawn: nat // batches yielded in all
    ghost const source: nat -> Batch

    ghost predicate Valid()
      reads this, order
    {
      && (1 <= microBatch <= |rows| && DrawsEveryEpoch(draws, |rows|) ==> source == Source(rows, microBatch, draws))
      && 1 <= microBatch <= |rows| == order.Length
      && DrawsEveryEpoch(draws, |rows|)
      && emitted <= PerEpoch(|rows|, microBatch)
      && drawn == epoch * PerEpoch(|rows|, microBatch) + emitted
      && order[..] == Shuffled(rows, draws(epoch))
    }

    constructor (rows: seq<nat>, microBatch: nat, draws: nat -> seq<nat>)
      requires 1 <= microBatch <= |rows| && DrawsEveryEpoch(draws, |rows|)
      ensures Valid() && fresh(order) && drawn == 0
      ensures this.rows == rows && this.microBatch == microBatch && this.draws == draws
    {
      this.rows, this.microBatch, this.draws := rows, microBatch, draws;
      this.source := Source(rows, microBatch, draws);
      this.order := new nat[|rows|](i requires 0 <= i < |rows| => rows[i]);
      this.epoch, this.emitted, this.drawn := 0, 0, 0;
      new;
      assert order[..] == rows;
      Shuffle(order, draws(0));
    }

    /** Starts the next pass on a fresh shuffle of the rows. */
    method BeginPass()
      requires Valid()
      modifies this
      ensures drawn == old(drawn) && emitted == 0
      ensures epoch == old(epoch) + 1 && fresh(order) && order.Length == |rows| && order[..] == Shuffled(rows, draws(epoch))
    {
      hide Source, Shuffled, PerEpoch;
      epoch, emitted := epoch + 1, 0;
      var again := new nat[|rows|](i requires 0 <= i < |rows| => rows[i]);
      assert again[..] == rows;
      Shuffle(again, draws(epoch));
      order := again;
    }

    /** The stream cycles: when a pass has no whole batch left, the next one is shuffled anew. */
    method Next() returns (batch: Batch)
      requires Valid()
      modifies this, order
      ensures Valid() && fresh({order} - {old(order)}) && drawn == old(drawn) + 1
      ensures batch == source(old(drawn)) && |batch.rows| == microBatch
    {
      hide Shuffled, PerEpoch;
      SliceFits(|rows|, microBatch, emitted);
      if (emitted + 1) * microBatch > order.Length {
        PassDone(drawn, epoch, emitted, PerEpoch(|rows|, microBatch));
        BeginPass();
        SliceFits(|rows|, microBatch, 0);
      }
      DivModUnique(drawn, PerEpoch(|rows|, microBatch), epoch, emitted);
      SliceFits(|rows|, microBatch, emitted);
      batch := Batch(order[emitted * microBatch..(emitted + 1) * microBatch], epoch);
      emitted, drawn := emitted + 1, drawn + 1;
    }
  }

  /** The generator's own checks, made before the first batch is drawn. */
  method OpenStream(rows: seq<nat>, microBatch: int, draws: nat -> seq<nat>)
    returns (r: Result<Stream, DataError>)
    requires DrawsEveryEpoch(draws, |rows|)
    ensures r.Ok? <==> 1 <= microBatch <= |rows|
    ensures r.Err? ==> r.error == (if microBatch < 1 then MicroBatchTooSmall
                                   else if rows == [] then NoRowsAssigned else ShardSmallerThanBatch)
    ensures r.Ok? ==> fresh(r.value) && fresh(r.value.order) && r.value.Valid() && r.value.drawn == 0
                      && r.value.rows == rows && r.value.microBatch == microBatch && r.value.draws == draws
  {
    if microBatch < 1 { return Err(MicroBatchTooSmall); }
    if |rows| == 0 { return Err(NoRowsAssigned); }
    if |rows| < microBatch { return Err(ShardSmallerThanBatch); }
    var s := new Stream(rows, microBatch, draws);
    return Ok(s);
  }

  // ---- the optimizer loop -------------------------------------------------

  datatype Outcome = Outcome(steps: nat, losses: seq<real>, samples: nat, epoch: nat, stoppedEarly: bool)

  /** The model as the loop sees it: a loss for a batch, and what an optimizer step makes of
      the batches whose gradients were accumulated. */
  datatype Learner<!M> = Learner(loss: (M, seq<nat>) -> real, update: (M, seq<seq<nat>>) -> M)

  function MeanLoss<M>(learner: Learner<M>, model: M, batches: seq<seq<nat>>, gradAccum: nat): real
    requires gradAccum >= 1
  {
    if batches == [] then 0.0
    else MeanLoss(learner, model, batches[..|batches| - 1], gradAccum)
         + learner.loss(model, batches[|batches| - 1]) / gradAccum as real
  }

  /** Micro-batches number from, from + 1, ..., from + count - 1 of the stream. */
  ghost function Drawn(source: nat -> Batch, from: nat, count: nat)
    : (r: seq<seq<nat>>)
    ensures |r| == count
  {
    if count == 0 then []
    else Drawn(source, from, count - 1) + [source(from + count - 1).rows]
  }

  /** The model after `steps` optimizer steps, each over its own gradAccum micro-batches. */
  ghost function Trained<M>(
    learner: Learner<M>, model: M, source: nat -> Batch, from: nat, gradAccum: nat, steps: nat): M
  {
    if steps == 0 then model
    else learner.update(
        Trained(learner, model, source, from, gradAccum, steps - 1),
        Drawn(source, from + (steps - 1) * gradAccum, gradAccum))
  }

  /** The loss reported for step i: the mean over its micro-batches, at the model before the step. */
  ghost function StepLoss<M>(
    learner: Learner<M>, model: M, source: nat -> Batch, from: nat, gradAccum: nat, i: nat): real
    requires gradAccum >= 1
  {
    MeanLoss(learner, Trained(learner, model, source, from, gradAccum, i),
             Drawn(source, from + i * gradAccum, gradAccum), gradAccum)
  }

  ghost function Losses<M>(
    learner: Learner<M>, model: M, source: nat -> Batch, from: nat, gradAccum: nat, steps: nat): (r: seq<real>)
    requires gradAccum >= 1
    ensures |r| == steps
  {
    if steps == 0 then []
    else Losses(learner, model, source, from, gradAccum, steps - 1)
         + [StepLoss(learner, model, source, from, gradAccum, steps - 1)]
  }

  ghost predicate RanUntil(shouldStop: nat -> bool, step: nat) {
    forall i :: 0 <= i < step ==> !shouldStop(i)
  }

  lemma NoLoss<M>(learner: Learner<M>, model: M, gradAccum: nat)
    requires gradAccum >= 1
    ensures MeanLoss(learner, model, [], gradAccum) == 0.0
  {
  }

  lemma OneMoreLoss<M>(learner: Learner<M>, model: M, batches: seq<seq<nat>>, rows: seq<nat>, gradAccum: nat)
    requires gradAccum >= 1
    ensures MeanLoss(learner, model, batches + [rows], gradAccum)
         == MeanLoss(learner, model, batches, gradAccum) + learner.loss(model, rows) / gradAccum as real
  {
    assert (batches + [rows])[..|batches|] == batches;
  }

  /** One optimizer step's worth of the stream: draws gradAccum batches at a fixed model. */
  method Accumulate<M>(learner: Learner<M>, model: M, stream: Stream, gradAccum: nat)
    returns (accumulated: real, batches: seq<seq<nat>>, samples: nat, epoch: nat)
    requires stream.Valid() && gradAccum >= 1
    modifies stream, stream.order
    ensures stream.Valid() && fresh({stream.order} - {old(stream.order)})
    ensures stream.drawn == old(stream.drawn) + gradAccum
    ensures batches == Drawn(stream.source, old(stream.drawn), gradAccum)
    ensures accumulated == MeanLoss(learner, model, batches, gradAccum)
    ensures samples == gradAccum * stream.microBatch
    ensures epoch == stream.source(stream.drawn - 1).epoch
  {
    hide Stream.Valid, MeanLoss;
    ghost var from := stream.drawn;
    NoLoss(learner, model, gradAccum);
    accumulated, batches, samples, epoch := 0.0, [], 0, 0;
    var micro := 0;
    while micro < gradAccum
      invariant stream.Valid() && fresh({stream.order} - {old(stream.order)})
      invariant 0 <= micro <= gradAccum && stream.drawn == from + micro
      invariant batches == Drawn(stream.source, from, micro)
      invariant accumulated == MeanLoss(learner, model, batches, gradAccum)
      invariant samples == micro * stream.microBatch
      invariant micro > 0 ==> epoch == stream.source(from + micro - 1).epoch
    {
      var batch := stream.Next();
      epoch := batch.epoch;
      OneMoreLoss(learner, model, batches, batch.rows, gradAccum);
      batches := batches + [batch.rows];
      accumulated := accumulated + learner.loss(model, batch.rows) / gradAccum as real;
      samples := samples + |batch.rows|;
      OneMore(micro, stream.microBatch);
      micro := micro + 1;
    }
  }

  /** A step is an optimizer step over gradAccum micro-batches. The loop runs until it has
      made `steps` of them or the first poll of shouldStop that answers yes. */
  method TrainLoop<M>(learner: Learner<M>, model: M, stream: Stream, steps: nat, gradAccum: nat, shouldStop: nat -> bool)
    returns (outcome: Outcome, trained: M)
    requires stream.Valid() && gradAccum >= 1
    modifies stream, stream.order
    ensures stream.Valid()
    ensures outcome.steps <= steps && (outcome.stoppedEarly <==> outcome.steps < steps)
    ensures RanUntil(shouldStop, outcome.steps)
    ensures outcome.stoppedEarly ==> shouldStop(outcome.steps)
    ensures stream.drawn == old(stream.drawn) + outcome.steps * gradAccum
    ensures outcome.samples == outcome.steps * (gradAccum * stream.microBatch)
    ensures outcome.steps > 0 ==>
      outcome.epoch == stream.source(stream.drawn - 1).epoch
    ensures trained == Trained(learner, model, stream.source, old(stream.drawn), gradAccum, outcome.steps)
    ensures outcome.losses == Losses(learner, model, stream.source, old(stream.drawn), gradAccum, outcome.steps)
  {
    hide Stream.Valid, Drawn, MeanLoss;
    ghost var source, mb, start := stream.source, stream.microBatch, stream.drawn;
    var losses, samples, epoch, step := [], 0, 0, 0;
    trained := model;
    while step < steps
      invariant stream.Valid() && fresh({stream.order} - {old(stream.order)})
      invariant 0 <= step <= steps
      invariant RanUntil(shouldStop, step)
      invariant stream.drawn == start + step * gradAccum
      invariant samples == step * (gradAccum * mb)
      invariant step > 0 ==> stream.drawn > 0 && epoch == source(stream.drawn - 1).epoch
      invariant trained == Trained(learner, model, source, start, gradAccum, step)
      invariant losses == Losses(learner, model, source, start, gradAccum, step)
    {
      if shouldStop(step) {
        return Outcome(step, losses, samples, epoch, true), trained;
      }
      var accumulated, batches, n, last := Accumulate(learner, trained, stream, gradAccum);
      losses, samples, epoch := losses + [accumulated], samples + n, last;
      trained := learner.update(trained, batches);
      OneMore(step, gradAccum);
      OneMore(step, gradAccum * mb);
      step := step + 1;
    }
    return Outcome(step, losses, samples, epoch, false), trained;
  }

  // ---- what the loop adds up to -------------------------------------------

  lemma {:induction false} DrawnAt(source: nat -> Batch, from: nat, count: nat)
    ensures forall i :: 0 <= i < count ==> Drawn(source, from, count)[i] == source(from + i).rows
  {
    if count > 0 { DrawnAt(source, from, count - 1); }
  }

  /** The reported loss of a step is the mean of its batches' losses. */
  lemma {:induction false} MeanLossIsMean<M>(learner: Learner<M>, model: M, batches: seq<seq<nat>>, gradAccum: nat)
    requires gradAccum >= 1
    ensures MeanLoss(learner, model, batches, gradAccum) * gradAccum as real
         == Sum(seq(|batches|, i requires 0 <= i < |batches| => learner.loss(model, batches[i])))
  {
    var losses := seq(|batches|, i requires 0 <= i < |batches| => learner.loss(model, batches[i]));
    if batches != [] {
      var n := |batches| - 1;
      var rest := batches[..n];
      MeanLossIsMean(learner, model, rest, gradAccum);
      var some := seq(|rest|, i requires 0 <= i < |rest| => learner.loss(model, rest[i]));
      assert losses == some + [learner.loss(model, batches[n])];
      SumAppend(some, [learner.loss(model, batches[n])]);
      MeanOfMore(MeanLoss(learner, model, rest, gradAccum), learner.loss(model, batches[n]), gradAccum);
    }
  }

  lemma MeanOfMore(mean: real, x: real, n: nat)
    requires n >= 1
    ensures (mean + x / n as real) * n as real == mean * n as real + x
  {
  }

  /** One step updates the model once, on the next gradAccum batches of the stream in order, and reports
      their mean loss at the model before it. */
  lemma OneStepTrains<M>(learner: Learner<M>, model: M, source: nat -> Batch, from: nat, gradAccum: nat)
    requires gradAccum >= 1
    ensures Trained(learner, model, source, from, gradAccum, 1) == learner.update(model, Drawn(source, from, gradAccum))
    ensures Losses(learner, model, source, from, gradAccum, 1) == [MeanLoss(learner, model, Drawn(source, from, gradAccum), gradAccum)]
  {
    assert Trained(learner, model, source, from, gradAccum, 0) == model;
    assert Losses(learner, model, source, from, gradAccum, 0) == [];
  }

  /** Training in segments is training in one go: a steps and then b more, from where the stream then
      stands, make the model and report the losses of a + b steps. */
  lemma {:induction false} SegmentsJoin<M>(learner: Learner<M>, model: M, source: nat -> Batch, from: nat, gradAccum: nat, a: nat, b: nat)
    requires gradAccum >= 1
    ensures var mid := Trained(learner, model, source, from, gradAccum, a);
      && Trained(learner, model, source, from, gradAccum, a + b)
         == Trained(learner, mid, source, from + a * gradAccum, gradAccum, b)
      && Losses(learner, model, source, from, gradAccum, a + b)
         == Losses(learner, model, source, from, gradAccum, a) + Losses(learner, mid, source, from + a * gradAccum, gradAccum, b)
    decreases b
  {
    hide Drawn, MeanLoss;
    if b > 0 {
      SegmentsJoin(learner, model, source, from, gradAccum, a, b - 1);
      Shifted(from, a, b - 1, gradAccum);
    }
  }

  lemma Shifted(from: nat, a: nat, b: nat, gradAccum: nat)
    ensures from + (a + b) * gradAccum == from + a * gradAccum + b * gradAccum
  {
  }

  // ---- what a pass is ---------------------------------------------------------

  /** Batch i of pass e is slice i of the rows as that pass's own draws shuffle them. */
  lemma PassIsItsShuffle(rows: seq<nat>, microBatch: nat, draws: nat -> seq<nat>, e: nat, i: nat)
    requires 1 <= microBatch <= |rows| && DrawsEveryEpoch(draws, |rows|) && i < PerEpoch(|rows|, microBatch)
    ensures (i + 1) * microBatch <= |rows|
    ensures BatchAt(rows, microBatch, draws, e * PerEpoch(|rows|, microBatch) + i)
         == Batch(Shuffled(rows, draws(e))[i * microBatch..(i + 1) * microBatch], e)
  {
    hide Shuffled;
    var per := PerEpoch(|rows|, microBatch);
    SliceFits(|rows|, microBatch, i);
    DivModUnique(e * per + i, per, e, i);
  }
}
