/** Held-out loss: batched, padded and summed in chunks, and equal to the plain sum all the same.
    The model is causal: the loss at a position is a function of the ids up to it and its target. */
module Evaluation {
  import opened Wrappers
  import RealSeqs
  import opened Encoding

  type Loss = (seq<int>, int) -> real

  /** The loss of predicting the label at j + 1 from the ids up to j; nothing where it is ignored. */
  function Term(loss: Loss, e: Encoded, j: nat): real
    requires |e.labels| == |e.inputIds| && j + 1 < |e.labels|
  {
    if e.labels[j + 1] == IGNORE_INDEX then 0.0 else loss(e.inputIds[..j + 1], e.labels[j + 1])
  }

  function RowNll(loss: Loss, e: Encoded, lo: nat, hi: nat): real
    requires |e.labels| == |e.inputIds| && lo <= hi && (lo < hi ==> hi < |e.labels|)
    decreases hi
  {
    if lo == hi then 0.0 else RowNll(loss, e, lo, hi - 1) + Term(loss, e, hi - 1)
  }

  function RowTokens(e: Encoded, lo: nat, hi: nat): nat
    requires |e.labels| == |e.inputIds| && lo <= hi && (lo < hi ==> hi < |e.labels|)
    decreases hi
  {
    if lo == hi then 0 else RowTokens(e, lo, hi - 1) + if e.labels[hi] != IGNORE_INDEX then 1 else 0
  }

  ghost predicate Rectangle(batch: seq<Encoded>, width: nat) {
    forall i :: 0 <= i < |batch| ==> |batch[i].labels| == |batch[i].inputIds| == width
  }

  /** Cross-entropy with reduction "sum" over columns lo..hi of a batch. */
  function PieceNll(loss: Loss, batch: seq<Encoded>, width: nat, lo: nat, hi: nat): real
    requires Rectangle(batch, width) && lo <= hi && (lo < hi ==> hi < width)
  {
    if batch == [] then 0.0
    else PieceNll(loss, batch[..|batch| - 1], width, lo, hi) + RowNll(loss, batch[|batch| - 1], lo, hi)
  }

  function PieceTokens(batch: seq<Encoded>, width: nat, lo: nat, hi: nat): nat
    requires Rectangle(batch, width) && lo <= hi && (lo < hi ==> hi < width)
  {
    if batch == [] then 0
    else PieceTokens(batch[..|batch| - 1], width, lo, hi) + RowTokens(batch[|batch| - 1], lo, hi)
  }

  lemma {:induction false} RowSplits(loss: Loss, e: Encoded, lo: nat, mid: nat, hi: nat)
    requires |e.labels| == |e.inputIds| && lo <= mid <= hi && (lo < hi ==> hi < |e.labels|)
    ensures RowNll(loss, e, lo, hi) == RowNll(loss, e, lo, mid) + RowNll(loss, e, mid, hi)
    ensures RowTokens(e, lo, hi) == RowTokens(e, lo, mid) + RowTokens(e, mid, hi)
    decreases hi
  {
    if mid < hi {
      RowSplits(loss, e, lo, mid, hi - 1);
    }
  }

  lemma {:induction false} PieceSplits(loss: Loss, batch: seq<Encoded>, width: nat, lo: nat, mid: nat, hi: nat)
    requires Rectangle(batch, width) && lo <= mid <= hi && (lo < hi ==> hi < width)
    ensures PieceNll(loss, batch, width, lo, hi) == PieceNll(loss, batch, width, lo, mid) + PieceNll(loss, batch, width, mid, hi)
    ensures PieceTokens(batch, width, lo, hi) == PieceTokens(batch, width, lo, mid) + PieceTokens(batch, width, mid, hi)
  {
    if batch != [] {
      PieceSplits(loss, batch[..|batch| - 1], width, lo, mid, hi);
      RowSplits(loss, batch[|batch| - 1], lo, mid, hi);
    }
  }

  lemma {:induction false} RowNoTokens(loss: Loss, e: Encoded, lo: nat, hi: nat)
    requires |e.labels| == |e.inputIds| && lo <= hi && (lo < hi ==> hi < |e.labels|)
    requires RowTokens(e, lo, hi) == 0
    ensures RowNll(loss, e, lo, hi) == 0.0
    decreases hi
  {
    if lo < hi {
      RowNoTokens(loss, e, lo, hi - 1);
    }
  }

  /** Skipping a piece without supervised tokens loses nothing. */
  lemma {:induction false} PieceNoTokens(loss: Loss, batch: seq<Encoded>, width: nat, lo: nat, hi: nat)
    requires Rectangle(batch, width) && lo <= hi && (lo < hi ==> hi < width)
    requires PieceTokens(batch, width, lo, hi) == 0
    ensures PieceNll(loss, batch, width, lo, hi) == 0.0
  {
    if batch != [] {
      PieceNoTokens(loss, batch[..|batch| - 1], width, lo, hi);
      RowNoTokens(loss, batch[|batch| - 1], lo, hi);
    }
  }

  method SummedNll(loss: Loss, batch: seq<Encoded>, width: nat, chunk: nat) returns (total: real, tokens: nat)
    requires Rectangle(batch, width) && chunk >= 1
    ensures total == PieceNll(loss, batch, width, 0, if width == 0 then 0 else width - 1)
    ensures tokens == PieceTokens(batch, width, 0, if width == 0 then 0 else width - 1)
  {
    hide PieceNll, PieceTokens;
    var columns := if width == 0 then 0 else width - 1;
    total, tokens := 0.0, 0;
    EmptySpan(loss, batch, width);
    var start := 0;
    while start < columns
      invariant 0 <= start <= columns
      invariant total == PieceNll(loss, batch, width, 0, start)
      invariant tokens == PieceTokens(batch, width, 0, start)
    {
      var stop := if start + chunk < columns then start + chunk else columns;
      PieceSplits(loss, batch, width, 0, start, stop);
      var n := PieceTokens(batch, width, start, stop);
      if n == 0 {
        PieceNoTokens(loss, batch, width, start, stop);
        start := stop;
        continue;
      }
      total := total + PieceNll(loss, batch, width, start, stop);
      tokens := tokens + n;
      start := stop;
    }
  }

  lemma {:induction false} EmptySpan(loss: Loss, batch: seq<Encoded>, width: nat)
    requires Rectangle(batch, width)
    ensures PieceNll(loss, batch, width, 0, 0) == 0.0 && PieceTokens(batch, width, 0, 0) == 0
  {
    if batch != [] {
      EmptySpan(loss, batch[..|batch| - 1], width);
    }
  }

  // ---- the plain sum --------------------------------------------------------

  function Last(e: Encoded): nat {
    if e.labels == [] then 0 else |e.labels| - 1
  }

  function TotalNll(loss: Loss, examples: seq<Encoded>): real
    requires Aligned(examples)
  {
    if examples == [] then 0.0
    else TotalNll(loss, examples[..|examples| - 1]) + RowNll(loss, examples[|examples| - 1], 0, Last(examples[|examples| - 1]))
  }

  function TotalTokens(examples: seq<Encoded>): nat
    requires Aligned(examples)
  {
    if examples == [] then 0
    else TotalTokens(examples[..|examples| - 1]) + RowTokens(examples[|examples| - 1], 0, Last(examples[|examples| - 1]))
  }

  lemma TotalsOfNone(loss: Loss)
    ensures TotalNll(loss, []) == 0.0 && TotalTokens([]) == 0
  {
  }

  lemma {:induction false} TotalsSplit(loss: Loss, xs: seq<Encoded>, ys: seq<Encoded>)
    requires Aligned(xs) && Aligned(ys)
    ensures Aligned(xs + ys)
    ensures TotalNll(loss, xs + ys) == TotalNll(loss, xs) + TotalNll(loss, ys)
    ensures TotalTokens(xs + ys) == TotalTokens(xs) + TotalTokens(ys)
  {
    if ys == [] {
      assert xs + ys == xs;
    } else {
      assert (xs + ys)[..|xs + ys| - 1] == xs + ys[..|ys| - 1];
      TotalsSplit(loss, xs, ys[..|ys| - 1]);
    }
  }

  /** Up to the end of the example, a padded row scores as the example does. */
  lemma {:induction false} PaddedRowAgrees(loss: Loss, e: Encoded, width: nat, padId: int, hi: nat)
    requires |e.labels| == |e.inputIds| <= width && hi <= Last(e)
    ensures RowNll(loss, Pad(e, width, padId), 0, hi) == RowNll(loss, e, 0, hi)
    ensures RowTokens(Pad(e, width, padId), 0, hi) == RowTokens(e, 0, hi)
    decreases hi
  {
    if hi > 0 {
      PaddedRowAgrees(loss, e, width, padId, hi - 1);
      assert Pad(e, width, padId).inputIds[..hi] == e.inputIds[..hi];
    }
  }

  /** Past the end of the example, padding scores nothing. */
  lemma {:induction false} PaddingScoresNothing(loss: Loss, e: Encoded, width: nat, padId: int, hi: nat)
    requires |e.labels| == |e.inputIds| <= width && Last(e) <= hi && (Last(e) < hi ==> hi < width)
    requires e.labels == [] ==> hi == 0 || width > 0
    ensures RowNll(loss, Pad(e, width, padId), Last(e), hi) == 0.0
    ensures RowTokens(Pad(e, width, padId), Last(e), hi) == 0
    decreases hi
  {
    if Last(e) < hi {
      PaddingScoresNothing(loss, e, width, padId, hi - 1);
    }
  }

  lemma PaddedRow(loss: Loss, e: Encoded, width: nat, padId: int)
    requires |e.labels| == |e.inputIds| <= width
    ensures var columns := if width == 0 then 0 else width - 1;
      && RowNll(loss, Pad(e, width, padId), 0, columns) == RowNll(loss, e, 0, Last(e))
      && RowTokens(Pad(e, width, padId), 0, columns) == RowTokens(e, 0, Last(e))
  {
    var columns := if width == 0 then 0 else width - 1;
    RowSplits(loss, Pad(e, width, padId), 0, Last(e), columns);
    PaddedRowAgrees(loss, e, width, padId, Last(e));
    PaddingScoresNothing(loss, e, width, padId, columns);
  }

  /** A padded batch scores as its examples do, whatever it was padded to. */
  lemma {:induction false} PaddedBatch(loss: Loss, examples: seq<Encoded>, padded: seq<Encoded>, width: nat, padId: int)
    requires Aligned(examples) && |padded| == |examples|
    requires forall i :: 0 <= i < |examples| ==> |examples[i].inputIds| <= width
    requires forall i :: 0 <= i < |examples| ==> padded[i] == Pad(examples[i], width, padId)
    ensures Rectangle(padded, width)
    ensures var columns := if width == 0 then 0 else width - 1;
      && PieceNll(loss, padded, width, 0, columns) == TotalNll(loss, examples)
      && PieceTokens(padded, width, 0, columns) == TotalTokens(examples)
  {
    if examples != [] {
      var n := |examples| - 1;
      PaddedBatch(loss, examples[..n], padded[..n], width, padId);
      PaddedRow(loss, examples[n], width, padId);
    }
  }

  // ---- the evaluation -------------------------------------------------------

  datatype Row = Row(prompt: seq<int>, completion: seq<int>)

  datatype Setup = Setup(special: SpecialTokens, padId: int, seqLen: int, completionOnly: bool)

  datatype EvalResult = EvalResult(loss: real, tokens: nat, examples: nat)

  datatype EvalError = BadSeqLen | NoSupervisedTokens

  function EncodeRow(row: Row, setup: Setup): (e: Encoded)
    requires setup.seqLen >= 1
    ensures |e.labels| == |e.inputIds|
  {
    Encode(row.prompt, row.completion, setup.special, setup.seqLen, setup.completionOnly).value
  }

  lemma RowEncoded(row: Row, setup: Setup)
    requires setup.seqLen >= 1
    ensures Encode(row.prompt, row.completion, setup.special, setup.seqLen, setup.completionOnly) == Ok(EncodeRow(row, setup))
  {
  }

  function EncodeAll(rows: seq<Row>, indices: seq<nat>, setup: Setup): (r: seq<Encoded>)
    requires setup.seqLen >= 1 && forall i :: 0 <= i < |indices| ==> indices[i] < |rows|
    ensures |r| == |indices| && Aligned(r)
  {
    seq(|indices|, i requires 0 <= i < |indices| => EncodeRow(rows[indices[i]], setup))
  }

  /** A limit of zero means no limit. */
  function Chosen(indices: seq<nat>, limit: Option<nat>): seq<nat> {
    if limit.Some? && limit.value != 0 && limit.value < |indices| then indices[..limit.value] else indices
  }

  /** One batch of the evaluation: encode, pad and score. */
  method ScoreBatch(loss: Loss, rows: seq<Row>, batchIndices: seq<nat>, setup: Setup, chunk: nat)
    returns (nll: real, tokens: nat)
    requires setup.seqLen >= 1 && chunk >= 1 && batchIndices != []
    requires forall i :: 0 <= i < |batchIndices| ==> batchIndices[i] < |rows|
    ensures nll == TotalNll(loss, EncodeAll(rows, batchIndices, setup))
    ensures tokens == TotalTokens(EncodeAll(rows, batchIndices, setup))
  {
    hide PieceNll, PieceTokens, TotalNll, TotalTokens, Encode, EncodeRow;
    var encoded := [];
    for i := 0 to |batchIndices|
      invariant encoded == EncodeAll(rows, batchIndices, setup)[..i]
    {
      var row := rows[batchIndices[i]];
      var e := EncodeExample(row.prompt, row.completion, setup.special, setup.seqLen, setup.completionOnly);
      RowEncoded(row, setup);
      encoded := encoded + [e.value];
    }
    assert encoded == EncodeAll(rows, batchIndices, setup);
    var batch := Collate(encoded, setup.padId).value;
    PaddedBatch(loss, encoded, batch, Width(encoded), setup.padId);
    nll, tokens := SummedNll(loss, batch, Width(encoded), chunk);
  }

  /** The result names neither the chunk nor the micro-batch: it is the plain token-weighted mean. */
  method HeldOutLoss(
    loss: Loss, rows: seq<Row>, evalIndices: seq<nat>, setup: Setup,
    microBatch: nat, chunk: nat, limit: Option<nat>)
    returns (r: Result<EvalResult, EvalError>)
    requires microBatch >= 1 && chunk >= 1
    requires forall i :: 0 <= i < |evalIndices| ==> evalIndices[i] < |rows|
    ensures setup.seqLen >= 1 ==>
      var examples := EncodeAll(rows, Chosen(evalIndices, limit), setup);
      && (r.Ok? <==> TotalTokens(examples) > 0)
      && (r.Err? ==> r.error == NoSupervisedTokens)
      && (r.Ok? ==> r.value.tokens == TotalTokens(examples) && r.value.examples == |examples|
                    && r.value.loss * TotalTokens(examples) as real == TotalNll(loss, examples))
    ensures setup.seqLen < 1 ==> r == Err(if Chosen(evalIndices, limit) == [] then NoSupervisedTokens else BadSeqLen)
  {
    hide TotalNll, TotalTokens, Encode, EncodeRow;
    var indices := Chosen(evalIndices, limit);
    if setup.seqLen < 1 {
      return Err(if indices == [] then NoSupervisedTokens else BadSeqLen);
    }
    ghost var examples := EncodeAll(rows, indices, setup);
    var totalNll, totalTokens, start := 0.0, 0, 0;
    assert examples[..start] == [];
    TotalsOfNone(loss);
    while start < |indices|
      invariant 0 <= start <= |indices| && Aligned(examples[..start])
      invariant totalNll == TotalNll(loss, examples[..start])
      invariant totalTokens == TotalTokens(examples[..start])
    {
      var stop := if start + microBatch < |indices| then start + microBatch else |indices|;
      var nll, tokens := ScoreBatch(loss, rows, indices[start..stop], setup, chunk);
      assert EncodeAll(rows, indices[start..stop], setup) == examples[start..stop];
      assert examples[..stop] == examples[..start] + examples[start..stop];
      TotalsSplit(loss, examples[..start], examples[start..stop]);
      totalNll, totalTokens, start := totalNll + nll, totalTokens + tokens, stop;
    }
    assert examples[..start] == examples;
    if totalTokens == 0 { return Err(NoSupervisedTokens); }
    return Ok(EvalResult(totalNll / totalTokens as real, totalTokens, |indices|));
  }

  // ---- which predictions are scored -----------------------------------------

  /** Positions of an example in ascending order: exactly those from the second on that carry a label. */
  ghost predicate Labelled(e: Encoded, js: seq<nat>) {
    && (forall i, k :: 0 <= i < k < |js| ==> js[i] < js[k])
    && (forall j :: j in js <==> 1 <= j < |e.labels| && e.labels[j] != IGNORE_INDEX)
  }

  /** Positions of the ids and labels of an example. */
  ghost predicate Within(e: Encoded, js: seq<nat>) {
    |e.labels| == |e.inputIds| && forall i :: 0 <= i < |js| ==> js[i] < |e.labels|
  }

  /** The losses of the labels at these positions, each given every id before it. */
  ghost function LossesAt(loss: Loss, e: Encoded, js: seq<nat>): seq<real>
    requires Within(e, js)
  {
    seq(|js|, i requires 0 <= i < |js| => loss(e.inputIds[..js[i]], e.labels[js[i]]))
  }

  ghost predicate LabelledUpto(e: Encoded, js: seq<nat>, hi: nat) {
    && (forall i, k :: 0 <= i < k < |js| ==> js[i] < js[k])
    && (forall j :: j in js <==> 1 <= j <= hi && j < |e.labels| && e.labels[j] != IGNORE_INDEX)
  }

  lemma OneMoreLabel(e: Encoded, js: seq<nat>, hi: nat)
    requires |e.labels| == |e.inputIds| && 0 < hi < |e.labels| && LabelledUpto(e, js, hi - 1)
    ensures e.labels[hi] != IGNORE_INDEX ==> LabelledUpto(e, js + [hi], hi)
    ensures e.labels[hi] == IGNORE_INDEX ==> LabelledUpto(e, js, hi)
  {
    forall i | 0 <= i < |js| ensures js[i] < hi {
      assert js[i] in js;
    }
  }

  lemma UptoIsWithin(e: Encoded, js: seq<nat>, hi: nat)
    requires |e.labels| == |e.inputIds| && LabelledUpto(e, js, hi)
    ensures Within(e, js)
  {
    forall i | 0 <= i < |js| ensures js[i] < |e.labels| {
      assert js[i] in js;
    }
  }

  lemma OneMoreLoss(loss: Loss, e: Encoded, js: seq<nat>, hi: nat)
    requires Within(e, js) && hi < |e.labels|
    ensures Within(e, js + [hi])
    ensures RealSeqs.Sum(LossesAt(loss, e, js + [hi])) == RealSeqs.Sum(LossesAt(loss, e, js)) + loss(e.inputIds[..hi], e.labels[hi])
  {
    hide RealSeqs.Sum;
    assert LossesAt(loss, e, js + [hi]) == LossesAt(loss, e, js) + [loss(e.inputIds[..hi], e.labels[hi])];
    RealSeqs.SumAppend(LossesAt(loss, e, js), [loss(e.inputIds[..hi], e.labels[hi])]);
    SumOfOne(loss(e.inputIds[..hi], e.labels[hi]));
  }

  lemma SumOfOne(x: real)
    ensures RealSeqs.Sum([x]) == x
  {
  }

  lemma {:induction false} RowScores(loss: Loss, e: Encoded, hi: nat) returns (js: seq<nat>)
    requires |e.labels| == |e.inputIds| && (hi > 0 ==> hi < |e.labels|)
    ensures LabelledUpto(e, js, hi) && Within(e, js)
    ensures RowNll(loss, e, 0, hi) == RealSeqs.Sum(LossesAt(loss, e, js)) && RowTokens(e, 0, hi) == |js|
  {
    hide LabelledUpto, LossesAt;
    if hi == 0 {
      js := [];
      NoLabels(loss, e);
    } else {
      js := RowScores(loss, e, hi - 1);
      OneMoreLabel(e, js, hi);
      if e.labels[hi] != IGNORE_INDEX {
        OneMoreLoss(loss, e, js, hi);
        js := js + [hi];
      }
      UptoIsWithin(e, js, hi);
    }
  }

  lemma NoLabels(loss: Loss, e: Encoded)
    requires |e.labels| == |e.inputIds|
    ensures LabelledUpto(e, [], 0) && RealSeqs.Sum(LossesAt(loss, e, [])) == 0.0
  {
  }

  /** What an example adds to the total: the loss of each of its labels but a first one, given all the
      ids before it, and one token each. */
  lemma ExampleScoresItsLabels(loss: Loss, e: Encoded) returns (js: seq<nat>)
    requires |e.labels| == |e.inputIds|
    ensures Labelled(e, js) && Within(e, js)
    ensures TotalNll(loss, [e]) == RealSeqs.Sum(LossesAt(loss, e, js)) && TotalTokens([e]) == |js|
  {
    js := RowScores(loss, e, Last(e));
    assert [e][..0] == [];
  }

  /** A limit takes the first so many held-out rows; none, zero, or one past their number takes all. */
  lemma LimitTakesTheFirst(indices: seq<nat>, limit: Option<nat>)
    ensures Chosen(indices, limit) <= indices
    ensures limit.None? || limit.value == 0 || limit.value >= |indices| ==> Chosen(indices, limit) == indices
    ensures limit.Some? && 0 < limit.value <= |indices| ==> |Chosen(indices, limit)| == limit.value
  {
  }
}
