/** Turning a prompt and a completion into input ids and labels, and padding a micro-batch. */
module Encoding {
  import opened Wrappers

  /** The label that cross-entropy skips. */
  const IGNORE_INDEX := -100

  datatype EncodingError = SeqLenTooSmall | EmptyMicroBatch

  datatype Encoded = Encoded(inputIds: seq<int>, labels: seq<int>)

  datatype SpecialTokens = SpecialTokens(bos: Option<int>, eos: Option<int>)

  function Repeat(x: int, n: nat): (r: seq<int>)
    ensures |r| == n && forall i :: 0 <= i < n ==> r[i] == x
  {
    seq(n, _ => x)
  }

  function Prefix(s: SpecialTokens): (r: seq<int>)
    ensures |r| <= 1
  {
    if s.bos.Some? && s.bos != s.eos then [s.bos.value] else []
  }

  function Completed(completion: seq<int>, s: SpecialTokens): seq<int> {
    completion + if s.eos.Some? then [s.eos.value] else []
  }

  method EncodeExample(prompt: seq<int>, completion: seq<int>, s: SpecialTokens, seqLen: int, completionOnly: bool)
    returns (r: Result<Encoded, EncodingError>)
    ensures r == Encode(prompt, completion, s, seqLen, completionOnly)
  {
    if seqLen < 1 { return Err(SeqLenTooSmall); }
    var promptIds, completionIds := prompt, completion;
    if s.eos.Some? {
      completionIds := completionIds + [s.eos.value];
    }
    assert completionIds == Completed(completion, s);
    var prefix := if s.bos.Some? && s.bos != s.eos then [s.bos.value] else [];
    if |completionIds| >= seqLen {
      completionIds := completionIds[..seqLen];
      prefix, promptIds := [], [];
    } else {
      var room := seqLen - |completionIds| - |prefix|;
      if room < |promptIds| {
        promptIds := if room > 0 then promptIds[|promptIds| - room..] else [];
      }
    }
    var inputIds := prefix + promptIds + completionIds;
    var labels;
    if completionOnly {
      labels := Repeat(IGNORE_INDEX, |inputIds| - |completionIds|) + completionIds;
    } else {
      labels := inputIds;
    }
    return Ok(Encoded(inputIds, labels));
  }

  /** The part of the completion that survives: its first seqLen tokens. */
  function Supervised(completion: seq<int>, s: SpecialTokens, seqLen: int): (r: seq<int>)
    requires seqLen >= 1
    ensures |r| <= seqLen
  {
    var c := Completed(completion, s);
    if |c| >= seqLen then c[..seqLen] else c
  }

  /** What precedes it: the start token and the last tokens of the prompt that still fit. */
  function Lead(prompt: seq<int>, completion: seq<int>, s: SpecialTokens, seqLen: int): (r: seq<int>)
    requires seqLen >= 1
    ensures |r| + |Supervised(completion, s, seqLen)| <= seqLen
  {
    var c := Completed(completion, s);
    if |c| >= seqLen then []
    else
      var room := seqLen - |c| - |Prefix(s)|;
      Prefix(s) + if room < |prompt| then prompt[|prompt| - room..] else prompt
  }

  function Encode(prompt: seq<int>, completion: seq<int>, s: SpecialTokens, seqLen: int, completionOnly: bool)
    : (r: Result<Encoded, EncodingError>)
    ensures r.Ok? <==> seqLen >= 1
    ensures r.Ok? ==> |r.value.labels| == |r.value.inputIds|
  {
    if seqLen < 1 then Err(SeqLenTooSmall)
    else
      var lead, kept := Lead(prompt, completion, s, seqLen), Supervised(completion, s, seqLen);
      Ok(Encoded(lead + kept, (if completionOnly then Repeat(IGNORE_INDEX, |lead|) else lead) + kept))
  }

  /** Token ids are never the ignored label. */
  ghost predicate Tokens(xs: seq<int>) {
    forall i :: 0 <= i < |xs| ==> xs[i] >= 0
  }

  ghost predicate TokensOf(s: SpecialTokens) {
    (s.bos.Some? ==> s.bos.value >= 0) && (s.eos.Some? ==> s.eos.value >= 0)
  }

  function SupervisedCount(labels: seq<int>): nat {
    if labels == [] then 0
    else SupervisedCount(labels[..|labels| - 1]) + if labels[|labels| - 1] != IGNORE_INDEX then 1 else 0
  }

  lemma {:induction false} CountTokens(xs: seq<int>)
    requires Tokens(xs)
    ensures SupervisedCount(xs) == |xs|
  {
    if xs != [] {
      CountTokens(xs[..|xs| - 1]);
    }
  }

  lemma {:induction false} CountIgnoredThenTokens(n: nat, xs: seq<int>)
    requires Tokens(xs)
    ensures SupervisedCount(Repeat(IGNORE_INDEX, n) + xs) == |xs|
  {
    var ys := Repeat(IGNORE_INDEX, n) + xs;
    if xs != [] {
      assert ys[..|ys| - 1] == Repeat(IGNORE_INDEX, n) + xs[..|xs| - 1];
      CountIgnoredThenTokens(n, xs[..|xs| - 1]);
    } else if n > 0 {
      assert ys[..|ys| - 1] == Repeat(IGNORE_INDEX, n - 1) + [];
      CountIgnoredThenTokens(n - 1, []);
    }
  }

  lemma Ends(xs: seq<int>, ys: seq<int>)
    ensures (xs + ys)[..|xs + ys| - |ys|] == xs && (xs + ys)[|xs + ys| - |ys|..] == ys
  {
  }

  /** An encoded example fits, and is supervised on exactly the tokens of its completion: all
      of them, or the first seqLen when the completion alone overflows. */
  lemma {:induction false} EncodingKeepsCompletion(prompt: seq<int>, completion: seq<int>, s: SpecialTokens, seqLen: int)
    requires seqLen >= 1 && Tokens(prompt) && Tokens(completion) && TokensOf(s)
    ensures var e := Encode(prompt, completion, s, seqLen, true).value;
      var full := Completed(completion, s);
      var n := SupervisedCount(e.labels);
      && n == (if |full| < seqLen then |full| else seqLen) <= |e.inputIds| <= seqLen
      && e.inputIds[|e.inputIds| - n..] == full[..n] == e.labels[|e.labels| - n..]
      && e.labels[..|e.labels| - n] == Repeat(IGNORE_INDEX, |e.labels| - n)
  {
    var e := Encode(prompt, completion, s, seqLen, true).value;
    var lead, kept := Lead(prompt, completion, s, seqLen), Supervised(completion, s, seqLen);
    assert Tokens(kept);
    CountIgnoredThenTokens(|lead|, kept);
    Ends(lead, kept);
    Ends(Repeat(IGNORE_INDEX, |lead|), kept);
    hide Repeat, Lead;
  }

  /** Nothing is cut when everything fits; otherwise, while the completion fits, the example is
      full and what is missing is the start of the prompt. */
  lemma EncodingCutsPromptLeft(prompt: seq<int>, completion: seq<int>, s: SpecialTokens, seqLen: int, only: bool)
    requires seqLen >= 1 && |Completed(completion, s)| < seqLen
    ensures var ids := Encode(prompt, completion, s, seqLen, only).value.inputIds;
      var whole := Prefix(s) + prompt + Completed(completion, s);
      var cut := |whole| - seqLen;
      ids == if cut <= 0 then whole else Prefix(s) + prompt[cut..] + Completed(completion, s)
  {
    var full := Completed(completion, s);
    var cut := |Prefix(s)| + |prompt| + |full| - seqLen;
    if cut > 0 {
      assert seqLen - |full| - |Prefix(s)| == |prompt| - cut;
    }
  }

  // ---- collation ----------------------------------------------------------

  function Width(examples: seq<Encoded>): (w: nat)
    ensures forall i :: 0 <= i < |examples| ==> |examples[i].inputIds| <= w
  {
    if examples == [] then 0
    else
      var rest := Width(examples[..|examples| - 1]);
      var last := |examples[|examples| - 1].inputIds|;
      if rest < last then last else rest
  }

  ghost predicate Aligned(examples: seq<Encoded>) {
    forall i :: 0 <= i < |examples| ==> |examples[i].labels| == |examples[i].inputIds|
  }

  function Pad(e: Encoded, width: nat, padId: int): Encoded
    requires |e.labels| == |e.inputIds| <= width
  {
    Encoded(e.inputIds + Repeat(padId, width - |e.inputIds|),
            e.labels + Repeat(IGNORE_INDEX, width - |e.labels|))
  }

  function Collate(examples: seq<Encoded>, padId: int): (r: Result<seq<Encoded>, EncodingError>)
    requires Aligned(examples)
    ensures r.Ok? <==> examples != []
    ensures r.Ok? ==> |r.value| == |examples|
    ensures r.Ok? ==> forall i :: 0 <= i < |examples| ==> |r.value[i].labels| == |r.value[i].inputIds| == Width(examples)
  {
    if examples == [] then Err(EmptyMicroBatch)
    else Ok(seq(|examples|, i requires 0 <= i < |examples| => Pad(examples[i], Width(examples), padId)))
  }

  lemma EndTokenStands(completion: seq<int>, s: SpecialTokens, seqLen: int)
    requires seqLen >= 1 && s.eos.Some? && |completion| < seqLen
    ensures var kept := Supervised(completion, s, seqLen); kept != [] && kept[|kept| - 1] == s.eos.value
  {
    assert Completed(completion, s) == completion + [s.eos.value];
  }

  lemma StartTokenStands(prompt: seq<int>, completion: seq<int>, s: SpecialTokens, seqLen: int)
    requires seqLen >= 1 && s.bos.Some? && s.bos != s.eos && |completion| + (if s.eos.Some? then 1 else 0) < seqLen
    ensures var lead := Lead(prompt, completion, s, seqLen); lead != [] && lead[0] == s.bos.value
  {
  }

  lemma NothingAdded(prompt: seq<int>, completion: seq<int>, s: SpecialTokens, seqLen: int)
    requires seqLen >= 1 && s.bos.None? && s.eos.None? && |prompt| + |completion| <= seqLen
    ensures Lead(prompt, completion, s, seqLen) + Supervised(completion, s, seqLen) == prompt + completion
  {
    assert Completed(completion, s) == completion;
    if |completion| == seqLen { assert prompt == [] && completion[..seqLen] == completion; }
  }

  /** The start token leads and the end token closes the example, whenever the tokenizer has them and the
      completion leaves them room; without either, what fits is the prompt and the completion as they are. */
  lemma SpecialTokensStand(prompt: seq<int>, completion: seq<int>, s: SpecialTokens, seqLen: int, only: bool)
    requires seqLen >= 1
    ensures var ids := Encode(prompt, completion, s, seqLen, only).value.inputIds;
      && (s.eos.Some? && |completion| < seqLen ==> ids != [] && ids[|ids| - 1] == s.eos.value)
      && (s.bos.Some? && s.bos != s.eos && |completion| + (if s.eos.Some? then 1 else 0) < seqLen ==> ids != [] && ids[0] == s.bos.value)
      && (s.bos.None? && s.eos.None? && |prompt| + |completion| <= seqLen ==> ids == prompt + completion)
  {
    hide Lead, Supervised, Repeat;
    if s.eos.Some? && |completion| < seqLen { EndTokenStands(completion, s, seqLen); }
    if s.bos.Some? && s.bos != s.eos && |completion| + (if s.eos.Some? then 1 else 0) < seqLen {
      StartTokenStands(prompt, completion, s, seqLen);
    }
    if s.bos.None? && s.eos.None? && |prompt| + |completion| <= seqLen { NothingAdded(prompt, completion, s, seqLen); }
  }

  /** Masking the prompt changes the labels alone; without it every token is its own label. */
  lemma MaskingChangesLabelsOnly(prompt: seq<int>, completion: seq<int>, s: SpecialTokens, seqLen: int)
    requires seqLen >= 1
    ensures var masked, plain := Encode(prompt, completion, s, seqLen, true).value, Encode(prompt, completion, s, seqLen, false).value;
      && masked.inputIds == plain.inputIds == plain.labels
      && forall j :: 0 <= j < |masked.labels| ==> masked.labels[j] == plain.labels[j] || masked.labels[j] == IGNORE_INDEX
  {
  }

  lemma {:induction false} WidthIsReached(examples: seq<Encoded>)
    requires examples != []
    ensures exists i :: 0 <= i < |examples| && |examples[i].inputIds| == Width(examples)
  {
    var n := |examples| - 1;
    var rest := examples[..n];
    if Width(rest) < |examples[n].inputIds| || n == 0 {
      assert |examples[n].inputIds| == Width(examples);
    } else {
      WidthIsReached(rest);
      var i :| 0 <= i < |rest| && |rest[i].inputIds| == Width(rest);
      assert |examples[i].inputIds| == Width(examples);
    }
  }

  /** Padding is to the longest example and no further, on the right, and never a label. */
  lemma CollationPadsRight(examples: seq<Encoded>, padId: int)
    requires examples != [] && Aligned(examples)
    ensures var batch := Collate(examples, padId).value;
      && |batch| == |examples| && (exists i :: 0 <= i < |examples| && batch[i] == examples[i])
      && forall i :: 0 <= i < |examples| ==>
           && examples[i].inputIds <= batch[i].inputIds && examples[i].labels <= batch[i].labels
           && (forall j :: |examples[i].inputIds| <= j < |batch[i].inputIds| ==> batch[i].inputIds[j] == padId)
           && (forall j :: |examples[i].labels| <= j < |batch[i].labels| ==> batch[i].labels[j] == IGNORE_INDEX)
  {
    WidthIsReached(examples);
    var i :| 0 <= i < |examples| && |examples[i].inputIds| == Width(examples);
    assert Pad(examples[i], Width(examples), padId) == examples[i];
  }
}
