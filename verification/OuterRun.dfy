/** The outer step over whole runs: every round's influence on the final adapter, and the
    plain-mean mode that the momentum form reduces to. */
module OuterRun {
  import opened Wrappers
  import opened RealSeqs
  import opened Tensors
  import opened Broadcasting
  import opened OuterStep

  ghost predicate HasCell(a: Adapter, name: string, c: nat) {
    name in a && a[name].Dense? && c < |a[name].cells|
  }

  ghost function Cell(a: Adapter, name: string, c: nat): real
    requires HasCell(a, name, c)
  {
    a[name].cells[c]
  }

  ghost predicate AllHave(adapters: seq<Adapter>, name: string, c: nat) {
    forall i :: 0 <= i < |adapters| ==> HasCell(adapters[i], name, c)
  }

  ghost predicate AllFit(adapters: seq<Adapter>, base: Adapter) {
    forall i :: 0 <= i < |adapters| ==> Fits(adapters[i], base)
  }

  ghost predicate InBase(base: Adapter, name: string, c: nat) {
    name in base && c < Volume(base[name].shape)
  }

  lemma FittingHaveCells(adapters: seq<Adapter>, base: Adapter, name: string, c: nat)
    requires AllFit(adapters, base) && InBase(base, name, c)
    ensures AllHave(adapters, name, c)
  {
    forall i | 0 <= i < |adapters| ensures HasCell(adapters[i], name, c) {
      FitsTensor(adapters[i], base, name);
    }
  }

  /** The weighted sum of one cell over the first n workers. */
  ghost function WeightedSum(name: string, c: nat, adapters: seq<Adapter>, weights: seq<Weights>, n: nat): real
    requires n <= |adapters| == |weights| && AllHave(adapters, name, c)
  {
    if n == 0 then 0.0
    else WeightedSum(name, c, adapters, weights, n - 1) + WeightOf(weights[n - 1], name) * Cell(adapters[n - 1], name, c)
  }

  /** The weighted mean of one cell. */
  ghost function MeanCell(name: string, c: nat, adapters: seq<Adapter>, weights: seq<Weights>): real
    requires |adapters| == |weights| && AllHave(adapters, name, c) && WeightSum(weights, name) != 0.0
  {
    WeightedSum(name, c, adapters, weights, |adapters|) / WeightSum(weights, name)
  }

  /** The sum so far is a finite tensor of the base's shape whose cell c is `total`. */
  ghost predicate SumsTo(r: Option<Tensor>, base: Tensor, c: nat, total: real) {
    r.Some? && r.value.Dense? && r.value.shape == base.shape && |r.value.cells| == Volume(base.shape)
    && c < Volume(base.shape) && r.value.cells[c] == total
  }

  lemma AddedCell(acc: Tensor, base: Tensor, c: nat, total: real, wt: real, t: Tensor)
    requires SumsTo(Some(acc), base, c, total) && t.Dense? && t.shape == base.shape && |t.cells| == Volume(base.shape)
    ensures SumsTo(AddScaled(acc, wt, t), base, c, total + wt * t.cells[c])
  {
    hide Volume, Broadcast;
    BroadcastItself(base.shape);
    CellItself(acc, c);
    CellItself(t, c);
    hide CellAt;
  }

  lemma {:induction false} AccumulatedCell(
    base: Adapter, name: string, c: nat, adapters: seq<Adapter>, weights: seq<Weights>, n: nat)
    requires n <= |adapters| == |weights| && InBase(base, name, c) && AllFit(adapters, base)
    ensures AllHave(adapters, name, c)
    ensures SumsTo(Accumulated(base[name].shape, name, adapters, weights, n), base[name], c, WeightedSum(name, c, adapters, weights, n))
  {
    hide AddScaled, Volume, Fits, WeightOf;
    FittingHaveCells(adapters, base, name, c);
    if n == 0 {
      ZerosSum(base[name], c);
    } else {
      AccumulatedCell(base, name, c, adapters, weights, n - 1);
      FitsTensor(adapters[n - 1], base, name);
      var acc := Accumulated(base[name].shape, name, adapters, weights, n - 1).value;
      AddedCell(acc, base[name], c, WeightedSum(name, c, adapters, weights, n - 1), WeightOf(weights[n - 1], name), adapters[n - 1][name]);
      NothingAdded(WeightOf(weights[n - 1], name), Cell(adapters[n - 1], name, c));
    }
  }

  lemma NothingAdded(wt: real, x: real)
    ensures wt == 0.0 ==> wt * x == 0.0
  {
  }

  lemma ZerosSum(base: Tensor, c: nat)
    requires c < Volume(base.shape)
    ensures SumsTo(Some(Zeros(base.shape)), base, c, 0.0)
  {
    hide Volume;
  }

  ghost predicate GoodInputs(base: Adapter, adapters: seq<Adapter>, weights: seq<Weights>, mode: string, momentum: Option<Adapter>) {
    && |adapters| == |weights| && KnownMode(mode) && WellFormedAdapter(base) && Finite(base)
    && (momentum.Some? ==> MomentumFits(momentum.value, base))
    && AllFit(adapters, base)
  }

  /** One combine, one cell: the Nesterov step on the cell's weighted mean. */
  lemma {:induction false} CombinedCell(
    base: Adapter, adapters: seq<Adapter>, weights: seq<Weights>, mode: string, lr: real, beta: real,
    momentum: Option<Adapter>, name: string, c: nat)
    requires GoodInputs(base, adapters, weights, mode, momentum)
    requires InBase(base, name, c) && WeightSum(weights, name) != 0.0
    ensures AllHave(adapters, name, c) && HasCell(base, name, c) && HasCell(StartMomentum(base, beta, momentum), name, c)
    ensures var r := Combined(base, adapters, weights, mode, lr, beta, momentum);
      var mean := MeanCell(name, c, adapters, weights);
      var m := Cell(StartMomentum(base, beta, momentum), name, c);
      && r.Some? && HasCell(r.value.adapter, name, c)
      && Cell(r.value.adapter, name, c) == NextCell(Cell(base, name, c), mean, m, lr, beta)
      && (r.value.momentum.Some? <==> beta != 0.0)
      && (beta != 0.0 ==>
            (HasCell(r.value.momentum.value, name, c)
             && Cell(r.value.momentum.value, name, c) == MomentumCell(Cell(base, name, c), mean, m, beta)))
  {
    AccumulatedCell(base, name, c, adapters, weights, |adapters|);
    ZerosFit(base);
    var m := StartMomentum(base, beta, momentum);
    assert MomentumFits(m, base);
    StepCell(base, adapters, weights, lr, beta, m, name, c);
    CombineCannotFail(base, adapters, weights, mode, lr, beta, momentum);
    hide TensorStep, MeanCell, MomentumCell, NextCell;
  }

  /** Over tensors of one shape a step goes cell by cell. */
  lemma SameShapeStep(base: Tensor, total: Tensor, wSum: real, m: Tensor, lr: real, beta: real, c: nat)
    requires wSum != 0.0 && base.Dense? && total.Dense? && m.Dense? && WellFormed(base) && WellFormed(total) && WellFormed(m)
    requires total.shape == base.shape && m.shape == base.shape && c < Volume(base.shape)
    ensures var r := OuterTensor(base, total, wSum, m, lr, beta);
      && r.Some? && r.value.next.Dense? && r.value.momentum.Dense?
      && |r.value.next.cells| == |r.value.momentum.cells| == Volume(base.shape)
      && r.value.next.cells[c] == NextCell(base.cells[c], total.cells[c] / wSum, m.cells[c], lr, beta)
      && r.value.momentum.cells[c] == MomentumCell(base.cells[c], total.cells[c] / wSum, m.cells[c], beta)
  {
    hide NextCell, MomentumCell, Volume, Broadcast;
    BroadcastItself(base.shape);
    CellItself(base, c);
    CellItself(total, c);
    CellItself(m, c);
    hide CellAt;
  }

  lemma StepCell(
    base: Adapter, adapters: seq<Adapter>, weights: seq<Weights>, lr: real, beta: real, m: Adapter, name: string, c: nat)
    requires |adapters| == |weights| && AllFit(adapters, base) && WellFormedAdapter(base) && Finite(base)
    requires MomentumFits(m, base) && InBase(base, name, c) && WeightSum(weights, name) != 0.0
    ensures AllHave(adapters, name, c) && HasCell(base, name, c) && HasCell(m, name, c)
    ensures var r := TensorStep(base[name], name, adapters, weights, lr, beta, m[name]);
      var mean := MeanCell(name, c, adapters, weights);
      && r.Some? && r.value.next.Dense? && r.value.momentum.Dense?
      && c < |r.value.next.cells| && c < |r.value.momentum.cells|
      && r.value.next.cells[c] == NextCell(Cell(base, name, c), mean, Cell(m, name, c), lr, beta)
      && r.value.momentum.cells[c] == MomentumCell(Cell(base, name, c), mean, Cell(m, name, c), beta)
  {
    hide NextCell, MomentumCell, OuterTensor, WeightedSum, Fits, Volume;
    AccumulatedCell(base, name, c, adapters, weights, |adapters|);
    AccumulationSucceeds(base, name, adapters, weights, |adapters|);
    var total := Accumulated(base[name].shape, name, adapters, weights, |adapters|).value;
    SameShapeStep(base[name], total, WeightSum(weights, name), m[name], lr, beta, c);
  }

  // ---- powers and their sums -------------------------------------------------

  function Pow(b: real, n: nat): real {
    if n == 0 then 1.0 else b * Pow(b, n - 1)
  }

  /** 1 + b + ... + b^n. */
  function Geometric(b: real, n: nat): real {
    if n == 0 then 1.0 else Geometric(b, n - 1) + Pow(b, n)
  }

  /** Gradient i of K counts 1 + b + ... + b^(K - i) times. */
  function Influence(gs: seq<real>, b: real, K: nat): real
    requires |gs| <= K
  {
    if gs == [] then 0.0
    else Influence(gs[..|gs| - 1], b, K) + Geometric(b, K - (|gs| - 1)) * gs[|gs| - 1]
  }

  /** Gradient i counts b^(e - i) times: what the momentum holds after gradient e. */
  function Decayed(gs: seq<real>, b: real, e: int): real
    requires |gs| <= e + 1
  {
    if gs == [] then 0.0
    else Decayed(gs[..|gs| - 1], b, e) + Pow(b, e - (|gs| - 1)) * gs[|gs| - 1]
  }

  lemma OneMorePower(b: real, n: nat, g: real)
    ensures Geometric(b, n + 1) * g == Geometric(b, n) * g + Pow(b, n + 1) * g
  {
  }

  lemma {:induction false} InfluenceShifts(gs: seq<real>, b: real, K: nat)
    requires |gs| <= K
    ensures Influence(gs, b, K + 1) == Influence(gs, b, K) + Decayed(gs, b, K + 1)
  {
    hide Geometric, Pow;
    if gs != [] {
      InfluenceShifts(gs[..|gs| - 1], b, K);
      var n := K - (|gs| - 1);
      OneMorePower(b, n, gs[|gs| - 1]);
    }
  }

  lemma {:induction false} DecayedShifts(gs: seq<real>, b: real, e: int)
    requires |gs| <= e + 1
    ensures Decayed(gs, b, e + 1) == b * Decayed(gs, b, e)
  {
    if gs != [] {
      var rest, g, n := gs[..|gs| - 1], gs[|gs| - 1], e - (|gs| - 1);
      DecayedShifts(rest, b, e);
      assert Pow(b, n + 1) == b * Pow(b, n);
      assert Pow(b, n + 1) * g == b * (Pow(b, n) * g);
      assert b * (Decayed(rest, b, e) + Pow(b, n) * g) == b * Decayed(rest, b, e) + b * (Pow(b, n) * g);
    }
  }

  /** Where a step of size lr along `total` leads from `start`. */
  function Moved(start: real, lr: real, total: real): real {
    start - lr * total
  }

  /** What of the momentum m a step sees. */
  function Carried(b: real, m: real): real {
    b * m
  }

  /** What one more gradient adds to the whole sum. */
  function Push(g: real, b: real, m: real): real {
    g + b * (b * m + g)
  }

  lemma Expanded(b: real, m: real, g: real)
    ensures Push(g, b, m) == b * (b * m) + (1.0 + b) * g
    ensures Carried(b, b * m + g) == b * (b * m) + b * g
  {
  }

  /** One more gradient: the whole sum moves as the Nesterov step does. */
  lemma InfluenceGrows(gs: seq<real>, g: real, b: real, m: real)
    requires Carried(b, m) == Carried(b, Decayed(gs, b, |gs| - 1))
    ensures Influence(gs + [g], b, |gs| + 1) == Influence(gs, b, |gs|) + Push(g, b, m)
  {
    hide Decayed, Influence, Carried, Push;
    var K := |gs|;
    DecayedTwice(gs, b, m);
    LastInfluence(gs, g, b);
    InfluenceShifts(gs, b, K);
    Expanded(b, m, g);
  }

  lemma DecayedTwice(gs: seq<real>, b: real, m: real)
    requires Carried(b, m) == Carried(b, Decayed(gs, b, |gs| - 1))
    ensures Decayed(gs, b, |gs| + 1) == b * (b * m)
  {
    hide Decayed;
    DecayedShifts(gs, b, |gs|);
    DecayedShifts(gs, b, |gs| - 1);
  }

  lemma LastInfluence(gs: seq<real>, g: real, b: real)
    ensures Influence(gs + [g], b, |gs| + 1) == Influence(gs, b, |gs| + 1) + (1.0 + b) * g
  {
    assert (gs + [g])[..|gs|] == gs;
    assert Geometric(b, 1) == 1.0 + b by {
      assert Pow(b, 1) == b * Pow(b, 0);
    }
  }

  lemma DecayGrows(gs: seq<real>, g: real, b: real, m: real)
    requires Carried(b, m) == Carried(b, Decayed(gs, b, |gs| - 1))
    ensures Carried(b, b * m + g) == Carried(b, Decayed(gs + [g], b, |gs|))
  {
    hide Decayed, Pow;
    LastDecayed(gs, g, b);
    DecayedShifts(gs, b, |gs| - 1);
  }

  lemma LastDecayed(gs: seq<real>, g: real, b: real)
    ensures Decayed(gs + [g], b, |gs|) == Decayed(gs, b, |gs|) + g
  {
    assert (gs + [g])[..|gs|] == gs;
    assert Pow(b, 0) * g == g;
  }

  // ---- runs --------------------------------------------------------------------

  datatype Work = Work(adapters: seq<Adapter>, weights: seq<Weights>)

  datatype Outer = Outer(mode: string, lr: real, beta: real)

  /** The base and momentum after the given rounds, each combine starting from the last. */
  ghost function RunRounds(seed: Adapter, rounds: seq<Work>, o: Outer): Option<Outcome>
    requires Paired(rounds)
  {
    if rounds == [] then Some(Outcome(seed, None))
    else
      var n := |rounds| - 1;
      match RunRounds(seed, rounds[..n], o)
      case None => None
      case Some(before) =>
        Combined(before.adapter, rounds[n].adapters, rounds[n].weights, o.mode, o.lr, o.beta, before.momentum)
  }

  /** Every round's adapters fit the seed, and every round trained the tensor. */
  ghost predicate GoodRounds(seed: Adapter, rounds: seq<Work>, name: string) {
    Paired(rounds) && forall i :: 0 <= i < |rounds| ==>
      AllFit(rounds[i].adapters, seed) && WeightSum(rounds[i].weights, name) != 0.0
  }

  lemma FitsFollowsManifest(adapters: seq<Adapter>, seed: Adapter, base: Adapter)
    requires AllFit(adapters, seed) && ManifestOf(base) == ManifestOf(seed)
    ensures AllFit(adapters, base)
  {
    assert forall i :: 0 <= i < |adapters| && Fits(adapters[i], seed) ==> Fits(adapters[i], base);
  }

  lemma InBaseFollowsManifest(seed: Adapter, base: Adapter, name: string, c: nat)
    requires InBase(seed, name, c) && ManifestOf(base) == ManifestOf(seed)
    ensures InBase(base, name, c)
  {
    assert name in ManifestOf(seed);
    assert name in ManifestOf(base);
    assert ManifestOf(base)[name].shape == ManifestOf(seed)[name].shape;
  }

  lemma {:induction false} RunSucceeds(seed: Adapter, rounds: seq<Work>, o: Outer, name: string)
    requires WellFormedAdapter(seed) && Finite(seed) && KnownMode(o.mode) && GoodRounds(seed, rounds, name)
    ensures var r := RunRounds(seed, rounds, o);
      r.Some? && Fits(r.value.adapter, seed)
      && (r.value.momentum.Some? ==> MomentumFits(r.value.momentum.value, r.value.adapter))
  {
    if rounds != [] {
      var n := |rounds| - 1;
      RunSucceeds(seed, rounds[..n], o, name);
      var before := RunRounds(seed, rounds[..n], o).value;
      FitsFollowsManifest(rounds[n].adapters, seed, before.adapter);
      CombineCannotFail(before.adapter, rounds[n].adapters, rounds[n].weights, o.mode, o.lr, o.beta, before.momentum);
    }
  }

  ghost predicate Paired(rounds: seq<Work>) {
    forall i :: 0 <= i < |rounds| ==> |rounds[i].adapters| == |rounds[i].weights|
  }

  /** The outer gradient of the last round at one cell: its base minus its weighted mean. */
  ghost function LastGradient(seed: Adapter, rounds: seq<Work>, o: Outer, name: string, c: nat): real
    requires rounds != [] && Paired(rounds)
  {
    var w, before := rounds[|rounds| - 1], RunRounds(seed, rounds[..|rounds| - 1], o);
    if before.Some? && HasCell(before.value.adapter, name, c) && AllHave(w.adapters, name, c) && WeightSum(w.weights, name) != 0.0
    then Cell(before.value.adapter, name, c) - MeanCell(name, c, w.adapters, w.weights)
    else 0.0
  }

  ghost function Gradients(seed: Adapter, rounds: seq<Work>, o: Outer, name: string, c: nat): (gs: seq<real>)
    requires Paired(rounds)
    ensures |gs| == |rounds|
  {
    if rounds == [] then []
    else Gradients(seed, rounds[..|rounds| - 1], o, name, c) + [LastGradient(seed, rounds, o, name, c)]
  }

  ghost predicate Tracked(seed: Adapter, rounds: seq<Work>, o: Outer, name: string) {
    WellFormedAdapter(seed) && Finite(seed) && KnownMode(o.mode) && GoodRounds(seed, rounds, name)
  }

  /** After K rounds, A_K = A_0 - lr * sum of (1 + beta + ... + beta^(K - i)) times gradient i. */
  ghost predicate Unrolled(seed: Adapter, rounds: seq<Work>, o: Outer, name: string, c: nat)
    requires Tracked(seed, rounds, o, name) && InBase(seed, name, c)
  {
    var r := RunRounds(seed, rounds, o);
    && r.Some? && HasCell(seed, name, c) && HasCell(r.value.adapter, name, c)
    && Cell(r.value.adapter, name, c)
       == Moved(Cell(seed, name, c), o.lr, Influence(Gradients(seed, rounds, o, name, c), o.beta, |rounds|))
  }

  /** The momentum, wherever it counts, is the decayed sum of the gradients. */
  ghost predicate MomentumTracked(seed: Adapter, rounds: seq<Work>, o: Outer, name: string, c: nat)
    requires Tracked(seed, rounds, o, name) && InBase(seed, name, c)
  {
    var r := RunRounds(seed, rounds, o);
    && r.Some? && HasCell(StartMomentum(r.value.adapter, o.beta, r.value.momentum), name, c)
    && Carried(o.beta, Cell(StartMomentum(r.value.adapter, o.beta, r.value.momentum), name, c))
       == Carried(o.beta, Decayed(Gradients(seed, rounds, o, name, c), o.beta, |rounds| - 1))
  }

  lemma {:induction false} RunUnrolls(seed: Adapter, rounds: seq<Work>, o: Outer, name: string, c: nat)
    requires Tracked(seed, rounds, o, name) && InBase(seed, name, c)
    ensures Unrolled(seed, rounds, o, name, c) && MomentumTracked(seed, rounds, o, name, c)
  {
    if rounds == [] {
      FittingHaveCells([seed], seed, name, c);
      assert HasCell([seed][0], name, c);
      ZerosHaveCell(seed, name, c);
    } else {
      var n := |rounds| - 1;
      RunUnrolls(seed, rounds[..n], o, name, c);
      OneMoreRound(seed, rounds, o, name, c);
    }
  }

  lemma OneMoreRound(seed: Adapter, rounds: seq<Work>, o: Outer, name: string, c: nat)
    requires rounds != [] && Tracked(seed, rounds, o, name) && InBase(seed, name, c)
    requires Unrolled(seed, rounds[..|rounds| - 1], o, name, c)
    requires MomentumTracked(seed, rounds[..|rounds| - 1], o, name, c)
    ensures Unrolled(seed, rounds, o, name, c) && MomentumTracked(seed, rounds, o, name, c)
  {
    hide RunRounds, Combined, StartMomentum, Tracked, InBase, MeanCell, Influence, Decayed, NextCell, MomentumCell,
      Gradients, LastGradient, WeightSum, Cell, HasCell, AllHave, Moved, Carried, Paired;
    TrackedIsPaired(seed, rounds, o, name);
    var n := |rounds| - 1;
    var w := rounds[n];
    var before := RunRounds(seed, rounds[..n], o).value;
    LastRound(seed, rounds, o, name, c, before);
    GradientsGrow(seed, rounds, o, name, c);
    var a, mean := Cell(before.adapter, name, c), MeanCell(name, c, w.adapters, w.weights);
    var m := Cell(StartMomentum(before.adapter, o.beta, before.momentum), name, c);
    var gs := Gradients(seed, rounds[..n], o, name, c);
    NextOfSums(gs, Cell(seed, name, c), a, mean, m, o.lr, o.beta);
    MomentumOfSums(gs, a, mean, m, o.beta);
  }

  lemma TrackedIsPaired(seed: Adapter, rounds: seq<Work>, o: Outer, name: string)
    requires rounds != [] && Tracked(seed, rounds, o, name)
    ensures Paired(rounds) && Paired(rounds[..|rounds| - 1])
  {
  }

  lemma GradientsGrow(seed: Adapter, rounds: seq<Work>, o: Outer, name: string, c: nat)
    requires rounds != [] && Paired(rounds)
    ensures Gradients(seed, rounds, o, name, c)
         == Gradients(seed, rounds[..|rounds| - 1], o, name, c) + [LastGradient(seed, rounds, o, name, c)]
  {
    hide LastGradient;
  }

  /** If a and m are the sums after n rounds, one step makes them the sums after n + 1. */
  lemma NextOfSums(gs: seq<real>, a0: real, a: real, mean: real, m: real, lr: real, beta: real)
    requires a == Moved(a0, lr, Influence(gs, beta, |gs|))
    requires Carried(beta, m) == Carried(beta, Decayed(gs, beta, |gs| - 1))
    ensures NextCell(a, mean, m, lr, beta) == Moved(a0, lr, Influence(gs + [a - mean], beta, |gs| + 1))
  {
    hide Influence, Decayed, NextCell, Moved, Carried, Push;
    InfluenceGrows(gs, a - mean, beta, m);
    StepSums(a0, a, mean, m, lr, beta, Influence(gs, beta, |gs|));
  }

  lemma MomentumOfSums(gs: seq<real>, a: real, mean: real, m: real, beta: real)
    requires Carried(beta, m) == Carried(beta, Decayed(gs, beta, |gs| - 1))
    ensures Carried(beta, MomentumCell(a, mean, m, beta)) == Carried(beta, Decayed(gs + [a - mean], beta, |gs|))
  {
    hide Influence, Decayed, Carried;
    DecayGrows(gs, a - mean, beta, m);
  }

  /** The last round of a run, at one cell: its gradient and the step it takes. */
  lemma LastRound(seed: Adapter, rounds: seq<Work>, o: Outer, name: string, c: nat, before: Outcome)
    requires rounds != [] && Tracked(seed, rounds, o, name) && InBase(seed, name, c)
    requires RunRounds(seed, rounds[..|rounds| - 1], o) == Some(before)
    ensures var w, r := rounds[|rounds| - 1], RunRounds(seed, rounds, o);
      && HasCell(before.adapter, name, c) && AllHave(w.adapters, name, c) && |w.adapters| == |w.weights|
      && WeightSum(w.weights, name) != 0.0
      && HasCell(StartMomentum(before.adapter, o.beta, before.momentum), name, c)
      && (var a, mean := Cell(before.adapter, name, c), MeanCell(name, c, w.adapters, w.weights);
          var m := Cell(StartMomentum(before.adapter, o.beta, before.momentum), name, c);
          && LastGradient(seed, rounds, o, name, c) == a - mean
          && r.Some? && HasCell(r.value.adapter, name, c)
          && Cell(r.value.adapter, name, c) == NextCell(a, mean, m, o.lr, o.beta)
          && HasCell(StartMomentum(r.value.adapter, o.beta, r.value.momentum), name, c)
          && Carried(o.beta, Cell(StartMomentum(r.value.adapter, o.beta, r.value.momentum), name, c))
             == Carried(o.beta, MomentumCell(a, mean, m, o.beta)))
  {
    var n := |rounds| - 1;
    var w := rounds[n];
    RunSucceeds(seed, rounds[..n], o, name);
    FitsFollowsManifest(w.adapters, seed, before.adapter);
    InBaseFollowsManifest(seed, before.adapter, name, c);
    CombinedCell(before.adapter, w.adapters, w.weights, o.mode, o.lr, o.beta, before.momentum, name, c);
    hide Combined, Fits, MeanCell, NextCell, MomentumCell;
    var a, mean := Cell(before.adapter, name, c), MeanCell(name, c, w.adapters, w.weights);
    var m := Cell(StartMomentum(before.adapter, o.beta, before.momentum), name, c);
    MomentumOfRound(seed, rounds, o, name, c, before, a, mean, m);
  }

  lemma MomentumOfRound(
    seed: Adapter, rounds: seq<Work>, o: Outer, name: string, c: nat, before: Outcome, a: real, mean: real, m: real)
    requires rounds != [] && Tracked(seed, rounds, o, name) && InBase(seed, name, c)
    requires RunRounds(seed, rounds[..|rounds| - 1], o) == Some(before)
    requires RunRounds(seed, rounds, o).Some?
    requires var r := RunRounds(seed, rounds, o).value;
      && (r.momentum.Some? <==> o.beta != 0.0)
      && (o.beta != 0.0 ==> (HasCell(r.momentum.value, name, c) && Cell(r.momentum.value, name, c) == MomentumCell(a, mean, m, o.beta)))
    ensures var r := RunRounds(seed, rounds, o).value;
      && HasCell(StartMomentum(r.adapter, o.beta, r.momentum), name, c)
      && Carried(o.beta, Cell(StartMomentum(r.adapter, o.beta, r.momentum), name, c)) == Carried(o.beta, MomentumCell(a, mean, m, o.beta))
  {
    hide MomentumCell;
    RunSucceeds(seed, rounds, o, name);
    var r := RunRounds(seed, rounds, o).value;
    InBaseFollowsManifest(seed, r.adapter, name, c);
    ZerosHaveCell(r.adapter, name, c);
  }

  lemma ZerosHaveCell(base: Adapter, name: string, c: nat)
    requires InBase(base, name, c)
    ensures HasCell(ZerosLike(base), name, c) && Cell(ZerosLike(base), name, c) == 0.0
  {
  }

  lemma StepSums(a0: real, a: real, mean: real, m: real, lr: real, beta: real, before: real)
    requires a == Moved(a0, lr, before)
    ensures NextCell(a, mean, m, lr, beta) == Moved(a0, lr, before + Push(a - mean, beta, m))
  {
    var delta := Push(a - mean, beta, m);
    assert NextCell(a, mean, m, lr, beta) == a - lr * delta;
    hide Push, NextCell;
    assert lr * (before + delta) == lr * before + lr * delta;
  }

  // ---- how far one round reaches ----------------------------------------------

  function Shrunk(b: real, g: real): real {
    (1.0 - b) * g
  }

  lemma GeometricStep(b: real, g: real, p: real)
    requires Shrunk(b, g) == 1.0 - p
    ensures Shrunk(b, g + p) == 1.0 - b * p
  {
  }

  lemma {:induction false} GeometricClosed(b: real, n: nat)
    ensures Shrunk(b, Geometric(b, n)) == 1.0 - Pow(b, n + 1)
  {
    if n == 0 {
      assert Pow(b, 1) == b * Pow(b, 0);
    } else {
      hide Shrunk;
      GeometricClosed(b, n - 1);
      GeometricStep(b, Geometric(b, n - 1), Pow(b, n));
    }
  }

  lemma {:induction false} PowNonNegative(b: real, n: nat)
    requires b >= 0.0
    ensures Pow(b, n) >= 0.0
  {
    if n > 0 {
      PowNonNegative(b, n - 1);
    }
  }

  lemma {:induction false} GeometricAtLeastOne(b: real, n: nat)
    requires b >= 0.0
    ensures Geometric(b, n) >= 1.0
  {
    if n > 0 {
      GeometricAtLeastOne(b, n - 1);
      PowNonNegative(b, n);
    }
  }

  lemma GeometricBounded(b: real, n: nat)
    requires 0.0 <= b < 1.0
    ensures 1.0 <= Geometric(b, n) <= 1.0 / (1.0 - b)
  {
    hide Geometric, Pow, Shrunk;
    GeometricAtLeastOne(b, n);
    GeometricClosed(b, n);
    PowNonNegative(b, n + 1);
    AtMostReciprocal(b, Geometric(b, n));
  }

  lemma AtMostReciprocal(b: real, g: real)
    requires b < 1.0 && Shrunk(b, g) <= 1.0
    ensures g <= 1.0 / (1.0 - b)
  {
    var d := 1.0 - b;
    var q := 1.0 / d;
    assert d * q == 1.0;
    if g > q {
      assert d * (g - q) > 0.0;
    }
  }

  lemma SplitProduct(k: real, x: real, y: real)
    ensures k * x == k * y + k * (x - y)
  {
  }

  lemma {:induction false} InfluenceOfOne(gs: seq<real>, i: nat, g: real, b: real, K: nat)
    requires i < |gs| <= K
    ensures Influence(gs[i := g], b, K) == Influence(gs, b, K) + Geometric(b, K - i) * (g - gs[i])
  {
    hide Geometric;
    var n := |gs| - 1;
    if i == n {
      assert gs[i := g][..n] == gs[..n];
      SplitProduct(Geometric(b, K - i), g, gs[i]);
    } else {
      assert gs[i := g][..n] == gs[..n][i := g];
      InfluenceOfOne(gs[..n], i, g, b, K);
    }
  }

  /** How much gradient i counts in the adapter after K rounds, step size included. */
  function Reach(lr: real, b: real, K: nat, i: nat): real
    requires i <= K
  {
    lr * Geometric(b, K - i)
  }

  lemma MovedTwice(a0: real, lr: real, total: real, k: real, d: real)
    ensures Moved(a0, lr, total + k * d) == Moved(a0, lr, total) - (lr * k) * d
  {
    assert lr * (total + k * d) == lr * total + lr * (k * d);
    assert lr * (k * d) == (lr * k) * d;
  }

  /** Replacing one round's gradient, all others kept, moves the adapter by that round's reach. */
  lemma {:induction false} OneRoundReaches(a0: real, gs: seq<real>, i: nat, g: real, lr: real, b: real)
    requires i < |gs|
    ensures Moved(a0, lr, Influence(gs[i := g], b, |gs|))
         == Moved(a0, lr, Influence(gs, b, |gs|)) - Reach(lr, b, |gs|, i) * (g - gs[i])
  {
    hide Influence, Geometric, Moved;
    var k, d, total := Geometric(b, |gs| - i), g - gs[i], Influence(gs, b, |gs|);
    InfluenceOfOne(gs, i, g, b, |gs|);
    assert Influence(gs[i := g], b, |gs|) == total + k * d;
    MovedTwice(a0, lr, total, k, d);
  }

  /** With 0 <= beta < 1 no round ever counts more than lr / (1 - beta), nor less than lr. */
  lemma ReachIsBounded(lr: real, b: real, K: nat, i: nat)
    requires i <= K && 0.0 <= b < 1.0 && lr >= 0.0
    ensures lr <= Reach(lr, b, K, i) <= lr * (1.0 / (1.0 - b))
  {
    hide Geometric;
    GeometricBounded(b, K - i);
    ScalingIsMonotone(lr, 1.0, Geometric(b, K - i));
    ScalingIsMonotone(lr, Geometric(b, K - i), 1.0 / (1.0 - b));
  }
}
