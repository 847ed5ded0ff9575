/** A combine done twice: what a second outer step over the same work makes of the momentum the
    first one left. */
module Momentum {
  import opened Wrappers
  import opened RealSeqs
  import opened Tensors
  import opened Broadcasting
  import opened DominanceCap
  import opened OuterStep
  import opened OuterRun
  import opened Contributions

  // ---- one tensor --------------------------------------------------------------------------

  /** Two momentum tensors that an outer step cannot tell apart: they stretch the step to the same
      shape and hold the same cells there, or are both not finite, or something else in the step is
      not. */
  ghost predicate TensorAgrees(base: Tensor, total: Tensor, a: Tensor, b: Tensor) {
    && StepShape(base, total, b) == StepShape(base, total, a)
    && (|| base.NonFinite? || total.NonFinite? || (a.NonFinite? && b.NonFinite?)
        || (a.Dense? && b.Dense? && (StepShape(base, total, a).Some? ==> SameCells(a, b, StepShape(base, total, a).value))))
  }

  ghost predicate SameCells(a: Tensor, b: Tensor, out: Shape)
    requires a.Dense? && b.Dense?
  {
    forall c :: 0 <= c < Volume(out) ==> CellAt(a, out, c) == CellAt(b, out, c)
  }

  lemma SameMomentumCell(base: real, mean: real, a: real, b: real, beta: real)
    requires beta != 0.0
    ensures MomentumCell(base, mean, a, beta) == MomentumCell(base, mean, b, beta) <==> a == b
  {
    if beta * a == beta * b {
      assert beta * (a - b) == 0.0;
      ZeroFactor(beta, a - b);
    }
  }

  lemma ZeroFactor(a: real, b: real)
    requires a != 0.0 && a * b == 0.0
    ensures b == 0.0
  {
  }

  /** Over the same base and total, two momenta step alike exactly when they agree. */
  lemma StepsAlikeExactlyWhen(base: Tensor, total: Tensor, wSum: real, a: Tensor, b: Tensor, lr: real, beta: real)
    requires wSum != 0.0 && beta != 0.0 && OuterTensor(base, total, wSum, a, lr, beta).Some?
    ensures OuterTensor(base, total, wSum, b, lr, beta) == OuterTensor(base, total, wSum, a, lr, beta) <==> TensorAgrees(base, total, a, b)
  {
    hide NextCell, MomentumCell, Volume, CellAt, StepShape;
    var out := StepShape(base, total, a).value;
    if StepShape(base, total, b) == Some(out) && base.Dense? && total.Dense? && a.Dense? && b.Dense? {
      var x, y := OuterTensor(base, total, wSum, a, lr, beta).value, OuterTensor(base, total, wSum, b, lr, beta).value;
      forall c | 0 <= c < Volume(out)
        ensures x.momentum.cells[c] == y.momentum.cells[c] <==> CellAt(a, out, c) == CellAt(b, out, c)
      {
        SameMomentumCell(CellAt(base, out, c), CellAt(total, out, c) / wSum, CellAt(a, out, c), CellAt(b, out, c), beta);
      }
      if x == y {
        assert forall c :: 0 <= c < Volume(out) ==> x.momentum.cells[c] == y.momentum.cells[c];
      }
      if SameCells(a, b, out) { SameStepped(base, total, wSum, a, b, lr, beta, out); }
    }
  }

  lemma SameStepped(base: Tensor, total: Tensor, wSum: real, a: Tensor, b: Tensor, lr: real, beta: real, out: Shape)
    requires wSum != 0.0 && base.Dense? && total.Dense? && a.Dense? && b.Dense? && SameCells(a, b, out)
    requires StepShape(base, total, a) == Some(out) && StepShape(base, total, b) == Some(out)
    ensures OuterTensor(base, total, wSum, b, lr, beta) == OuterTensor(base, total, wSum, a, lr, beta)
  {
    hide NextCell, MomentumCell, Volume, CellAt, StepShape;
    var x, y := OuterTensor(base, total, wSum, a, lr, beta).value, OuterTensor(base, total, wSum, b, lr, beta).value;
    assert x.next.cells == y.next.cells && x.momentum.cells == y.momentum.cells;
  }

  /** Wherever the step is finite, the gradient a cell sees is exactly what its momentum loses to
      decay, so that the momentum stays where it is. */
  ghost predicate TensorAtRest(base: Tensor, total: Tensor, wSum: real, m: Tensor, beta: real)
    requires wSum != 0.0
  {
    base.Dense? && total.Dense? && m.Dense? && StepShape(base, total, m).Some? ==>
      var out := StepShape(base, total, m).value;
      forall c :: 0 <= c < Volume(out) ==>
        CellAt(base, out, c) - CellAt(total, out, c) / wSum == (1.0 - beta) * CellAt(m, out, c)
  }

  lemma RestingCell(base: real, mean: real, m: real, beta: real)
    ensures MomentumCell(base, mean, m, beta) == m <==> base - mean == (1.0 - beta) * m
  {
    assert (1.0 - beta) * m == m - beta * m;
  }

  /** Momentum of the step's own shape stretches the step no further. */
  lemma LeftMomentumShape(base: Tensor, total: Tensor, m: Tensor, left: Tensor)
    requires StepShape(base, total, m).Some? && left.shape == StepShape(base, total, m).value
    ensures StepShape(base, total, left) == StepShape(base, total, m)
  {
    hide Broadcast, Into;
    var g := Broadcast(base.shape, total.shape).value;
    BroadcastCovers(m.shape, g);
    IntoItself(left.shape);
    BroadcastIsLeast(left.shape, g, left.shape);
    BroadcastCovers(left.shape, g);
    IntoIsOrder(Broadcast(left.shape, g).value, left.shape);
  }

  lemma RestsExactlyWhen(base: Tensor, total: Tensor, wSum: real, m: Tensor, lr: real, beta: real)
    requires wSum != 0.0 && OuterTensor(base, total, wSum, m, lr, beta).Some?
    ensures TensorAgrees(base, total, m, OuterTensor(base, total, wSum, m, lr, beta).value.momentum)
       <==> TensorAtRest(base, total, wSum, m, beta)
  {
    hide NextCell, MomentumCell, CellAt, StepShape, Volume;
    var x, out := OuterTensor(base, total, wSum, m, lr, beta).value.momentum, StepShape(base, total, m).value;
    LeftMomentumShape(base, total, m, x);
    if base.Dense? && total.Dense? && m.Dense? {
      forall c | 0 <= c < Volume(out)
        ensures CellAt(m, out, c) == CellAt(x, out, c) <==>
          CellAt(base, out, c) - CellAt(total, out, c) / wSum == (1.0 - beta) * CellAt(m, out, c)
      {
        CellItself(x, c);
        RestingCell(CellAt(base, out, c), CellAt(total, out, c) / wSum, CellAt(m, out, c), beta);
      }
    }
  }

  // ---- every tensor ---------------------------------------------------------------------------

  /** Every tensor of the base was trained by somebody. */
  ghost predicate Trained(base: Adapter, weights: seq<Weights>) {
    forall name :: name in base ==> WeightSum(weights, name) != 0.0
  }

  ghost function Total(base: Adapter, name: string, adapters: seq<Adapter>, weights: seq<Weights>): Option<Tensor>
    requires |adapters| == |weights| && name in base
  {
    Accumulated(base[name].shape, name, adapters, weights, |adapters|)
  }

  /** Two momenta that a combine over this work cannot tell apart. */
  ghost predicate Agree(base: Adapter, adapters: seq<Adapter>, weights: seq<Weights>, a: Adapter, b: Adapter) {
    |adapters| == |weights| && forall name :: name in base && name in a && name in b ==>
      Total(base, name, adapters, weights).Some? ==>
        TensorAgrees(base[name], Total(base, name, adapters, weights).value, a[name], b[name])
  }

  /** No cell of the momentum would be moved by this work. */
  ghost predicate AtRest(base: Adapter, adapters: seq<Adapter>, weights: seq<Weights>, beta: real, m: Adapter) {
    |adapters| == |weights| && forall name :: name in base && name in m ==>
      Total(base, name, adapters, weights).Some? && WeightSum(weights, name) != 0.0 ==>
        TensorAtRest(base[name], Total(base, name, adapters, weights).value, WeightSum(weights, name), m[name], beta)
  }

  lemma TrainedStep(
    base: Adapter, name: string, adapters: seq<Adapter>, weights: seq<Weights>, lr: real, beta: real, m: Tensor)
    requires |adapters| == |weights| && name in base && WeightSum(weights, name) != 0.0
    ensures var total := Total(base, name, adapters, weights);
      TensorStep(base[name], name, adapters, weights, lr, beta, m)
         == (if total.None? then None else OuterTensor(base[name], total.value, WeightSum(weights, name), m, lr, beta))
  {
    hide OuterTensor;
  }

  /** What a combine leaves as momentum has the base's tensors and is well formed. */
  lemma CombinedMomentumLoads(
    base: Adapter, adapters: seq<Adapter>, weights: seq<Weights>, mode: string, lr: real, beta: real, momentum: Option<Adapter>)
    requires |adapters| == |weights| && Trained(base, weights) && beta != 0.0
    requires Combined(base, adapters, weights, mode, lr, beta, momentum).Some?
    ensures var m := Combined(base, adapters, weights, mode, lr, beta, momentum).value.momentum;
      m.Some? && m.value.Keys == base.Keys && WellFormedAdapter(m.value)
  {
    hide OuterTensor, WeightSum, Volume, Into;
    var m := StartMomentum(base, beta, momentum);
    forall name | name in base ensures WellFormed(TensorStep(base[name], name, adapters, weights, lr, beta, m[name]).value.momentum) {
      TensorStepShape(base[name], name, adapters, weights, lr, beta, m[name]);
    }
    hide TensorStep, StartMomentum;
  }

  lemma OneTensorAgain(
    base: Adapter, name: string, adapters: seq<Adapter>, weights: seq<Weights>, lr: real, beta: real, a: Tensor, b: Tensor)
    requires |adapters| == |weights| && name in base && WeightSum(weights, name) != 0.0 && beta != 0.0
    requires TensorStep(base[name], name, adapters, weights, lr, beta, a).Some?
    ensures Total(base, name, adapters, weights).Some?
    ensures TensorStep(base[name], name, adapters, weights, lr, beta, b) == TensorStep(base[name], name, adapters, weights, lr, beta, a)
       <==> TensorAgrees(base[name], Total(base, name, adapters, weights).value, a, b)
  {
    hide OuterTensor, TensorStep, WeightSum, TensorAgrees, Total;
    TrainedStep(base, name, adapters, weights, lr, beta, a);
    TrainedStep(base, name, adapters, weights, lr, beta, b);
    StepsAlikeExactlyWhen(base[name], Total(base, name, adapters, weights).value, WeightSum(weights, name), a, b, lr, beta);
  }

  /** A second combine, from another momentum, ends where the first did exactly when the work
      cannot tell the two momenta apart. */
  lemma CombinedAgainExactlyWhen(
    base: Adapter, adapters: seq<Adapter>, weights: seq<Weights>, mode: string, lr: real, beta: real,
    first: Option<Adapter>, second: Adapter)
    requires |adapters| == |weights| && Trained(base, weights) && beta != 0.0 && second.Keys == base.Keys
    requires Combined(base, adapters, weights, mode, lr, beta, first).Some?
    ensures var again := Combined(base, adapters, weights, mode, lr, beta, Some(second));
      again == Combined(base, adapters, weights, mode, lr, beta, first)
      <==> Agree(base, adapters, weights, StartMomentum(base, beta, first), second)
  {
    hide WeightSum, TensorAgrees, Volume, WellFormed, Total;
    var m := StartMomentum(base, beta, first);
    forall name | name in base
      ensures Total(base, name, adapters, weights).Some?
      ensures TensorStep(base[name], name, adapters, weights, lr, beta, second[name])
           == TensorStep(base[name], name, adapters, weights, lr, beta, m[name])
         <==> TensorAgrees(base[name], Total(base, name, adapters, weights).value, m[name], second[name])
    {
      OneTensorAgain(base, name, adapters, weights, lr, beta, m[name], second[name]);
    }
    assert StartMomentum(base, beta, Some(second)) == second;
    SameCombinedExactlyWhen(base, adapters, weights, mode, lr, beta, first, Some(second));
    hide TensorStep, StartMomentum;
  }

  lemma SameCombinedExactlyWhen(
    base: Adapter, adapters: seq<Adapter>, weights: seq<Weights>, mode: string, lr: real, beta: real,
    a: Option<Adapter>, b: Option<Adapter>)
    requires |adapters| == |weights| && beta != 0.0
    requires Combined(base, adapters, weights, mode, lr, beta, a).Some?
    requires base.Keys <= StartMomentum(base, beta, b).Keys
    ensures Combined(base, adapters, weights, mode, lr, beta, b) == Combined(base, adapters, weights, mode, lr, beta, a) <==>
      forall name :: name in base ==>
        TensorStep(base[name], name, adapters, weights, lr, beta, StartMomentum(base, beta, b)[name])
        == TensorStep(base[name], name, adapters, weights, lr, beta, StartMomentum(base, beta, a)[name])
  {
    hide TensorStep, StartMomentum;
    var x, y := Combined(base, adapters, weights, mode, lr, beta, a), Combined(base, adapters, weights, mode, lr, beta, b);
    if x == y {
      forall name | name in base
        ensures TensorStep(base[name], name, adapters, weights, lr, beta, StartMomentum(base, beta, b)[name])
             == TensorStep(base[name], name, adapters, weights, lr, beta, StartMomentum(base, beta, a)[name])
      {
        assert x.value.adapter[name] == y.value.adapter[name] && x.value.momentum.value[name] == y.value.momentum.value[name];
      }
    }
    if forall name :: name in base ==>
      TensorStep(base[name], name, adapters, weights, lr, beta, StartMomentum(base, beta, b)[name])
      == TensorStep(base[name], name, adapters, weights, lr, beta, StartMomentum(base, beta, a)[name])
    {
      assert x.value.adapter == y.value.adapter && x.value.momentum.value == y.value.momentum.value;
    }
  }

  lemma OneTensorRests(base: Adapter, name: string, adapters: seq<Adapter>, weights: seq<Weights>, lr: real, beta: real, m: Tensor)
    requires |adapters| == |weights| && name in base && WeightSum(weights, name) != 0.0
    requires TensorStep(base[name], name, adapters, weights, lr, beta, m).Some?
    ensures var total := Total(base, name, adapters, weights);
      total.Some? &&
      (TensorAgrees(base[name], total.value, m, TensorStep(base[name], name, adapters, weights, lr, beta, m).value.momentum)
       <==> TensorAtRest(base[name], total.value, WeightSum(weights, name), m, beta))
  {
    hide OuterTensor, TensorStep, WeightSum, TensorAgrees, TensorAtRest, WellFormed, Total;
    TrainedStep(base, name, adapters, weights, lr, beta, m);
    RestsExactlyWhen(base[name], Total(base, name, adapters, weights).value, WeightSum(weights, name), m, lr, beta);
  }

  /** The momentum a combine leaves is as good as the one it started from exactly when the work
      does not move it. */
  lemma AgreesExactlyAtRest(
    base: Adapter, adapters: seq<Adapter>, weights: seq<Weights>, mode: string, lr: real, beta: real, momentum: Option<Adapter>)
    requires |adapters| == |weights| && Trained(base, weights) && beta != 0.0
    requires var r := Combined(base, adapters, weights, mode, lr, beta, momentum); r.Some? && r.value.momentum.Some?
    ensures var m := StartMomentum(base, beta, momentum);
      Agree(base, adapters, weights, m, Combined(base, adapters, weights, mode, lr, beta, momentum).value.momentum.value)
      <==> AtRest(base, adapters, weights, beta, m)
  {
    hide WeightSum, TensorAgrees, TensorAtRest, Total;
    var m := StartMomentum(base, beta, momentum);
    forall name | name in base
      ensures var total := Total(base, name, adapters, weights);
        total.Some? &&
        (TensorAgrees(base[name], total.value, m[name], TensorStep(base[name], name, adapters, weights, lr, beta, m[name]).value.momentum)
         <==> TensorAtRest(base[name], total.value, WeightSum(weights, name), m[name], beta))
    {
      OneTensorRests(base, name, adapters, weights, lr, beta, m[name]);
    }
    hide TensorStep, StartMomentum;
  }

  // ---- the work of a close -----------------------------------------------------------------------

  /** The weights a close gives its work; every tensor of the base is trained. */
  ghost function WeightsOf(base: Adapter, work: seq<Contribution>, cap: Option<real>): (r: seq<Weights>)
    requires SharesOf(work, cap).Some?
    ensures |r| == |work| && Trained(base, r)
  {
    var shares := SharesOf(work, cap).value;
    SharesTrain(base, work, cap);
    Spread(shares, base.Keys)
  }

  lemma SharesTrain(base: Adapter, work: seq<Contribution>, cap: Option<real>)
    requires SharesOf(work, cap).Some?
    ensures var weights := Spread(SharesOf(work, cap).value, base.Keys); |weights| == |work| && Trained(base, weights)
  {
    hide FinalShares, Spread, WeightSum, Sum;
    var shares := SharesOf(work, cap).value;
    FinalSharesLength(Steps(work), cap);
    FinalSharesSumToOne(Steps(work), cap);
    SpreadLength(shares, base.Keys);
    forall name | name in base ensures WeightSum(Spread(shares, base.Keys), name) != 0.0 {
      WeightSumIsSum(shares, base.Keys, name);
    }
  }

  /** Two momenta from which a close publishes the same. */
  ghost predicate WorkAgrees(base: Adapter, work: seq<Contribution>, cap: Option<real>, a: Adapter, b: Adapter) {
    SharesOf(work, cap).Some? && Agree(base, Adapters(work), WeightsOf(base, work, cap), a, b)
  }

  /** Momentum that the work of a close leaves where it is: on every cell the base less the mean is
      what the momentum loses to decay. */
  ghost predicate WorkAtRest(base: Adapter, work: seq<Contribution>, cap: Option<real>, beta: real, m: Adapter) {
    SharesOf(work, cap).Some? && AtRest(base, Adapters(work), WeightsOf(base, work, cap), beta, m)
  }

  lemma PublishedAgainExactlyWhen(
    base: Adapter, work: seq<Contribution>, cap: Option<real>, mode: string, lr: real, beta: real,
    first: Option<Adapter>, second: Adapter)
    requires beta != 0.0 && second.Keys == base.Keys
    requires Published(base, work, cap, mode, lr, beta, first).Some?
    ensures Published(base, work, cap, mode, lr, beta, Some(second)) == Published(base, work, cap, mode, lr, beta, first)
       <==> WorkAgrees(base, work, cap, StartMomentum(base, beta, first), second)
  {
    hide SharesOf, Combined, Agree, StartMomentum, Trained;
    CombinedAgainExactlyWhen(base, Adapters(work), WeightsOf(base, work, cap), mode, lr, beta, first, second);
  }

  /** What a close leaves as momentum loads again, has the base's tensors, and agrees with what the close
      started from exactly when the work left that at rest. */
  lemma PublishedMomentum(
    base: Adapter, work: seq<Contribution>, cap: Option<real>, mode: string, lr: real, beta: real, momentum: Option<Adapter>)
    requires beta != 0.0 && Published(base, work, cap, mode, lr, beta, momentum).Some?
    ensures var m := Published(base, work, cap, mode, lr, beta, momentum).value.momentum;
      && m.Some? && m.value.Keys == base.Keys && LoadAdapter(SaveAdapter(m.value)) == m
      && (WorkAgrees(base, work, cap, StartMomentum(base, beta, momentum), m.value)
          <==> WorkAtRest(base, work, cap, beta, StartMomentum(base, beta, momentum)))
  {
    hide SharesOf, Combined, Agree, AtRest, StartMomentum, WellFormedAdapter, Trained;
    CombinedMomentumLoads(base, Adapters(work), WeightsOf(base, work, cap), mode, lr, beta, momentum);
    AgreesExactlyAtRest(base, Adapters(work), WeightsOf(base, work, cap), mode, lr, beta, momentum);
    LoadUndoesSave(Published(base, work, cap, mode, lr, beta, momentum).value.momentum.value);
  }
}
