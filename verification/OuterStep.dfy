/** The outer step that turns a round's adapters into the next base. */
module OuterStep {
  import opened Wrappers
  import opened RealSeqs
  import opened Tensors
  import opened Broadcasting

  type Weights = map<string, real>

  const FLOAT32 := "float32"

  function WeightOf(w: Weights, name: string): real {
    if name in w then w[name] else 0.0
  }

  function WeightSum(weights: seq<Weights>, name: string): real {
    if weights == [] then 0.0
    else WeightSum(weights[..|weights| - 1], name) + WeightOf(weights[|weights| - 1], name)
  }

  function Zeros(shape: seq<nat>): Tensor {
    Dense(shape, FLOAT32, seq(Volume(shape), _ => 0.0))
  }

  function ZerosLike(base: Adapter): Adapter {
    map name | name in base :: Zeros(base[name].shape)
  }

  /** acc + wt * t, each stretched to the other's shape; None where the shapes disagree. */
  function AddScaled(acc: Tensor, wt: real, t: Tensor): Option<Tensor> {
    match Broadcast(acc.shape, t.shape)
    case None => None
    case Some(out) =>
      if acc.NonFinite? || t.NonFinite? then Some(NonFinite(out, acc.dtype))
      else Some(Dense(out, acc.dtype, seq(Volume(out), c requires 0 <= c < Volume(out) => CellAt(acc, out, c) + wt * CellAt(t, out, c))))
  }

  /** The weighted sum of a tensor over the first n workers; None is a failed lookup or shape. */
  function Accumulated(shape: seq<nat>, name: string, adapters: seq<Adapter>, weights: seq<Weights>, n: nat): Option<Tensor>
    requires n <= |adapters| == |weights|
  {
    if n == 0 then Some(Zeros(shape))
    else
      match Accumulated(shape, name, adapters, weights, n - 1)
      case None => None
      case Some(acc) =>
        var wt := WeightOf(weights[n - 1], name);
        if wt == 0.0 then Some(acc)
        else if name !in adapters[n - 1] then None
        else AddScaled(acc, wt, adapters[n - 1][name])
  }

  function MomentumCell(base: real, mean: real, m: real, beta: real): real {
    beta * m + (base - mean)
  }

  function NextCell(base: real, mean: real, m: real, lr: real, beta: real): real {
    base - lr * ((base - mean) + beta * MomentumCell(base, mean, m, beta))
  }

  /** What one tensor becomes: the new base tensor and the new momentum tensor. */
  datatype Stepped = Stepped(next: Tensor, momentum: Tensor)

  /** The shape the operands of one tensor's step stretch to; None where they disagree. */
  function StepShape(base: Tensor, total: Tensor, m: Tensor): Option<Shape> {
    match Broadcast(base.shape, total.shape)
    case None => None
    case Some(g) => Broadcast(m.shape, g)
  }

  function OuterTensor(base: Tensor, total: Tensor, wSum: real, m: Tensor, lr: real, beta: real): Option<Stepped>
    requires wSum != 0.0
  {
    match StepShape(base, total, m)
    case None => None
    case Some(out) =>
      if base.NonFinite? || total.NonFinite? || m.NonFinite? then
        Some(Stepped(NonFinite(out, base.dtype), NonFinite(out, FLOAT32)))
      else
        var n := Volume(out);
        Some(Stepped(
          Dense(out, base.dtype, seq(n, c requires 0 <= c < n =>
            NextCell(CellAt(base, out, c), CellAt(total, out, c) / wSum, CellAt(m, out, c), lr, beta))),
          Dense(out, FLOAT32, seq(n, c requires 0 <= c < n =>
            MomentumCell(CellAt(base, out, c), CellAt(total, out, c) / wSum, CellAt(m, out, c), beta)))))
  }

  /** A tensor nobody trained passes through with its momentum untouched. */
  function TensorStep(
    base: Tensor, name: string, adapters: seq<Adapter>, weights: seq<Weights>, lr: real, beta: real, m: Tensor)
    : Option<Stepped>
    requires |adapters| == |weights|
  {
    var wSum := WeightSum(weights, name);
    if wSum == 0.0 then Some(Stepped(base, m))
    else
      match Accumulated(base.shape, name, adapters, weights, |adapters|)
      case None => None
      case Some(total) => OuterTensor(base, total, wSum, m, lr, beta)
  }

  /** Without momentum (beta zero) the momentum term vanishes whatever stands in for it. */
  function StartMomentum(base: Adapter, beta: real, momentum: Option<Adapter>): Adapter {
    if beta == 0.0 || momentum.None? then ZerosLike(base) else momentum.value
  }

  datatype Outcome = Outcome(adapter: Adapter, momentum: Option<Adapter>)

  predicate KnownMode(mode: string) {
    mode == "mean" || mode == "diloco"
  }

  /** None is an exception in the source: an unknown mode, a missing tensor, shapes that disagree. */
  function Combined(
    base: Adapter, adapters: seq<Adapter>, weights: seq<Weights>, mode: string, lr: real, beta: real,
    momentum: Option<Adapter>): Option<Outcome>
    requires |adapters| == |weights|
  {
    var m := StartMomentum(base, beta, momentum);
    if !KnownMode(mode) then None
    else if exists name | name in base :: name !in m || TensorStep(base[name], name, adapters, weights, lr, beta, m[name]).None? then None
    else Some(Outcome(
      map name | name in base :: TensorStep(base[name], name, adapters, weights, lr, beta, m[name]).value.next,
      if beta == 0.0 then None
      else Some(map name | name in base :: TensorStep(base[name], name, adapters, weights, lr, beta, m[name]).value.momentum)))
  }

  method CombineTensor(
    base: Tensor, name: string, adapters: seq<Adapter>, weights: seq<Weights>, lr: real, beta: real, m: Tensor)
    returns (r: Option<Stepped>)
    requires |adapters| == |weights|
    ensures r == TensorStep(base, name, adapters, weights, lr, beta, m)
  {
    var wSum := 0.0;
    for i := 0 to |weights|
      invariant wSum == WeightSum(weights[..i], name)
    {
      assert weights[..i + 1][..i] == weights[..i];
      wSum := wSum + WeightOf(weights[i], name);
    }
    assert weights[..|weights|] == weights;
    if wSum == 0.0 { return Some(Stepped(base, m)); }
    var total := Zeros(base.shape);
    for i := 0 to |adapters|
      invariant Accumulated(base.shape, name, adapters, weights, i) == Some(total)
    {
      var wt := WeightOf(weights[i], name);
      if wt == 0.0 { continue; }
      if name !in adapters[i] {
        AccumulationFailed(base.shape, name, adapters, weights, i + 1, |adapters|);
        return None;
      }
      var added := AddScaled(total, wt, adapters[i][name]);
      if added.None? {
        AccumulationFailed(base.shape, name, adapters, weights, i + 1, |adapters|);
        return None;
      }
      total := added.value;
    }
    return OuterTensor(base, total, wSum, m, lr, beta);
  }

  lemma {:induction false} AccumulationFailed(
    shape: seq<nat>, name: string, adapters: seq<Adapter>, weights: seq<Weights>, i: nat, n: nat)
    requires i <= n <= |adapters| == |weights| && Accumulated(shape, name, adapters, weights, i).None?
    ensures Accumulated(shape, name, adapters, weights, n).None?
  {
    if i < n {
      AccumulationFailed(shape, name, adapters, weights, i, n - 1);
    }
  }

  lemma CollectedIsCombined(
    base: Adapter, adapters: seq<Adapter>, weights: seq<Weights>, mode: string, lr: real, beta: real,
    momentum: Option<Adapter>, next: Adapter, nextMomentum: Adapter)
    requires |adapters| == |weights| && KnownMode(mode) && next.Keys == nextMomentum.Keys == base.Keys
    requires base.Keys <= StartMomentum(base, beta, momentum).Keys
    requires forall name :: name in base ==>
      TensorStep(base[name], name, adapters, weights, lr, beta, StartMomentum(base, beta, momentum)[name])
        == Some(Stepped(next[name], nextMomentum[name]))
    ensures Combined(base, adapters, weights, mode, lr, beta, momentum)
         == Some(Outcome(next, if beta == 0.0 then None else Some(nextMomentum)))
  {
    hide TensorStep;
    var r := Combined(base, adapters, weights, mode, lr, beta, momentum).value;
    assert r.adapter == next;
    if beta != 0.0 {
      assert r.momentum.value == nextMomentum;
    }
  }

  method Combine(
    base: Adapter, adapters: seq<Adapter>, weights: seq<Weights>, mode: string, lr: real, beta: real,
    momentum: Option<Adapter>) returns (r: Option<Outcome>)
    requires |adapters| == |weights|
    ensures r == Combined(base, adapters, weights, mode, lr, beta, momentum)
  {
    hide TensorStep, StartMomentum;
    if !KnownMode(mode) { return None; }
    var m := StartMomentum(base, beta, momentum);
    var next, nextMomentum, names := map[], map[], base.Keys;
    while names != {}
      invariant names <= base.Keys && next.Keys == nextMomentum.Keys == base.Keys - names
      invariant next.Keys <= m.Keys
      invariant forall name :: name in next ==>
        TensorStep(base[name], name, adapters, weights, lr, beta, m[name]) == Some(Stepped(next[name], nextMomentum[name]))
      decreases |names|
    {
      var name :| name in names;
      if name !in m { return None; }
      var stepped := CombineTensor(base[name], name, adapters, weights, lr, beta, m[name]);
      if stepped.None? { return None; }
      next, nextMomentum := next[name := stepped.value.next], nextMomentum[name := stepped.value.momentum];
      names := names - {name};
    }
    assert next.Keys == base.Keys;
    CollectedIsCombined(base, adapters, weights, mode, lr, beta, momentum, next, nextMomentum);
    return Some(Outcome(next, if beta == 0.0 then None else Some(nextMomentum)));
  }

  // ---- what becomes of the cells ---------------------------------------------

  lemma AddScaledCell(acc: Tensor, wt: real, t: Tensor, out: Shape, c: nat)
    requires acc.Dense? && t.Dense? && WellFormed(acc) && WellFormed(t) && AddScaled(acc, wt, t).Some?
    requires Into(AddScaled(acc, wt, t).value.shape, out) && c < Volume(out)
    ensures CellAt(AddScaled(acc, wt, t).value, out, c) == CellAt(acc, out, c) + wt * CellAt(t, out, c)
  {
    hide Into, Broadcast, Repeated, Volume;
    var mid := AddScaled(acc, wt, t).value.shape;
    BroadcastCovers(acc.shape, t.shape);
    RepeatedExists(mid, out, c);
    RepeatedTwice(acc.shape, mid, out, c);
    RepeatedTwice(t.shape, mid, out, c);
  }

  /** The weighted sum of one cell, every tensor stretched at once. */
  function StretchedSum(name: string, adapters: seq<Adapter>, weights: seq<Weights>, n: nat, out: Shape, c: nat): real
    requires n <= |adapters| == |weights|
  {
    if n == 0 then 0.0
    else
      var wt, a := WeightOf(weights[n - 1], name), adapters[n - 1];
      StretchedSum(name, adapters, weights, n - 1, out, c)
      + (if wt != 0.0 && name in a && a[name].Dense? then wt * CellAt(a[name], out, c) else 0.0)
  }

  lemma ZeroCells(shape: Shape, out: Shape, c: nat)
    ensures CellAt(Zeros(shape), out, c) == 0.0
  {
  }

  /** Adding tensor by tensor, each stretched to what has been summed so far, is summing the tensors
      stretched at once. */
  lemma {:induction false} StretchedCell(
    shape: Shape, name: string, adapters: seq<Adapter>, weights: seq<Weights>, n: nat, out: Shape, c: nat)
    requires n <= |adapters| == |weights| && (forall i :: 0 <= i < n ==> WellFormedAdapter(adapters[i]))
    requires Accumulated(shape, name, adapters, weights, n).Some? && Accumulated(shape, name, adapters, weights, n).value.Dense?
    requires Into(Accumulated(shape, name, adapters, weights, n).value.shape, out) && c < Volume(out)
    ensures CellAt(Accumulated(shape, name, adapters, weights, n).value, out, c) == StretchedSum(name, adapters, weights, n, out, c)
  {
    hide Into, Broadcast, Volume, CellAt;
    if n == 0 {
      ZeroCells(shape, out, c);
    } else {
      var acc, wt := Accumulated(shape, name, adapters, weights, n - 1).value, WeightOf(weights[n - 1], name);
      AccumulatedShape(shape, name, adapters, weights, n - 1);
      if wt != 0.0 {
        var t := adapters[n - 1][name];
        BroadcastCovers(acc.shape, t.shape);
        IntoChains(acc.shape, Broadcast(acc.shape, t.shape).value, out);
        AddScaledCell(acc, wt, t, out, c);
      }
      StretchedCell(shape, name, adapters, weights, n - 1, out, c);
    }
  }

  // ---- what becomes of the shapes --------------------------------------------

  lemma {:induction false} AccumulatedShape(shape: Shape, name: string, adapters: seq<Adapter>, weights: seq<Weights>, n: nat)
    requires n <= |adapters| == |weights| && Accumulated(shape, name, adapters, weights, n).Some?
    ensures var t := Accumulated(shape, name, adapters, weights, n).value;
      && WellFormed(t) && t.dtype == FLOAT32 && Into(shape, t.shape)
      && (t.shape == shape <==> forall i :: 0 <= i < n && WeightOf(weights[i], name) != 0.0 ==>
            name in adapters[i] && Into(adapters[i][name].shape, shape))
  {
    hide Volume, Broadcast, Into;
    IntoItself(shape);
    if n > 0 {
      AccumulatedShape(shape, name, adapters, weights, n - 1);
      if WeightOf(weights[n - 1], name) != 0.0 {
        var acc := Accumulated(shape, name, adapters, weights, n - 1).value;
        StretchedShape(shape, acc.shape, adapters[n - 1][name].shape);
      }
    }
  }

  /** One more operand: the shape stays the first one's exactly when it was and the operand stretches
      to it. */
  lemma StretchedShape(shape: Shape, acc: Shape, t: Shape)
    requires Into(shape, acc) && Broadcast(acc, t).Some?
    ensures Into(shape, Broadcast(acc, t).value)
    ensures Broadcast(acc, t).value == shape <==> acc == shape && Into(t, shape)
  {
    hide Broadcast, Into;
    BroadcastCovers(acc, t);
    IntoChains(shape, acc, Broadcast(acc, t).value);
    IntoExactlyWhen(t, shape);
    if Broadcast(acc, t).value == shape { IntoIsOrder(acc, shape); }
  }

  /** The step's shape is at least the base's, and is the base's exactly when nothing stretches it. */
  lemma StepShapeGrows(base: Tensor, total: Tensor, m: Tensor)
    requires Into(base.shape, total.shape) && StepShape(base, total, m).Some?
    ensures var out := StepShape(base, total, m).value;
      Into(base.shape, out) && (out == base.shape <==> total.shape == base.shape && Into(m.shape, base.shape))
  {
    hide Broadcast, Into;
    IntoItself(base.shape);
    var g := Broadcast(base.shape, total.shape).value;
    StretchedShape(base.shape, base.shape, total.shape);
    BroadcastCovers(m.shape, g);
    var out := Broadcast(m.shape, g).value;
    IntoChains(base.shape, g, out);
    BroadcastCovers(base.shape, total.shape);
    if total.shape == base.shape {
      IntoExactlyWhen(base.shape, base.shape);
      MomentumStretches(m.shape, base.shape);
    }
    if out == base.shape {
      IntoIsOrder(g, base.shape);
      IntoIsOrder(total.shape, base.shape);
    }
  }

  lemma MomentumStretches(m: Shape, shape: Shape)
    requires Broadcast(m, shape).Some?
    ensures Broadcast(m, shape).value == shape <==> Into(m, shape)
  {
    hide Broadcast, Into;
    BroadcastCovers(m, shape);
    if Into(m, shape) {
      IntoItself(shape);
      BroadcastIsLeast(m, shape, shape);
      IntoIsOrder(Broadcast(m, shape).value, shape);
    }
  }

  /** Everything that a tensor's step combines stretches to the base's shape: the work that counts and
      the momentum. */
  ghost predicate StretchesInto(base: Tensor, name: string, adapters: seq<Adapter>, weights: seq<Weights>, m: Tensor)
    requires |adapters| == |weights|
  {
    WeightSum(weights, name) != 0.0 ==>
      && Into(m.shape, base.shape)
      && (forall i :: 0 <= i < |adapters| && WeightOf(weights[i], name) != 0.0 ==>
            name in adapters[i] && Into(adapters[i][name].shape, base.shape))
  }

  lemma TensorStepShape(
    base: Tensor, name: string, adapters: seq<Adapter>, weights: seq<Weights>, lr: real, beta: real, m: Tensor)
    requires |adapters| == |weights| && TensorStep(base, name, adapters, weights, lr, beta, m).Some?
    ensures var r := TensorStep(base, name, adapters, weights, lr, beta, m).value;
      && r.next.dtype == base.dtype && Into(base.shape, r.next.shape) && (WellFormed(base) ==> WellFormed(r.next))
      && (r.next.shape == base.shape <==> StretchesInto(base, name, adapters, weights, m))
      && (WellFormed(m) ==> WellFormed(r.momentum))
      && (WeightSum(weights, name) != 0.0 ==> r.momentum.shape == r.next.shape && WellFormed(r.momentum))
  {
    hide Volume, Broadcast, Into, StepShape, NextCell, MomentumCell, CellAt;
    IntoItself(base.shape);
    if WeightSum(weights, name) != 0.0 {
      AccumulatedShape(base.shape, name, adapters, weights, |adapters|);
      StepShapeGrows(base, Accumulated(base.shape, name, adapters, weights, |adapters|).value, m);
    }
  }

  /** A base and what it has become: the same tensors with the same dtypes, perhaps stretched. */
  ghost predicate Grown(base: Adapter, a: Adapter) {
    a.Keys == base.Keys && forall name :: name in base ==> a[name].dtype == base[name].dtype && Into(base[name].shape, a[name].shape)
  }

  /** Whatever was submitted, a combine that succeeds has the base's names and dtypes, and shapes that
      the base's stretch to. */
  lemma CombinedGrows(
    base: Adapter, adapters: seq<Adapter>, weights: seq<Weights>, mode: string, lr: real, beta: real,
    momentum: Option<Adapter>)
    requires |adapters| == |weights| && WellFormedAdapter(base)
    requires Combined(base, adapters, weights, mode, lr, beta, momentum).Some?
    ensures var r := Combined(base, adapters, weights, mode, lr, beta, momentum).value; Grown(base, r.adapter) && WellFormedAdapter(r.adapter)
  {
    hide Into, WeightSum;
    var m := StartMomentum(base, beta, momentum);
    forall name | name in base
      ensures var t := TensorStep(base[name], name, adapters, weights, lr, beta, m[name]).value.next;
        Into(base[name].shape, t.shape) && t.dtype == base[name].dtype && WellFormed(t)
    {
      TensorStepShape(base[name], name, adapters, weights, lr, beta, m[name]);
    }
    hide TensorStep, StartMomentum;
  }

  /** Every operand of every tensor's step stretches to the base's shape. */
  ghost predicate AllStretch(base: Adapter, adapters: seq<Adapter>, weights: seq<Weights>, m: Adapter) {
    |adapters| == |weights| && forall name :: name in base && name in m ==> StretchesInto(base[name], name, adapters, weights, m[name])
  }

  /** A combine that succeeds keeps the base's manifest exactly when every tensor it combines stretches
      to the base's shape. */
  lemma CombinedKeepsManifest(
    base: Adapter, adapters: seq<Adapter>, weights: seq<Weights>, mode: string, lr: real, beta: real,
    momentum: Option<Adapter>)
    requires |adapters| == |weights| && WellFormedAdapter(base)
    requires Combined(base, adapters, weights, mode, lr, beta, momentum).Some?
    ensures ManifestOf(Combined(base, adapters, weights, mode, lr, beta, momentum).value.adapter) == ManifestOf(base)
       <==> AllStretch(base, adapters, weights, StartMomentum(base, beta, momentum))
  {
    hide Into, WeightSum, StretchesInto;
    var m, r := StartMomentum(base, beta, momentum), Combined(base, adapters, weights, mode, lr, beta, momentum).value;
    forall name | name in base
      ensures name in m && name in r.adapter && r.adapter[name].dtype == base[name].dtype
      ensures r.adapter[name].shape == base[name].shape <==> StretchesInto(base[name], name, adapters, weights, m[name])
    {
      TensorStepShape(base[name], name, adapters, weights, lr, beta, m[name]);
    }
    hide TensorStep, StartMomentum, Combined;
    SameManifestExactlyWhen(r.adapter, base);
  }

  lemma SameManifestExactlyWhen(a: Adapter, base: Adapter)
    requires a.Keys == base.Keys && forall name :: name in base ==> a[name].dtype == base[name].dtype
    ensures ManifestOf(a) == ManifestOf(base) <==> forall name :: name in base ==> a[name].shape == base[name].shape
  {
    var x, y := ManifestOf(a), ManifestOf(base);
    assert x.Keys == a.Keys && y.Keys == base.Keys;
    assert forall name :: name in base ==> x[name] == TensorSpec(a[name].shape, a[name].dtype);
    assert forall name :: name in base ==> y[name] == TensorSpec(base[name].shape, base[name].dtype);
    if x == y {
      forall name | name in base ensures a[name].shape == base[name].shape {
        assert x[name] == y[name];
      }
    }
  }

  /** Momentum that fits a base: its tensors have the base's names and shapes. */
  ghost predicate MomentumFits(m: Adapter, base: Adapter) {
    && m.Keys == base.Keys
    && forall name :: name in base ==> m[name].Dense? && m[name].shape == base[name].shape && WellFormed(m[name])
  }

  /** An adapter fit to combine with the base. */
  ghost predicate Fits(a: Adapter, base: Adapter) {
    ManifestOf(a) == ManifestOf(base) && WellFormedAdapter(a) && Finite(a)
  }

  lemma FitsTensor(a: Adapter, base: Adapter, name: string)
    requires Fits(a, base) && name in base
    ensures name in a && a[name].Dense? && a[name].shape == base[name].shape && |a[name].cells| == Volume(base[name].shape)
  {
    assert name in ManifestOf(base);
    assert name in ManifestOf(a);
    assert ManifestOf(a)[name] == ManifestOf(base)[name];
  }

  lemma SameShapeAdds(acc: Tensor, wt: real, t: Tensor)
    requires acc.Dense? && t.Dense? && t.shape == acc.shape
    ensures var r := AddScaled(acc, wt, t); r.Some? && r.value.Dense? && r.value.shape == acc.shape && |r.value.cells| == Volume(acc.shape)
  {
    BroadcastItself(acc.shape);
  }

  lemma {:induction false} AccumulationSucceeds(
    base: Adapter, name: string, adapters: seq<Adapter>, weights: seq<Weights>, n: nat)
    requires n <= |adapters| == |weights| && name in base
    requires forall i :: 0 <= i < |adapters| ==> Fits(adapters[i], base)
    ensures var r := Accumulated(base[name].shape, name, adapters, weights, n);
      r.Some? && r.value.Dense? && r.value.shape == base[name].shape && |r.value.cells| == Volume(base[name].shape)
  {
    hide AddScaled, Volume, Fits;
    if n > 0 {
      AccumulationSucceeds(base, name, adapters, weights, n - 1);
      FitsTensor(adapters[n - 1], base, name);
      var acc := Accumulated(base[name].shape, name, adapters, weights, n - 1).value;
      SameShapeAdds(acc, WeightOf(weights[n - 1], name), adapters[n - 1][name]);
    }
  }

  lemma TensorStepSucceeds(
    base: Adapter, name: string, adapters: seq<Adapter>, weights: seq<Weights>, lr: real, beta: real, m: Adapter)
    requires |adapters| == |weights| && name in base && WellFormedAdapter(base) && Finite(base) && MomentumFits(m, base)
    requires forall i :: 0 <= i < |adapters| ==> Fits(adapters[i], base)
    ensures var r := TensorStep(base[name], name, adapters, weights, lr, beta, m[name]);
      r.Some? && r.value.next.Dense? && r.value.momentum.Dense?
      && r.value.momentum.shape == base[name].shape && WellFormed(r.value.momentum)
      && r.value.next.shape == base[name].shape && r.value.next.dtype == base[name].dtype && WellFormed(r.value.next)
  {
    hide Volume, Fits, Broadcast, Accumulated, CellAt;
    AccumulationSucceeds(base, name, adapters, weights, |adapters|);
    BroadcastItself(base[name].shape);
  }

  lemma ZerosFit(base: Adapter)
    ensures MomentumFits(ZerosLike(base), base)
  {
  }

  /** Combining accepted work cannot fail: every lookup succeeds, every shape agrees, and the
      result and its momentum are finite and fit the next round in turn. */
  lemma CombineCannotFail(
    base: Adapter, adapters: seq<Adapter>, weights: seq<Weights>, mode: string, lr: real, beta: real,
    momentum: Option<Adapter>)
    requires |adapters| == |weights| && KnownMode(mode) && WellFormedAdapter(base) && Finite(base)
    requires momentum.Some? ==> MomentumFits(momentum.value, base)
    requires forall i :: 0 <= i < |adapters| ==> Fits(adapters[i], base)
    ensures var r := Combined(base, adapters, weights, mode, lr, beta, momentum);
      r.Some? && Fits(r.value.adapter, base) && (r.value.momentum.Some? ==> MomentumFits(r.value.momentum.value, r.value.adapter))
  {
    hide Fits, TensorStep, Volume;
    var m := StartMomentum(base, beta, momentum);
    ZerosFit(base);
    forall name | name in base
      ensures var r := TensorStep(base[name], name, adapters, weights, lr, beta, m[name]);
        r.Some? && r.value.next.Dense? && r.value.momentum.Dense?
        && r.value.momentum.shape == base[name].shape && WellFormed(r.value.momentum)
        && r.value.next.shape == base[name].shape && r.value.next.dtype == base[name].dtype && WellFormed(r.value.next)
    {
      TensorStepSucceeds(base, name, adapters, weights, lr, beta, m);
    }
    FittingOutcome(base, Combined(base, adapters, weights, mode, lr, beta, momentum).value);
  }

  lemma FittingOutcome(base: Adapter, o: Outcome)
    requires o.adapter.Keys == base.Keys && (o.momentum.Some? ==> o.momentum.value.Keys == base.Keys)
    requires forall name :: name in base ==>
      && o.adapter[name].Dense? && o.adapter[name].shape == base[name].shape && o.adapter[name].dtype == base[name].dtype
      && WellFormed(o.adapter[name])
      && (o.momentum.Some? ==>
            o.momentum.value[name].Dense? && o.momentum.value[name].shape == base[name].shape && WellFormed(o.momentum.value[name]))
    ensures Fits(o.adapter, base) && (o.momentum.Some? ==> MomentumFits(o.momentum.value, o.adapter))
  {
    SameManifestExactlyWhen(o.adapter, base);
  }
}
