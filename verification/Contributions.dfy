/** What a round publishes as a function of its contributions: their order never matters, and
    with a unit step and no momentum the result is their weighted mean. */
module Contributions {
  import opened Wrappers
  import opened RealSeqs
  import opened Tensors
  import opened DominanceCap
  import opened OuterStep
  import opened OuterRun

  /** One accepted submission: its adapter and its step count. */
  datatype Contribution = Contribution(adapter: Adapter, steps: int)

  function Adapters(work: seq<Contribution>): (r: seq<Adapter>)
    ensures |r| == |work|
  {
    seq(|work|, i requires 0 <= i < |work| => work[i].adapter)
  }

  function Steps(work: seq<Contribution>): (r: seq<int>)
    ensures |r| == |work|
  {
    seq(|work|, i requires 0 <= i < |work| => work[i].steps)
  }

  function SharesOf(work: seq<Contribution>, cap: Option<real>): Option<seq<real>> {
    FinalShares(Steps(work), cap)
  }

  /** The outer step on a round's contributions, weighted by their capped shares. */
  function Published(
    base: Adapter, work: seq<Contribution>, cap: Option<real>, mode: string, lr: real, beta: real,
    momentum: Option<Adapter>): Option<Outcome>
  {
    match SharesOf(work, cap)
    case None => None
    case Some(shares) =>
      if |shares| != |work| then None
      else Combined(base, Adapters(work), Spread(shares, base.Keys), mode, lr, beta, momentum)
  }

  // ---- a share belongs to the contribution, not to its place ------------------

  type Rating = Contribution -> real

  lemma SumFollows(h: Rating, xs: seq<Contribution>, ys: seq<Contribution>)
    requires multiset(xs) == multiset(ys)
    ensures Sum(Map(h, xs)) == Sum(Map(h, ys))
  {
    MapPermutes(h, xs, ys);
    SumPermutes(Map(h, xs), Map(h, ys));
  }

  lemma LimitFollows(h: Rating, xs: seq<Contribution>, ys: seq<Contribution>, cap: real)
    requires multiset(xs) == multiset(ys) && xs != []
    ensures ys != [] && Limit(Map(h, xs), cap) == Limit(Map(h, ys), cap)
  {
    hide Sorted, Middle;
    SameLength(xs, ys);
    MapPermutes(h, xs, ys);
    MedianPermutes(Map(h, xs), Map(h, ys));
    assert Limit(Map(h, xs), cap) == cap * Median(Map(h, xs));
    assert Limit(Map(h, ys), cap) == cap * Median(Map(h, ys));
  }

  function Clipped(h: Rating, limit: real): Rating {
    c => if h(c) <= limit then h(c) else limit
  }

  function Divided(h: Rating, d: real): Rating
    requires d != 0.0
  {
    c => h(c) / d
  }

  lemma ClampMaps(h: Rating, xs: seq<Contribution>, limit: real)
    ensures Clamp(Map(h, xs), limit) == Map(Clipped(h, limit), xs)
  {
  }

  lemma DivideMaps(h: Rating, xs: seq<Contribution>, d: real)
    requires d != 0.0
    ensures Divide(Map(h, xs), d) == Map(Divided(h, d), xs)
  {
  }

  /** One pass rates the same contribution the same in either order, or fails in both. */
  lemma PassFollows(h: Rating, xs: seq<Contribution>, ys: seq<Contribution>, cap: real) returns (next: Rating)
    requires multiset(xs) == multiset(ys) && xs != []
    ensures ys != []
    ensures Pass(Map(h, xs), cap).Some? <==> Pass(Map(h, ys), cap).Some?
    ensures Pass(Map(h, xs), cap).Some? ==>
      Pass(Map(h, xs), cap) == Some(Map(next, xs)) && Pass(Map(h, ys), cap) == Some(Map(next, ys))
  {
    hide Limit, Sum, Clamp, Divide, Map;
    LimitFollows(h, xs, ys, cap);
    SameLength(xs, ys);
    var limit := Limit(Map(h, xs), cap);
    var f := Clipped(h, limit);
    ClampMaps(h, xs, limit);
    ClampMaps(h, ys, limit);
    SumFollows(f, xs, ys);
    next := f;
    var d := Sum(Map(f, xs));
    if d != 0.0 {
      DivideMaps(f, xs, d);
      DivideMaps(f, ys, d);
      next := Divided(f, d);
    }
  }

  lemma SettledFollows(f: Rating, g: Rating, xs: seq<Contribution>, ys: seq<Contribution>)
    requires multiset(xs) == multiset(ys) && Settled(Map(f, xs), Map(g, xs))
    ensures Settled(Map(f, ys), Map(g, ys))
  {
    SameLength(xs, ys);
    forall j | 0 <= j < |ys| ensures -0.000000001 < Map(f, ys)[j] - Map(g, ys)[j] < 0.000000001 {
      assert ys[j] in multiset(ys);
      assert ys[j] in multiset(xs);
      var i :| 0 <= i < |xs| && xs[i] == ys[j];
      assert Map(f, xs)[i] == f(ys[j]);
    }
  }

  lemma {:induction false} PassesFollow(h: Rating, xs: seq<Contribution>, ys: seq<Contribution>, cap: real, n: nat)
    returns (last: Rating)
    requires multiset(xs) == multiset(ys) && xs != []
    ensures ys != []
    ensures Passes(Map(h, xs), cap, n).Some? <==> Passes(Map(h, ys), cap, n).Some?
    ensures Passes(Map(h, xs), cap, n).Some? ==>
      Passes(Map(h, xs), cap, n) == Some(Map(last, xs)) && Passes(Map(h, ys), cap, n) == Some(Map(last, ys))
    decreases n
  {
    hide Pass, Map, Settled;
    SameLength(xs, ys);
    last := h;
    if n > 0 {
      var next := PassFollows(h, xs, ys, cap);
      if Pass(Map(h, xs), cap).Some? {
        SettledEither(next, h, xs, ys);
        if Settled(Map(next, xs), Map(h, xs)) {
          last := next;
        } else {
          last := PassesFollow(next, xs, ys, cap, n - 1);
        }
      }
    }
  }

  lemma SettledEither(f: Rating, g: Rating, xs: seq<Contribution>, ys: seq<Contribution>)
    requires multiset(xs) == multiset(ys)
    ensures Settled(Map(f, xs), Map(g, xs)) <==> Settled(Map(f, ys), Map(g, ys))
  {
    if Settled(Map(f, xs), Map(g, xs)) {
      SettledFollows(f, g, xs, ys);
    }
    if Settled(Map(f, ys), Map(g, ys)) {
      SettledFollows(f, g, ys, xs);
    }
  }

  function StepRating(): Rating {
    (w: Contribution) => w.steps as real
  }

  lemma StepsMap(xs: seq<Contribution>)
    ensures Reals(Steps(xs)) == Map(StepRating(), xs)
    ensures IntSum(Steps(xs)) as real == Sum(Map(StepRating(), xs))
  {
    SumOfReals(Steps(xs));
  }

  /** The capped shares of a permuted round are the same shares, permuted along. */
  lemma SharesFollow(xs: seq<Contribution>, ys: seq<Contribution>, cap: Option<real>) returns (share: Rating)
    requires multiset(xs) == multiset(ys)
    ensures SharesOf(xs, cap).Some? <==> SharesOf(ys, cap).Some?
    ensures SharesOf(xs, cap).Some? ==>
      SharesOf(xs, cap) == Some(Map(share, xs)) && SharesOf(ys, cap) == Some(Map(share, ys))
  {
    hide Passes, Sum, Map, Divide, IntSum;
    SameLength(xs, ys);
    StepsMap(xs);
    StepsMap(ys);
    SumFollows(StepRating(), xs, ys);
    var total := Sum(Map(StepRating(), xs));
    share := StepRating();
    if total != 0.0 {
      DivideMaps(StepRating(), xs, total);
      DivideMaps(StepRating(), ys, total);
      share := Divided(StepRating(), total);
      NonZeroIsNonEmpty(xs);
      if cap.Some? && |xs| >= 3 {
        share := PassesFollow(share, xs, ys, cap.value, 10);
      }
    }
  }

  lemma NonZeroIsNonEmpty(xs: seq<Contribution>)
    requires IntSum(Steps(xs)) != 0
    ensures xs != []
  {
  }

  // ---- the outer step is a function of the contributions alone ----------------

  /** What one contribution adds to a cell of the weighted sum. */
  function Added(share: Rating, name: string, c: nat): Rating {
    (w: Contribution) => share(w) * (if name in w.adapter && w.adapter[name].Dense? && c < |w.adapter[name].cells|
                     then w.adapter[name].cells[c] else 0.0)
  }

  lemma SpreadWeight(shares: seq<real>, keys: set<string>, name: string, i: nat)
    requires name in keys && i < |shares|
    ensures WeightOf(Spread(shares, keys)[i], name) == shares[i]
  {
  }

  lemma {:induction false} WeightSumIsSum(shares: seq<real>, keys: set<string>, name: string)
    requires name in keys
    ensures WeightSum(Spread(shares, keys), name) == Sum(shares)
  {
    if shares != [] {
      var n := |shares| - 1;
      SpreadWeight(shares, keys, name, n);
      assert Spread(shares, keys)[..n] == Spread(shares[..n], keys);
      WeightSumIsSum(shares[..n], keys, name);
      SumAppend(shares[..n], [shares[n]]);
      assert shares == shares[..n] + [shares[n]];
    }
  }

  ghost predicate AllWorkFits(work: seq<Contribution>, base: Adapter) {
    AllFit(Adapters(work), base)
  }

  lemma OneMoreTerm(share: Rating, work: seq<Contribution>, name: string, c: nat, n: nat)
    requires n < |work| && HasCell(work[n].adapter, name, c)
    ensures Sum(Map(Added(share, name, c), work[..n + 1]))
         == Sum(Map(Added(share, name, c), work[..n])) + share(work[n]) * Cell(work[n].adapter, name, c)
  {
    var f := Added(share, name, c);
    assert f(work[n]) == share(work[n]) * Cell(work[n].adapter, name, c);
    assert Map(f, work[..n + 1]) == Map(f, work[..n]) + [f(work[n])];
    SumAppend(Map(f, work[..n]), [f(work[n])]);
  }

  lemma {:induction false} WeightedSumIsSum(
    share: Rating, work: seq<Contribution>, base: Adapter, name: string, c: nat, n: nat)
    requires n <= |work| && AllWorkFits(work, base) && InBase(base, name, c)
    ensures AllHave(Adapters(work), name, c)
    ensures WeightedSum(name, c, Adapters(work), Spread(Map(share, work), base.Keys), n)
         == Sum(Map(Added(share, name, c), work[..n]))
  {
    hide Added, Sum, Map, Spread, InBase, AllFit;
    FittingHaveCells(Adapters(work), base, name, c);
    if n == 0 {
      EmptySum(Added(share, name, c));
    } else {
      WeightedSumIsSum(share, work, base, name, c, n - 1);
      NameInBase(base, name, c);
      SpreadWeight(Map(share, work), base.Keys, name, n - 1);
      assert HasCell(Adapters(work)[n - 1], name, c);
      OneMoreTerm(share, work, name, c, n - 1);
    }
  }

  lemma EmptySum(f: Rating)
    ensures Sum(Map(f, [])) == 0.0
  {
  }

  lemma NameInBase(base: Adapter, name: string, c: nat)
    requires InBase(base, name, c)
    ensures name in base.Keys
  {
  }

  lemma CellFollows(share: Rating, xs: seq<Contribution>, ys: seq<Contribution>, base: Adapter, name: string, c: nat)
    requires multiset(xs) == multiset(ys) && AllWorkFits(xs, base) && AllWorkFits(ys, base) && InBase(base, name, c)
    ensures AllHave(Adapters(xs), name, c) && AllHave(Adapters(ys), name, c) && |xs| == |ys|
    ensures WeightedSum(name, c, Adapters(xs), Spread(Map(share, xs), base.Keys), |xs|)
         == WeightedSum(name, c, Adapters(ys), Spread(Map(share, ys), base.Keys), |ys|)
  {
    hide Added, Sum, Map, Spread, InBase, AllFit, AllWorkFits, WeightedSum, AllHave;
    SameLength(xs, ys);
    WeightedSumIsSum(share, xs, base, name, c, |xs|);
    WeightedSumIsSum(share, ys, base, name, c, |ys|);
    assert xs[..|xs|] == xs && ys[..|ys|] == ys;
    SumFollows(Added(share, name, c), xs, ys);
  }

  lemma WeightSumFollows(share: Rating, xs: seq<Contribution>, ys: seq<Contribution>, keys: set<string>, name: string)
    requires multiset(xs) == multiset(ys) && name in keys
    ensures WeightSum(Spread(Map(share, xs), keys), name) == WeightSum(Spread(Map(share, ys), keys), name)
  {
    hide WeightSum, Spread, Sum, Map;
    WeightSumIsSum(Map(share, xs), keys, name);
    WeightSumIsSum(Map(share, ys), keys, name);
    SumFollows(share, xs, ys);
  }

  lemma AccumulatedFollows(share: Rating, xs: seq<Contribution>, ys: seq<Contribution>, base: Adapter, name: string)
    requires multiset(xs) == multiset(ys) && AllWorkFits(xs, base) && AllWorkFits(ys, base) && name in base
    ensures |xs| == |ys|
    ensures Accumulated(base[name].shape, name, Adapters(xs), Spread(Map(share, xs), base.Keys), |xs|)
         == Accumulated(base[name].shape, name, Adapters(ys), Spread(Map(share, ys), base.Keys), |ys|)
  {
    hide Accumulated, WeightedSum, Map, Spread, AllHave, Fits, Adapters, Volume;
    SameLength(xs, ys);
    var n, shape := |xs|, base[name].shape;
    var v, w := Spread(Map(share, xs), base.Keys), Spread(Map(share, ys), base.Keys);
    assert |v| == n && |w| == n by { SpreadLength(Map(share, xs), base.Keys); SpreadLength(Map(share, ys), base.Keys); }
    AccumulationSucceeds(base, name, Adapters(xs), v, n);
    AccumulationSucceeds(base, name, Adapters(ys), w, n);
    AccumulatedShape(shape, name, Adapters(xs), v, n);
    AccumulatedShape(shape, name, Adapters(ys), w, n);
    var a := Accumulated(shape, name, Adapters(xs), v, n).value;
    var b := Accumulated(shape, name, Adapters(ys), w, n).value;
    forall c | 0 <= c < |a.cells| ensures a.cells[c] == b.cells[c] {
      AccumulatedCell(base, name, c, Adapters(xs), v, n);
      AccumulatedCell(base, name, c, Adapters(ys), w, n);
      CellFollows(share, xs, ys, base, name, c);
    }
    assert a.cells == b.cells;
  }

  lemma SpreadLength(shares: seq<real>, keys: set<string>)
    ensures |Spread(shares, keys)| == |shares|
  {
  }

  lemma CombinedFollows(
    base: Adapter, xs: seq<Adapter>, v: seq<Weights>, ys: seq<Adapter>, w: seq<Weights>, mode: string, lr: real,
    beta: real, momentum: Option<Adapter>)
    requires |xs| == |v| && |ys| == |w|
    requires forall name :: name in base ==>
      (WeightSum(v, name) == WeightSum(w, name)
       && Accumulated(base[name].shape, name, xs, v, |xs|) == Accumulated(base[name].shape, name, ys, w, |ys|))
    ensures Combined(base, xs, v, mode, lr, beta, momentum) == Combined(base, ys, w, mode, lr, beta, momentum)
  {
    var m := StartMomentum(base, beta, momentum);
    forall name | name in base && name in m
      ensures TensorStep(base[name], name, xs, v, lr, beta, m[name]) == TensorStep(base[name], name, ys, w, lr, beta, m[name])
    {
      StepFollows(base[name], name, xs, v, ys, w, lr, beta, m[name]);
    }
    SameSteps(base, xs, v, ys, w, mode, lr, beta, momentum);
  }

  lemma StepFollows(
    base: Tensor, name: string, xs: seq<Adapter>, v: seq<Weights>, ys: seq<Adapter>, w: seq<Weights>, lr: real,
    beta: real, m: Tensor)
    requires |xs| == |v| && |ys| == |w| && WeightSum(v, name) == WeightSum(w, name)
    requires Accumulated(base.shape, name, xs, v, |xs|) == Accumulated(base.shape, name, ys, w, |ys|)
    ensures TensorStep(base, name, xs, v, lr, beta, m) == TensorStep(base, name, ys, w, lr, beta, m)
  {
    hide OuterTensor, Accumulated, WeightSum;
  }

  lemma SameSteps(
    base: Adapter, xs: seq<Adapter>, v: seq<Weights>, ys: seq<Adapter>, w: seq<Weights>, mode: string, lr: real,
    beta: real, momentum: Option<Adapter>)
    requires |xs| == |v| && |ys| == |w|
    requires var m := StartMomentum(base, beta, momentum);
      forall name :: name in base && name in m ==>
        TensorStep(base[name], name, xs, v, lr, beta, m[name]) == TensorStep(base[name], name, ys, w, lr, beta, m[name])
    ensures Combined(base, xs, v, mode, lr, beta, momentum) == Combined(base, ys, w, mode, lr, beta, momentum)
  {
    hide TensorStep, StartMomentum;
    var left := Combined(base, xs, v, mode, lr, beta, momentum);
    var right := Combined(base, ys, w, mode, lr, beta, momentum);
    if left.Some? {
      assert left.value.adapter == right.value.adapter;
      if beta != 0.0 {
        assert left.value.momentum.value == right.value.momentum.value;
      }
    }
  }

  /** The order in which a round's work was received changes nothing: not the shares, not the
      published adapter, not the momentum, and not whether publishing fails. */
  lemma OrderDoesNotMatter(
    base: Adapter, xs: seq<Contribution>, ys: seq<Contribution>, cap: Option<real>, mode: string, lr: real, beta: real,
    momentum: Option<Adapter>)
    requires multiset(xs) == multiset(ys) && AllWorkFits(xs, base)
    ensures Published(base, xs, cap, mode, lr, beta, momentum) == Published(base, ys, cap, mode, lr, beta, momentum)
  {
    hide FinalShares, Spread, Combined, Adapters, Map, AllFit, Accumulated, WeightSum;
    FitFollows(xs, ys, base);
    SameLength(xs, ys);
    var share := SharesFollow(xs, ys, cap);
    if SharesOf(xs, cap).Some? {
      var v, w := Spread(Map(share, xs), base.Keys), Spread(Map(share, ys), base.Keys);
      SpreadLength(Map(share, xs), base.Keys);
      SpreadLength(Map(share, ys), base.Keys);
      forall name | name in base
        ensures WeightSum(v, name) == WeightSum(w, name)
        ensures Accumulated(base[name].shape, name, Adapters(xs), v, |xs|) == Accumulated(base[name].shape, name, Adapters(ys), w, |ys|)
      {
        WeightSumFollows(share, xs, ys, base.Keys, name);
        AccumulatedFollows(share, xs, ys, base, name);
      }
      CombinedFollows(base, Adapters(xs), v, Adapters(ys), w, mode, lr, beta, momentum);
    }
  }

  lemma FitFollows(xs: seq<Contribution>, ys: seq<Contribution>, base: Adapter)
    requires multiset(xs) == multiset(ys) && AllWorkFits(xs, base)
    ensures AllWorkFits(ys, base)
  {
    hide Fits;
    forall j | 0 <= j < |Adapters(ys)| ensures Fits(Adapters(ys)[j], base) {
      assert ys[j] in multiset(ys);
      assert ys[j] in multiset(xs);
      var i :| 0 <= i < |xs| && xs[i] == ys[j];
      assert Adapters(xs)[i] == ys[j].adapter;
    }
  }

  // ---- the plain mean ----------------------------------------------------------

  ghost predicate CellsBetween(adapters: seq<Adapter>, name: string, c: nat, low: real, high: real)
    requires AllHave(adapters, name, c)
  {
    forall i :: 0 <= i < |adapters| ==> low <= Cell(adapters[i], name, c) <= high
  }

  /** A value x held with weight d. */
  function Held(x: real, d: real): real {
    x * d
  }

  lemma {:induction false} WeightedSumBetween(
    name: string, c: nat, adapters: seq<Adapter>, weights: seq<Weights>, n: nat, low: real, high: real)
    requires n <= |adapters| == |weights| && AllHave(adapters, name, c) && CellsBetween(adapters, name, c, low, high)
    requires forall i :: 0 <= i < |weights| ==> WeightOf(weights[i], name) >= 0.0
    ensures Held(low, WeightSum(weights[..n], name)) <= WeightedSum(name, c, adapters, weights, n)
    ensures WeightedSum(name, c, adapters, weights, n) <= Held(high, WeightSum(weights[..n], name))
  {
    hide WeightOf, HasCell, Cell, Held;
    if n == 0 {
      HeldByNone(low);
      HeldByNone(high);
    } else {
      WeightedSumBetween(name, c, adapters, weights, n - 1, low, high);
      assert weights[..n][..n - 1] == weights[..n - 1];
      TermBetween(WeightSum(weights[..n - 1], name), WeightOf(weights[n - 1], name), Cell(adapters[n - 1], name, c), low, high);
    }
  }

  lemma HeldByNone(x: real)
    ensures Held(x, 0.0) == 0.0
  {
  }

  lemma TermBetween(before: real, wt: real, x: real, low: real, high: real)
    requires wt >= 0.0 && low <= x <= high
    ensures Held(low, before + wt) <= Held(low, before) + wt * x
    ensures Held(high, before) + wt * x <= Held(high, before + wt)
  {
    assert wt * (x - low) >= 0.0 && wt * (high - x) >= 0.0;
  }

  lemma QuotientBetween(total: real, d: real, low: real, high: real)
    requires d > 0.0 && Held(low, d) <= total <= Held(high, d)
    ensures low <= total / d <= high
  {
    var q := total / d;
    assert q * d == total;
    NonNegativeFactor(q - low, d);
    NonNegativeFactor(high - q, d);
  }

  lemma NonNegativeFactor(a: real, d: real)
    requires d > 0.0 && a * d >= 0.0
    ensures a >= 0.0
  {
  }

  /** In mean mode a step publishes the weighted mean, which lies between the smallest and the
      largest value submitted for that cell. */
  lemma {:induction false} PlainMeanIsBetween(
    base: Adapter, adapters: seq<Adapter>, weights: seq<Weights>, mode: string, name: string, c: nat, low: real, high: real)
    requires GoodInputs(base, adapters, weights, mode, None) && InBase(base, name, c)
    requires (forall i :: 0 <= i < |weights| ==> WeightOf(weights[i], name) >= 0.0) && WeightSum(weights, name) > 0.0
    requires AllHave(adapters, name, c) && CellsBetween(adapters, name, c, low, high)
    ensures var r := Combined(base, adapters, weights, mode, 1.0, 0.0, None);
      && r.Some? && r.value.momentum.None? && HasCell(r.value.adapter, name, c)
      && Cell(r.value.adapter, name, c) == MeanCell(name, c, adapters, weights)
      && low <= Cell(r.value.adapter, name, c) <= high
  {
    hide Combined, StartMomentum, WeightedSum, WeightSum, GoodInputs, Held;
    GoodLengths(base, adapters, weights, mode);
    CombinedCell(base, adapters, weights, mode, 1.0, 0.0, None, name, c);
    WeightedSumBetween(name, c, adapters, weights, |adapters|, low, high);
    assert weights[..|adapters|] == weights;
    QuotientBetween(WeightedSum(name, c, adapters, weights, |adapters|), WeightSum(weights, name), low, high);
  }

  lemma GoodLengths(base: Adapter, adapters: seq<Adapter>, weights: seq<Weights>, mode: string)
    requires GoodInputs(base, adapters, weights, mode, None)
    ensures |adapters| == |weights|
  {
  }
}
