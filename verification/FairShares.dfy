/** What a worker's share is worth: its steps, up to the cap, over everybody's. */
module FairShares {
  import opened Wrappers
  import opened RealSeqs
  import opened DominanceCap

  // ---- quotients ---------------------------------------------------------------

  lemma QuotientTimes(x: real, d: real)
    requires d != 0.0
    ensures (x / d) * d == x
  {
  }

  function Quotient(x: real, d: real): real
    requires d != 0.0
  {
    x / d
  }

  lemma DividedAt(xs: seq<real>, d: real, i: nat)
    requires d != 0.0 && i < |xs|
    ensures Divide(xs, d)[i] == Quotient(xs[i], d)
  {
  }

  // ---- nobody is capped ------------------------------------------------------

  /** With no cap or fewer than three workers, a share is the worker's steps over everybody's. */
  lemma SharesAreProportional(steps: seq<int>, cap: Option<real>)
    requires FinalShares(steps, cap).Some? && (cap.None? || |steps| < 3)
    ensures |FinalShares(steps, cap).value| == |steps|
    ensures forall i :: 0 <= i < |steps| ==> FinalShares(steps, cap).value[i] * IntSum(steps) as real == steps[i] as real
  {
    hide IntSum, Divide, Passes;
    var total, xs := IntSum(steps) as real, Reals(steps);
    forall i | 0 <= i < |steps| ensures Divide(xs, total)[i] * total == steps[i] as real {
      DividedAt(xs, total, i);
      QuotientTimes(xs[i], total);
    }
  }

  // ---- somebody is capped ----------------------------------------------------

  /** The steps that count once the cap is applied to them. */
  function Credited(steps: seq<int>, cap: real): (r: seq<real>)
    requires steps != []
    ensures |r| == |steps|
  {
    var bound := cap * Median(Reals(steps));
    seq(|steps|, i requires 0 <= i < |steps| => if steps[i] as real <= bound then steps[i] as real else bound)
  }

  lemma ClampScales(u: real, xs: seq<real>, bound: real)
    requires u > 0.0
    ensures Clamp(Scale(u, xs), u * bound) == Scale(u, Clamp(xs, bound))
  {
    forall i | 0 <= i < |xs| ensures Clamp(Scale(u, xs), u * bound)[i] == Scale(u, Clamp(xs, bound))[i] {
      ScalingIsStrict(u, xs[i], bound);
    }
  }

  lemma Cancelled(u: real, x: real, d: real, y: real, e: real)
    requires u > 0.0 && d != 0.0 && y == u * x && e == u * d
    ensures e != 0.0 && Quotient(y, e) == Quotient(x, d)
  {
    ProductNotZero(u, d);
    var q := x / d;
    QuotientTimes(x, d);
    assert y == q * e;
    QuotientOf(q, e);
  }

  lemma ProductNotZero(u: real, d: real)
    requires u > 0.0 && d != 0.0
    ensures u * d != 0.0
  {
    if d > 0.0 { PositiveProduct(u, d); } else { PositiveProduct(u, -d); }
  }

  lemma QuotientOf(q: real, d: real)
    requires d != 0.0
    ensures (q * d) / d == q
  {
  }

  /** Scaling both a sequence and what divides it changes nothing. */
  lemma ScaledQuotients(u: real, xs: seq<real>, d: real, e: real)
    requires u > 0.0 && d != 0.0 && e == u * d
    ensures e != 0.0 && Divide(Scale(u, xs), e) == Divide(xs, d)
  {
    hide Divide, Quotient;
    Cancelled(u, 1.0, d, u, e);
    forall i | 0 <= i < |xs| ensures Divide(Scale(u, xs), e)[i] == Divide(xs, d)[i] {
      Cancelled(u, xs[i], d, Scale(u, xs)[i], e);
      DividedAt(Scale(u, xs), e, i);
      DividedAt(xs, d, i);
    }
  }

  lemma LimitIsMedian(xs: seq<real>, cap: real)
    requires xs != []
    ensures Limit(xs, cap) == cap * Median(xs)
  {
  }

  lemma CreditedIsClamped(steps: seq<int>, cap: real, bound: real)
    requires steps != [] && bound == cap * Median(Reals(steps))
    ensures Clamp(Reals(steps), bound) == Credited(steps, cap)
  {
    hide Median;
  }

  /** One pass over the shares gives out the credited steps. */
  lemma PassCredits(steps: seq<int>, cap: real)
    requires steps != [] && IntSum(steps) > 0 && Pass(Shares(steps), cap).Some?
    ensures Sum(Credited(steps, cap)) != 0.0
    ensures Pass(Shares(steps), cap).value == Divide(Credited(steps, cap), Sum(Credited(steps, cap)))
  {
    hide Median, Sum, IntSum, Divide, Limit, Clamp, Reals, Scale, Credited;
    var total, xs, c := IntSum(steps) as real, Reals(steps), Credited(steps, cap);
    var u, bound := 1.0 / total, Limit(xs, cap);
    DivideIsScale(xs, total);
    LimitScales(u, xs, cap);
    ClampScales(u, xs, bound);
    LimitIsMedian(xs, cap);
    CreditedIsClamped(steps, cap, bound);
    SumScale(u, c);
    ScaledPass(u, xs, c, cap, bound);
  }

  lemma ScaledPass(u: real, xs: seq<real>, c: seq<real>, cap: real, bound: real)
    requires u > 0.0 && xs != [] && Pass(Scale(u, xs), cap).Some? && Limit(Scale(u, xs), cap) == u * bound
    requires Clamp(Scale(u, xs), u * bound) == Scale(u, c) && Sum(Scale(u, c)) == u * Sum(c)
    ensures Sum(c) != 0.0 && Pass(Scale(u, xs), cap).value == Divide(c, Sum(c))
  {
    hide Sum, Divide, Limit, Clamp, Scale;
    ScaledQuotients(u, c, Sum(c), Sum(Scale(u, c)));
  }

  /** Under a cap that suits the cohort, a share is the worker's credited steps over everybody's. */
  lemma {:induction false} CappedSharesAreCredited(steps: seq<int>, cap: real)
    requires |steps| >= 3 && (forall i :: 0 <= i < |steps| ==> steps[i] > 0) && CapSuits(|steps|, cap)
    ensures FinalShares(steps, Some(cap)).Some? && |FinalShares(steps, Some(cap)).value| == |steps|
    ensures var r, total := FinalShares(steps, Some(cap)).value, Sum(Credited(steps, cap));
      total > 0.0 && forall i :: 0 <= i < |steps| ==> r[i] * total == Credited(steps, cap)[i]
  {
    hide Pass, Shares, Sum, IntSum, Median, Capped, SameOrder, Credited;
    CapHoldsFinally(steps, cap);
    PassCredits(steps, cap);
    var c, r := Credited(steps, cap), FinalShares(steps, Some(cap)).value;
    forall i | 0 <= i < |steps| ensures r[i] * Sum(c) == c[i] {
      QuotientTimes(c[i], Sum(c));
    }
    CreditedIsPositive(steps, cap);
    SumPositive(c);
  }

  lemma CreditedIsPositive(steps: seq<int>, cap: real)
    requires |steps| >= 3 && (forall i :: 0 <= i < |steps| ==> steps[i] > 0) && CapSuits(|steps|, cap)
    ensures Positive(Credited(steps, cap))
  {
    hide Median;
    assert Positive(Reals(steps));
    LimitIsPositive(Reals(steps), cap);
    LimitIsMedian(Reals(steps), cap);
  }

  /** Whether a worker's steps exceed the cap times the cohort's median. */
  ghost predicate OverCap(steps: seq<int>, cap: real, i: nat)
    requires i < |steps|
  {
    steps[i] as real > cap * Median(Reals(steps))
  }

  /** Two workers that are not over the cap keep the ratio of their steps, and all that are over it
      get one share, which is larger than what anybody else gets. */
  lemma {:induction false} CapKeepsRatios(steps: seq<int>, cap: real, i: nat, j: nat)
    requires |steps| >= 3 && (forall k :: 0 <= k < |steps| ==> steps[k] > 0) && CapSuits(|steps|, cap)
    requires i < |steps| && j < |steps|
    ensures FinalShares(steps, Some(cap)).Some? && |FinalShares(steps, Some(cap)).value| == |steps|
    ensures var r := FinalShares(steps, Some(cap)).value;
      && (!OverCap(steps, cap, i) && !OverCap(steps, cap, j) ==> r[i] * steps[j] as real == r[j] * steps[i] as real)
      && (OverCap(steps, cap, i) && OverCap(steps, cap, j) ==> r[i] == r[j])
      && (OverCap(steps, cap, i) && !OverCap(steps, cap, j) ==> r[j] <= r[i])
  {
    hide FinalShares, Sum, Median;
    CappedSharesAreCredited(steps, cap);
    var r, c, total := FinalShares(steps, Some(cap)).value, Credited(steps, cap), Sum(Credited(steps, cap));
    SameScale(r[i], r[j], c[i], c[j], total);
  }

  lemma SameScale(a: real, b: real, x: real, y: real, total: real)
    requires total > 0.0 && a * total == x && b * total == y
    ensures a * y == b * x && (x == y ==> a == b) && (y <= x ==> b <= a)
  {
    assert a * y == a * (b * total) == b * (a * total);
    if y <= x && b > a { PositiveProduct(b - a, total); }
    if x == y && a > b { PositiveProduct(a - b, total); }
  }

  // ---- any cap ---------------------------------------------------------------

  ghost predicate AllPositive(steps: seq<int>) {
    forall i :: 0 <= i < |steps| ==> steps[i] > 0
  }

  /** Shares in proportion to the steps, none counted for more than the bound. */
  ghost predicate Clips(r: seq<real>, steps: seq<int>, bound: real) {
    var c := Clamp(Reals(steps), bound);
    bound > 0.0 && Sum(c) > 0.0 && r == Divide(c, Sum(c))
  }

  lemma ClampTwice(xs: seq<real>, a: real, b: real)
    ensures Clamp(Clamp(xs, a), b) == Clamp(xs, if b <= a then b else a)
  {
  }

  lemma ClampedSum(steps: seq<int>, bound: real)
    requires steps != [] && AllPositive(steps) && bound > 0.0
    ensures Positive(Clamp(Reals(steps), bound)) && Sum(Clamp(Reals(steps), bound)) > 0.0
  {
    ClampBelow(Reals(steps), bound);
    SumPositive(Clamp(Reals(steps), bound));
  }

  lemma UndoScale(u: real, d: real, x: real)
    requires d > 0.0 && u * d == 1.0
    ensures u > 0.0 && u * (x * d) == x && (x > 0.0 ==> x * d > 0.0)
  {
    if u <= 0.0 { NoPositiveProduct(u, d); }
    assert u * (x * d) == x * (u * d);
    if x > 0.0 { PositiveProduct(x, d); }
  }

  lemma NoPositiveProduct(u: real, d: real)
    requires u <= 0.0 && d > 0.0
    ensures u * d <= 0.0
  {
  }

  lemma PassClips(r: seq<real>, steps: seq<int>, cap: real, bound: real) returns (tighter: real)
    requires steps != [] && AllPositive(steps) && cap > 0.0 && Clips(r, steps, bound)
    ensures |r| == |steps| && Pass(r, cap).Some? && Clips(Pass(r, cap).value, steps, tighter)
  {
    hide Sum, Clamp, Divide, Limit, Reals, Scale, AllPositive, Positive;
    var xs := Reals(steps);
    var c := Clamp(xs, bound);
    var u := 1.0 / Sum(c);
    DivideIsScale(c, Sum(c));
    ClampedSum(steps, bound);
    ScalePositive(u, c);
    LimitIsPositive(r, cap);
    var limit := Limit(r, cap);
    UndoScale(u, Sum(c), limit);
    var cut := limit * Sum(c);
    ClampScales(u, c, cut);
    ClampTwice(xs, bound, cut);
    tighter := if cut <= bound then cut else bound;
    ClampedSum(steps, tighter);
    var next := Clamp(xs, tighter);
    SumScale(u, next);
    ProductNotZero(u, Sum(next));
    assert limit == u * cut;
    assert Clamp(c, cut) == next;
    assert Clamp(r, limit) == Scale(u, next);
    assert Pass(r, cap) == Some(Divide(Scale(u, next), Sum(Scale(u, next))));
    ScaledQuotients(u, next, Sum(next), Sum(Scale(u, next)));
  }

  lemma {:induction false} PassesClip(r: seq<real>, steps: seq<int>, cap: real, bound: real, n: nat) returns (tighter: real)
    requires steps != [] && AllPositive(steps) && cap > 0.0 && Clips(r, steps, bound)
    ensures |r| == |steps| && Passes(r, cap, n).Some? && Clips(Passes(r, cap, n).value, steps, tighter)
    decreases n
  {
    hide Pass, Settled, Clamp, Sum, Reals, AllPositive;
    tighter := bound;
    if n > 0 {
      tighter := PassClips(r, steps, cap, bound);
      var next := Pass(r, cap).value;
      if !Settled(next, r) { tighter := PassesClip(next, steps, cap, tighter, n - 1); }
    }
  }

  lemma {:induction false} BelowTotal(steps: seq<int>, i: nat)
    requires AllPositive(steps) && i < |steps|
    ensures 0 < steps[i] <= IntSum(steps)
  {
    PositiveIntSum(steps[1..]);
    if i > 0 { BelowTotal(steps[1..], i - 1); }
  }

  lemma TotalClipsNothing(steps: seq<int>)
    requires steps != [] && AllPositive(steps)
    ensures IntSum(steps) > 0 && Clips(Shares(steps), steps, IntSum(steps) as real)
  {
    hide IntSum, Sum;
    PositiveIntSum(steps);
    forall i | 0 <= i < |steps| ensures steps[i] <= IntSum(steps) {
      BelowTotal(steps, i);
    }
    assert Clamp(Reals(steps), IntSum(steps) as real) == Reals(steps);
    SumOfReals(steps);
  }

  /** Whatever the cap and however many passes: some bound on the steps that count, and every share is
      the worker's steps up to that bound, over everybody's. */
  lemma {:induction false} SharesFollowSteps(steps: seq<int>, cap: Option<real>) returns (bound: real)
    requires steps != [] && AllPositive(steps) && (cap.Some? ==> cap.value > 0.0)
    ensures FinalShares(steps, cap).Some? && |FinalShares(steps, cap).value| == |steps|
    ensures var r, c := FinalShares(steps, cap).value, Clamp(Reals(steps), bound);
      bound > 0.0 && Sum(c) > 0.0 && forall i :: 0 <= i < |steps| ==> r[i] * Sum(c) == c[i]
  {
    hide IntSum, Sum, Shares, Passes, Clamp, Reals, AllPositive;
    TotalClipsNothing(steps);
    bound := IntSum(steps) as real;
    if cap.Some? && |steps| >= 3 { bound := PassesClip(Shares(steps), steps, cap.value, bound, 10); }
    var c, r := Clamp(Reals(steps), bound), FinalShares(steps, cap).value;
    forall i | 0 <= i < |steps| ensures r[i] * Sum(c) == c[i] {
      DividedAt(c, Sum(c), i);
      QuotientTimes(c[i], Sum(c));
    }
  }
}
