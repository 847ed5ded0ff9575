/** Aggregation weights: each worker's share of the steps, with the dominant shares capped
    against the cohort's median. */
module DominanceCap {
  import opened Wrappers
  import opened RealSeqs

  function IntSum(xs: seq<int>): int {
    if xs == [] then 0 else xs[0] + IntSum(xs[1..])
  }

  function Divide(xs: seq<real>, d: real): (r: seq<real>)
    requires d != 0.0
    ensures |r| == |xs|
  {
    Map(x => x / d, xs)
  }

  function Clamp(xs: seq<real>, limit: real): (r: seq<real>)
    ensures |r| == |xs|
  {
    Map(x => if x <= limit then x else limit, xs)
  }

  function Reals(steps: seq<int>): (r: seq<real>)
    ensures |r| == |steps|
  {
    seq(|steps|, i requires 0 <= i < |steps| => steps[i] as real)
  }

  function Shares(steps: seq<int>): (r: seq<real>)
    requires IntSum(steps) != 0
    ensures |r| == |steps|
  {
    Divide(Reals(steps), IntSum(steps) as real)
  }

  /** No share may exceed this multiple of the median share. */
  function Limit(shares: seq<real>, cap: real): real
    requires shares != []
  {
    LimitOf(Sorted(shares), cap)
  }

  function LimitOf(sorted: seq<real>, cap: real): real
    requires sorted != []
  {
    cap * Middle(sorted)
  }

  /** One clamp-then-renormalize pass; None is a division by zero. */
  function Pass(shares: seq<real>, cap: real): Option<seq<real>>
    requires shares != []
  {
    var clamped := Clamp(shares, Limit(shares, cap));
    if Sum(clamped) == 0.0 then None else Some(Divide(clamped, Sum(clamped)))
  }

  predicate Settled(xs: seq<real>, ys: seq<real>)
    requires |xs| == |ys|
  {
    forall i | 0 <= i < |xs| :: -0.000000001 < xs[i] - ys[i] < 0.000000001
  }

  function Passes(shares: seq<real>, cap: real, n: nat): Option<seq<real>>
    requires shares != []
    decreases n
  {
    if n == 0 then Some(shares)
    else
      match Pass(shares, cap)
      case None => None
      case Some(next) => if Settled(next, shares) then Some(next) else Passes(next, cap, n - 1)
  }

  /** The final share of each worker; None when the source raises. */
  function FinalShares(steps: seq<int>, cap: Option<real>): Option<seq<real>> {
    if IntSum(steps) == 0 then None
    else if cap.None? || |steps| < 3 then Some(Shares(steps))
    else Passes(Shares(steps), cap.value, 10)
  }

  /** The weights combine() takes: every tensor of a worker gets the worker's share. */
  function Spread(shares: seq<real>, keys: set<string>): seq<map<string, real>> {
    seq(|shares|, i requires 0 <= i < |shares| => map key | key in keys :: shares[i])
  }

  method DenseWeights(steps: seq<int>, keys: set<string>, cap: Option<real>)
    returns (r: Option<seq<map<string, real>>>)
    ensures r.Some? <==> FinalShares(steps, cap).Some?
    ensures r.Some? ==> r.value == Spread(FinalShares(steps, cap).value, keys)
  {
    var total := 0;
    for i := 0 to |steps|
      invariant total + IntSum(steps[i..]) == IntSum(steps)
    {
      total := total + steps[i];
    }
    if total == 0 { return None; }
    var shares := Shares(steps);
    if cap.Some? && |steps| >= 3 {
      var pass := 0;
      while pass < 10
        invariant 0 <= pass <= 10 && |shares| == |steps|
        invariant Passes(shares, cap.value, 10 - pass) == FinalShares(steps, cap)
      {
        hide Pass, Settled;
        var renormalized := Pass(shares, cap.value);
        if renormalized.None? { return None; }
        if Settled(renormalized.value, shares) {
          shares := renormalized.value;
          break;
        }
        shares, pass := renormalized.value, pass + 1;
      }
    }
    return Some(Spread(shares, keys));
  }

  // ---- what the cap guarantees ---------------------------------------------

  ghost predicate Positive(xs: seq<real>) {
    forall i :: 0 <= i < |xs| ==> xs[i] > 0.0
  }

  ghost predicate SameOrder(xs: seq<real>, ys: seq<real>)
    requires |xs| == |ys|
  {
    forall i, j :: 0 <= i < |xs| && 0 <= j < |xs| && xs[i] <= xs[j] ==> ys[i] <= ys[j]
  }

  ghost predicate Capped(xs: seq<real>, cap: real)
    requires xs != []
  {
    forall i :: 0 <= i < |xs| ==> xs[i] <= Limit(xs, cap)
  }

  /** When the median survives its own clamp. */
  ghost predicate CapSuits(n: nat, cap: real) {
    cap >= 2.0 || (n % 2 == 1 && cap >= 1.0)
  }

  lemma Reciprocal(x: real, d: real)
    requires d != 0.0
    ensures x / d == (1.0 / d) * x && (d > 0.0 ==> 1.0 / d > 0.0) && (1.0 / d) * d == 1.0
  {
  }

  lemma DivideIsScale(xs: seq<real>, d: real)
    requires d != 0.0
    ensures (d > 0.0 ==> 1.0 / d > 0.0) && (1.0 / d) * d == 1.0
    ensures Divide(xs, d) == Scale(1.0 / d, xs)
  {
    Reciprocal(1.0, d);
    forall i | 0 <= i < |xs| ensures Divide(xs, d)[i] == Scale(1.0 / d, xs)[i] {
      Reciprocal(xs[i], d);
    }
  }

  lemma SortedPositive(xs: seq<real>)
    requires Positive(xs)
    ensures Positive(Sorted(xs)) && Ascending(Sorted(xs))
  {
    SortedSorts(xs);
    hide Sorted;
    var s := Sorted(xs);
    forall i | 0 <= i < |s| ensures s[i] > 0.0 {
      assert s[i] in multiset(s);
      assert s[i] in xs;
    }
  }

  lemma MiddleBounds(s: seq<real>)
    requires s != [] && Positive(s)
    ensures Middle(s) > 0.0 && s[|s| / 2] <= 2.0 * Middle(s)
    ensures |s| % 2 == 1 ==> Middle(s) == s[|s| / 2]
  {
  }

  lemma MiddleUnderLimit(m: real, x: real, cap: real, odd: bool)
    requires m > 0.0 && x <= 2.0 * m && (odd ==> x == m) && (cap >= 2.0 || (odd && cap >= 1.0))
    ensures x <= cap * m
  {
  }

  lemma MiddleClears(s: seq<real>, cap: real)
    requires s != [] && Positive(s) && CapSuits(|s|, cap)
    ensures s[|s| / 2] <= LimitOf(s, cap)
  {
    MiddleBounds(s);
    hide Middle, Positive;
    MiddleUnderLimit(Middle(s), s[|s| / 2], cap, |s| % 2 == 1);
  }

  lemma LimitOfPositive(s: seq<real>, cap: real)
    requires s != [] && Positive(s) && CapSuits(|s|, cap)
    ensures LimitOf(s, cap) > 0.0
  {
    MiddleBounds(s);
    hide Middle, Positive;
    PositiveProduct(cap, Middle(s));
  }

  lemma LimitClearsMiddle(xs: seq<real>, cap: real)
    requires xs != [] && Positive(xs) && CapSuits(|xs|, cap)
    ensures Sorted(xs)[|xs| / 2] <= Limit(xs, cap)
    ensures Limit(xs, cap) > 0.0
  {
    hide LimitOf, Sorted;
    SortedPositive(xs);
    hide Positive;
    MiddleClears(Sorted(xs), cap);
    LimitOfPositive(Sorted(xs), cap);
  }

  lemma MiddleOfMap(f: real -> real, s: seq<real>)
    requires s != [] && f(s[|s| / 2]) == s[|s| / 2]
    requires |s| % 2 == 0 ==> f(s[|s| / 2 - 1]) == s[|s| / 2 - 1]
    ensures Middle(Map(f, s)) == Middle(s)
  {
  }

  lemma ClampKeepsMedian(xs: seq<real>, limit: real)
    requires xs != [] && Sorted(xs)[|xs| / 2] <= limit
    ensures Median(Clamp(xs, limit)) == Median(xs)
  {
    var f := (x: real) => if x <= limit then x else limit;
    SortedSorts(xs);
    SortedMapped(f, xs);
    MiddleOfMap(f, Sorted(xs));
    hide Sorted, Middle;
    assert Clamp(xs, limit) == Map(f, xs);
  }

  lemma DividedByTotal(xs: seq<real>, total: real)
    requires total > 0.0 && Positive(xs) && Sum(xs) == total
    ensures Positive(Divide(xs, total)) && Sum(Divide(xs, total)) == 1.0
  {
    DivideIsScale(xs, total);
    SumScale(1.0 / total, xs);
    ScalePositive(1.0 / total, xs);
    hide Sum, Positive, Divide, Scale;
  }

  lemma SharesSumToOne(steps: seq<int>)
    requires steps != [] && forall i :: 0 <= i < |steps| ==> steps[i] > 0
    ensures IntSum(steps) > 0 && Positive(Shares(steps)) && Sum(Shares(steps)) == 1.0
  {
    PositiveIntSum(steps);
    SumOfReals(steps);
    assert Positive(Reals(steps));
    DividedByTotal(Reals(steps), IntSum(steps) as real);
    hide Sum, IntSum, Positive, Divide, Reals;
  }

  lemma ScalePositive(u: real, xs: seq<real>)
    requires u > 0.0 && Positive(xs)
    ensures Positive(Scale(u, xs))
  {
    forall i | 0 <= i < |xs| ensures Scale(u, xs)[i] > 0.0 {
      PositiveProduct(u, xs[i]);
    }
  }

  lemma PositiveProduct(a: real, b: real)
    requires a > 0.0 && b > 0.0
    ensures a * b > 0.0
  {
  }

  lemma {:induction false} SumOfReals(steps: seq<int>)
    ensures Sum(Reals(steps)) == IntSum(steps) as real
  {
    if steps != [] {
      assert Reals(steps)[1..] == Reals(steps[1..]);
      SumOfReals(steps[1..]);
    }
  }

  lemma {:induction false} PositiveIntSum(steps: seq<int>)
    requires forall i :: 0 <= i < |steps| ==> steps[i] > 0
    ensures IntSum(steps) >= 0 && (steps != [] ==> IntSum(steps) > 0)
  {
    if steps != [] {
      PositiveIntSum(steps[1..]);
    }
  }

  lemma ScaleKeepsOrder(u: real, xs: seq<real>)
    requires u > 0.0
    ensures SameOrder(xs, Scale(u, xs))
  {
    var r := Scale(u, xs);
    forall i, j | 0 <= i < |xs| && 0 <= j < |xs| && xs[i] <= xs[j] ensures r[i] <= r[j] {
      ScalingIsMonotone(u, xs[i], xs[j]);
    }
  }

  lemma Distributes(cap: real, u: real, m: real)
    ensures cap * (u * m) == u * (cap * m)
  {
  }

  lemma LimitScales(u: real, xs: seq<real>, cap: real)
    requires xs != [] && u > 0.0
    ensures Limit(Scale(u, xs), cap) == u * Limit(xs, cap)
  {
    MedianScales(u, xs);
    hide Median, Scale;
    Distributes(cap, u, Median(xs));
  }

  lemma ScaleKeepsBound(u: real, xs: seq<real>, limit: real, i: nat)
    requires u > 0.0 && i < |xs|
    ensures Scale(u, xs)[i] <= u * limit <==> xs[i] <= limit
  {
    ScalingIsStrict(u, xs[i], limit);
  }

  lemma ScaleKeepsCap(u: real, xs: seq<real>, cap: real)
    requires xs != [] && u > 0.0
    ensures Capped(Scale(u, xs), cap) <==> Capped(xs, cap)
  {
    LimitScales(u, xs, cap);
    hide Limit, Scale;
    var r, limit := Scale(u, xs), Limit(xs, cap);
    var bound := Limit(r, cap);
    forall i | 0 <= i < |xs| ensures r[i] <= bound <==> xs[i] <= limit {
      ScaleKeepsBound(u, xs, limit, i);
    }
  }

  lemma ScalingIsStrict(u: real, x: real, y: real)
    requires u > 0.0
    ensures u * x <= u * y <==> x <= y
  {
    if x > y {
      PositiveProduct(u, x - y);
    }
  }

  lemma ClampedShares(xs: seq<real>, cap: real)
    requires xs != [] && Positive(xs) && CapSuits(|xs|, cap)
    ensures var c := Clamp(xs, Limit(xs, cap)); Positive(c) && SameOrder(xs, c) && Capped(c, cap)
  {
    LimitClearsMiddle(xs, cap);
    hide Sorted, Positive, SameOrder, Clamp;
    var limit := Limit(xs, cap);
    ClampKeepsMedian(xs, limit);
    assert Limit(Clamp(xs, limit), cap) == limit;
    hide Limit;
    ClampBelow(xs, limit);
  }

  lemma ClampBelow(xs: seq<real>, limit: real)
    requires Positive(xs) && limit > 0.0
    ensures var c := Clamp(xs, limit);
      Positive(c) && SameOrder(xs, c) && forall i :: 0 <= i < |c| ==> c[i] <= limit
  {
  }

  lemma OrderChains(xs: seq<real>, ys: seq<real>, zs: seq<real>)
    requires |xs| == |ys| == |zs| && SameOrder(xs, ys) && SameOrder(ys, zs)
    ensures SameOrder(xs, zs)
  {
  }

  /** One pass over positive shares puts every share under the cap of the median of the
      shares it produces, keeps them positive, summing to one and in order. */
  lemma PassCaps(xs: seq<real>, cap: real)
    requires xs != [] && Positive(xs) && CapSuits(|xs|, cap)
    ensures Pass(xs, cap).Some?
    ensures var r := Pass(xs, cap).value;
      |r| == |xs| && Positive(r) && Sum(r) == 1.0 && SameOrder(xs, r) && Capped(r, cap)
  {
    var c := Clamp(xs, Limit(xs, cap));
    ClampedShares(xs, cap);
    SumPositive(c);
    DividedByTotal(c, Sum(c));
    DivideIsScale(c, Sum(c));
    var u := 1.0 / Sum(c);
    ScaleKeepsOrder(u, c);
    ScaleKeepsCap(u, c, cap);
    hide Capped, Positive, Sum, Limit, Clamp, Divide, Scale, SameOrder;
    OrderChains(xs, c, Scale(u, c));
    assert Pass(xs, cap) == Some(Divide(c, Sum(c)));
  }

  /** A pass changes nothing once the cap holds. */
  lemma PassSettles(r: seq<real>, cap: real)
    requires r != [] && Sum(r) == 1.0 && Capped(r, cap)
    ensures Pass(r, cap) == Some(r)
  {
    hide Sum, Limit;
    assert Clamp(r, Limit(r, cap)) == r;
    assert Divide(r, 1.0) == r;
  }

  /** The cap holds against the final distribution, and the first pass already reaches it. */
  lemma {:induction false} CapHoldsFinally(steps: seq<int>, cap: real)
    requires |steps| >= 3 && (forall i :: 0 <= i < |steps| ==> steps[i] > 0) && CapSuits(|steps|, cap)
    ensures IntSum(steps) > 0
    ensures FinalShares(steps, Some(cap)).Some?
    ensures FinalShares(steps, Some(cap)) == Pass(Shares(steps), cap)
    ensures var r := FinalShares(steps, Some(cap)).value;
      && |r| == |steps| && Positive(r) && Sum(r) == 1.0
      && SameOrder(Shares(steps), r) && Capped(r, cap) && Pass(r, cap) == Some(r)
  {
    SharesSumToOne(steps);
    hide Pass, Capped, Positive, SameOrder, Shares, Sum, IntSum, Median;
    var s := Shares(steps);
    PassCaps(s, cap);
    var r := Pass(s, cap).value;
    PassSettles(r, cap);
    PassesSettle(s, r, cap);
  }

  lemma PassesSettle(s: seq<real>, r: seq<real>, cap: real)
    requires s != [] && |r| == |s| && Pass(s, cap) == Some(r) && Pass(r, cap) == Some(r)
    ensures Passes(s, cap, 10) == Some(r)
  {
    hide Pass;
    assert Settled(r, r);
    assert Passes(r, cap, 9) == Some(r);
  }

  // ---- even cohorts under a cap below two ------------------------------------------

  /** h values a, then h values b. */
  function Halves<T>(h: nat, a: T, b: T): (r: seq<T>)
    ensures |r| == 2 * h
  {
    seq(2 * h, i requires 0 <= i < 2 * h => if i < h then a else b)
  }

  /** The upper half is over the cap, and stays there. */
  ghost predicate Apart(cap: real, a: real, b: real) {
    0.0 < a < b && cap * a < (2.0 - cap) * b
  }

  lemma MedianOfHalves(h: nat, a: real, b: real)
    requires h >= 1 && a < b
    ensures Median(Halves(h, a, b)) == (a + b) / 2.0
  {
    SortedOfAscending(Halves(h, a, b));
    hide Sorted;
  }

  function HalfLimit(cap: real, a: real, b: real): real {
    cap * ((a + b) / 2.0)
  }

  lemma LimitOfHalves(h: nat, a: real, b: real, cap: real)
    requires h >= 1 && a < b
    ensures Limit(Halves(h, a, b), cap) == HalfLimit(cap, a, b)
  {
    MedianOfHalves(h, a, b);
  }

  lemma LimitBetween(cap: real, a: real, b: real)
    requires 1.0 <= cap < 2.0 && Apart(cap, a, b)
    ensures a < HalfLimit(cap, a, b) < b && Apart(cap, a, HalfLimit(cap, a, b))
  {
    var l, gap := HalfLimit(cap, a, b), 2.0 - cap;
    assert l - (a + b) / 2.0 == (cap - 1.0) * ((a + b) / 2.0);
    CapTimes(cap, a, b);
    assert gap * b == 2.0 * b - cap * b;
    assert 2.0 * l == cap * a + cap * b;
    GapTimes(cap, a, b, l);
  }

  lemma CapTimes(cap: real, a: real, b: real)
    requires cap >= 1.0 && a > 0.0 && b > 0.0
    ensures (cap - 1.0) * ((a + b) / 2.0) >= 0.0
  {
  }

  lemma GapTimes(cap: real, a: real, b: real, l: real)
    requires 1.0 <= cap < 2.0 && cap * a < (2.0 - cap) * b && 2.0 * l == cap * a + cap * b
    ensures cap * a < (2.0 - cap) * l
  {
    var gap := 2.0 - cap;
    var slack := gap * b - cap * a;
    assert 2.0 * (gap * l) == gap * (cap * a + cap * b);
    assert gap * (cap * a + cap * b) == cap * (gap * a + gap * b);
    assert cap * (gap * a + gap * b) == cap * (gap * a + cap * a + slack);
    assert gap * a + cap * a == 2.0 * a;
    assert cap * (2.0 * a + slack) == 2.0 * (cap * a) + cap * slack;
    PositiveProduct(cap, slack);
  }

  lemma HalvesOverCap(h: nat, a: real, b: real, cap: real)
    requires h >= 1 && 1.0 <= cap < 2.0 && Apart(cap, a, b)
    ensures !Capped(Halves(h, a, b), cap)
  {
    LimitOfHalves(h, a, b, cap);
    LimitBetween(cap, a, b);
    hide Limit;
    assert Halves(h, a, b)[h] == b;
  }

  lemma ApartScales(cap: real, a: real, b: real, u: real)
    requires Apart(cap, a, b) && u > 0.0
    ensures Apart(cap, u * a, u * b)
  {
    PositiveProduct(u, a);
    PositiveProduct(u, b - a);
    PositiveProduct(u, (2.0 - cap) * b - cap * a);
    assert cap * (u * a) == u * (cap * a) && (2.0 - cap) * (u * b) == u * ((2.0 - cap) * b);
  }

  lemma HalvesDivide(h: nat, a: real, b: real, cap: real, d: real) returns (x: real, y: real)
    requires Apart(cap, a, b) && d > 0.0
    ensures Apart(cap, x, y) && Divide(Halves(h, a, b), d) == Halves(h, x, y)
  {
    x, y := a / d, b / d;
    Reciprocal(a, d);
    Reciprocal(b, d);
    ApartScales(cap, a, b, 1.0 / d);
  }

  lemma HalvesPositive(h: nat, a: real, b: real)
    requires h >= 1 && 0.0 < a < b
    ensures Sum(Halves(h, a, b)) > 0.0
  {
    PositiveSum(Halves(h, a, b));
  }

  /** A pass over apart halves leaves apart halves. */
  lemma PassKeepsApart(h: nat, a: real, b: real, cap: real) returns (x: real, y: real)
    requires h >= 1 && 1.0 <= cap < 2.0 && Apart(cap, a, b)
    ensures Apart(cap, x, y) && Pass(Halves(h, a, b), cap) == Some(Halves(h, x, y))
  {
    hide Sum, Limit, Divide, Apart;
    ApartMeans(cap, a, b);
    LimitOfHalves(h, a, b, cap);
    LimitBetween(cap, a, b);
    var l := HalfLimit(cap, a, b);
    assert Clamp(Halves(h, a, b), l) == Halves(h, a, l);
    ApartMeans(cap, a, l);
    HalvesPositive(h, a, l);
    x, y := HalvesDivide(h, a, l, cap, Sum(Halves(h, a, l)));
  }

  lemma ApartMeans(cap: real, a: real, b: real)
    requires Apart(cap, a, b)
    ensures 0.0 < a < b
  {
  }

  lemma {:induction false} PassesStayApart(h: nat, a: real, b: real, cap: real, n: nat) returns (x: real, y: real)
    requires h >= 1 && 1.0 <= cap < 2.0 && Apart(cap, a, b)
    ensures Apart(cap, x, y) && Passes(Halves(h, a, b), cap, n) == Some(Halves(h, x, y))
    decreases n
  {
    hide Pass, Settled, Apart, Halves;
    HalvesNonEmpty(h, a, b);
    x, y := a, b;
    if n > 0 {
      x, y := PassKeepsApart(h, a, b, cap);
      HalvesNonEmpty(h, x, y);
      if !Settled(Halves(h, x, y), Halves(h, a, b)) { x, y := PassesStayApart(h, x, y, cap, n - 1); }
    }
  }

  lemma HalvesNonEmpty(h: nat, a: real, b: real)
    requires h >= 1
    ensures |Halves(h, a, b)| == 2 * h && Halves(h, a, b) != []
  {
  }

  /** Step counts that a cap below two does not hold for: half the cohort far above the other half. */
  function UnevenSteps(h: nat, cap: real): seq<int>
    requires cap < 2.0
  {
    Halves(h, 1, (cap / (2.0 - cap)).Floor + 1)
  }

  lemma UnevenIsApart(cap: real)
    requires 1.0 <= cap < 2.0
    ensures var k := (cap / (2.0 - cap)).Floor + 1; k >= 2 && Apart(cap, 1.0, k as real)
  {
    var gap := 2.0 - cap;
    var q := cap / gap;
    var k := q.Floor + 1;
    assert gap * q == cap;
    assert k as real > q;
    PositiveProduct(gap, k as real - q);
    assert gap * (k as real) == gap * q + gap * (k as real - q);
    AtLeastOne(cap, gap, q);
  }

  lemma AtLeastOne(cap: real, gap: real, q: real)
    requires cap >= 1.0 && 0.0 < gap <= 1.0 && gap * q == cap
    ensures q >= 1.0
  {
    if q < 1.0 { PositiveProduct(gap, 1.0 - q); }
  }

  /** The shares can be computed, and none exceeds the cap of their own median. */
  ghost predicate KeepsCap(steps: seq<int>, cap: real) {
    match FinalShares(steps, Some(cap))
    case None => false
    case Some(r) => r != [] && Capped(r, cap)
  }

  lemma UnevenReals(h: nat, cap: real, k: int)
    requires cap < 2.0 && k == (cap / (2.0 - cap)).Floor + 1
    ensures Reals(UnevenSteps(h, cap)) == Halves(h, 1.0, k as real) && UnevenSteps(h, cap) == Halves(h, 1, k)
  {
  }

  /** With an even cohort every cap below two fails for some positive step counts: the final shares
      still exceed it. */
  lemma {:induction false} CapBelowTwoFails(h: nat, cap: real)
    requires h >= 2 && 1.0 <= cap < 2.0
    ensures |UnevenSteps(h, cap)| == 2 * h && forall i :: 0 <= i < 2 * h ==> UnevenSteps(h, cap)[i] > 0
    ensures FinalShares(UnevenSteps(h, cap), Some(cap)).Some? && !KeepsCap(UnevenSteps(h, cap), cap)
  {
    hide Passes, Capped, Apart, Sum, IntSum, Divide, UnevenSteps, Halves, Reals;
    var k := (cap / (2.0 - cap)).Floor + 1;
    UnevenIsApart(cap);
    UnevenReals(h, cap, k);
    HalvesOfInts(h, k);
    PositiveIntSum(UnevenSteps(h, cap));
    var a, b := HalvesDivide(h, 1.0, k as real, cap, IntSum(UnevenSteps(h, cap)) as real);
    HalvesNonEmpty(h, a, b);
    var x, y := PassesStayApart(h, a, b, cap, 10);
    HalvesOverCap(h, x, y, cap);
  }

  lemma HalvesOfInts(h: nat, k: int)
    requires h >= 1 && k >= 1
    ensures |Halves(h, 1, k)| == 2 * h && Halves(h, 1, k) != [] && forall i :: 0 <= i < 2 * h ==> Halves(h, 1, k)[i] > 0
  {
  }

  /** The cap holds of every cohort's final shares exactly when it is at least two or the cohort is
      odd. */
  lemma {:induction false} CapHoldsExactlyWhen(n: nat, cap: real)
    requires n >= 3 && cap >= 1.0
    ensures (forall steps: seq<int> :: |steps| == n && (forall i :: 0 <= i < n ==> steps[i] > 0) ==> KeepsCap(steps, cap))
       <==> cap >= 2.0 || n % 2 == 1
  {
    hide FinalShares, Capped, Sum, IntSum, Pass, UnevenSteps;
    if cap >= 2.0 || n % 2 == 1 {
      forall steps: seq<int> | |steps| == n && forall i :: 0 <= i < n ==> steps[i] > 0 ensures KeepsCap(steps, cap) {
        CapHoldsFinally(steps, cap);
      }
    } else {
      CapBelowTwoFails(n / 2, cap);
    }
  }

  // ---- no division by zero ---------------------------------------------------

  lemma PassSucceeds(xs: seq<real>, cap: real)
    requires xs != [] && Positive(xs) && cap > 0.0
    ensures Pass(xs, cap).Some? && |Pass(xs, cap).value| == |xs| && Positive(Pass(xs, cap).value)
  {
    hide Positive, Sum, Limit, Clamp, Sorted, Divide;
    var limit := Limit(xs, cap);
    LimitIsPositive(xs, cap);
    ClampBelow(xs, limit);
    var c := Clamp(xs, limit);
    PositiveSum(c);
    DividedByTotal(c, Sum(c));
  }

  lemma PositiveSum(xs: seq<real>)
    requires xs != [] && Positive(xs)
    ensures Sum(xs) > 0.0
  {
    SumPositive(xs);
  }

  lemma LimitIsPositive(xs: seq<real>, cap: real)
    requires xs != [] && Positive(xs) && cap > 0.0
    ensures Limit(xs, cap) > 0.0
  {
    hide Positive, Middle, Sorted;
    SortedPositive(xs);
    MiddleBounds(Sorted(xs));
    PositiveProduct(cap, Middle(Sorted(xs)));
  }

  lemma {:induction false} PassesSucceed(xs: seq<real>, cap: real, n: nat)
    requires xs != [] && Positive(xs) && cap > 0.0
    ensures Passes(xs, cap, n).Some? && |Passes(xs, cap, n).value| == |xs| && Positive(Passes(xs, cap, n).value)
    decreases n
  {
    hide Pass, Positive, Settled;
    if n > 0 {
      PassSucceeds(xs, cap);
      var next := Pass(xs, cap).value;
      PassesSucceed(next, cap, n - 1);
    }
  }

  /** Weighting accepted work never divides by zero: with positive step counts and any positive
      cap, or none, every worker gets a positive share. */
  lemma {:induction false} SharesNeverFail(steps: seq<int>, cap: Option<real>)
    requires steps != [] && (forall i :: 0 <= i < |steps| ==> steps[i] > 0) && (cap.Some? ==> cap.value > 0.0)
    ensures FinalShares(steps, cap).Some? && |FinalShares(steps, cap).value| == |steps| && Positive(FinalShares(steps, cap).value)
  {
    hide Passes, Positive, Shares, IntSum, Sum;
    SharesSumToOne(steps);
    if cap.Some? && |steps| >= 3 {
      PassesSucceed(Shares(steps), cap.value, 10);
    }
  }

  lemma {:induction false} PassesLength(shares: seq<real>, cap: real, n: nat)
    requires shares != [] && Passes(shares, cap, n).Some?
    ensures |Passes(shares, cap, n).value| == |shares|
    decreases n
  {
    hide Settled, Limit, Clamp, Sum;
    if n > 0 && Pass(shares, cap).Some? && !Settled(Pass(shares, cap).value, shares) {
      PassesLength(Pass(shares, cap).value, cap, n - 1);
    }
  }

  /** One share per worker. */
  lemma FinalSharesLength(steps: seq<int>, cap: Option<real>)
    requires FinalShares(steps, cap).Some?
    ensures |FinalShares(steps, cap).value| == |steps|
  {
    if cap.Some? && |steps| >= 3 {
      PassesLength(Shares(steps), cap.value, 10);
    }
  }

  // ---- shares sum to one -------------------------------------------------------

  lemma DividedSumsToOne(xs: seq<real>, d: real)
    requires d != 0.0 && Sum(xs) == d
    ensures Sum(Divide(xs, d)) == 1.0
  {
    DivideIsScale(xs, d);
    SumScale(1.0 / d, xs);
    hide Sum, Divide, Scale;
    assert (1.0 / d) * d == 1.0;
  }

  lemma {:induction false} PassesSumToOne(xs: seq<real>, cap: real, n: nat)
    requires xs != [] && Sum(xs) == 1.0 && Passes(xs, cap, n).Some?
    ensures Sum(Passes(xs, cap, n).value) == 1.0
    decreases n
  {
    hide Settled, Limit, Clamp, Sum, Divide;
    if n > 0 {
      var c := Clamp(xs, Limit(xs, cap));
      DividedSumsToOne(c, Sum(c));
      if !Settled(Pass(xs, cap).value, xs) { PassesSumToOne(Pass(xs, cap).value, cap, n - 1); }
    }
  }

  /** Whatever the step counts, shares that can be computed at all sum to one. */
  lemma FinalSharesSumToOne(steps: seq<int>, cap: Option<real>)
    requires FinalShares(steps, cap).Some?
    ensures Sum(FinalShares(steps, cap).value) == 1.0
  {
    hide Passes, Sum, Divide, Reals, IntSum;
    SumOfReals(steps);
    DividedSumsToOne(Reals(steps), IntSum(steps) as real);
    if cap.Some? && |steps| >= 3 { PassesSumToOne(Shares(steps), cap.value, 10); }
  }
}
