/** Step budgets: how much work, over how many buckets, a claiming worker is offered.
    Throughputs and passes are exact reals here. */
module Budget {
  import opened Wrappers

  datatype Source = Measured | Calibrated | ColdStart

  datatype Invalid =
    | ColdStartNotPositive
    | ThroughputNotPositive
    | SamplesPerBucketNotPositive
    | TargetPassesNotPositive
    | SamplesPerStepNotPositive

  datatype Plan = Plan(
    localSteps: int,
    nBuckets: int,
    throughput: real,
    source: Source,
    usableSec: int,
    dataLimited: bool)

  datatype Overheads = Overheads(download: int, upload: int, margin: int, setup: int) {
    function Total(): int { download + upload + margin + setup }
  }

  /** The facts about a run that a plan is sized against. */
  datatype Shape = Shape(samplesPerStep: int, samplesPerBucket: int, totalBuckets: int, targetPasses: real)

  function Floor(x: real): int { x.Floor }

  function Ceil(x: real): int { -(-x).Floor }

  function Max(a: int, b: int): int { if a < b then b else a }

  function Min(a: int, b: int): int { if b < a then b else a }

  function UsableSeconds(remaining: int, o: Overheads): int {
    Max(0, remaining - o.download - o.upload - o.margin - o.setup)
  }

  function ResolveThroughput(measured: Option<real>, calibrated: Option<real>, coldStart: real)
    : (r: Result<(real, Source), Invalid>)
    ensures r.Ok? ==> r.value.0 > 0.0
  {
    if measured.Some? && measured.value > 0.0 then Ok((measured.value, Measured))
    else if calibrated.Some? && calibrated.value > 0.0 then Ok((calibrated.value, Calibrated))
    else if coldStart <= 0.0 then Err(ColdStartNotPositive)
    else Ok((coldStart, ColdStart))
  }

  function StepBudget(throughput: real, usable: int): Result<int, Invalid> {
    if throughput <= 0.0 then Err(ThroughputNotPositive)
    else Ok(Max(0, Floor(throughput * usable as real / 60.0)))
  }

  function BucketCount(localSteps: int, s: Shape): Result<int, Invalid> {
    if s.samplesPerBucket <= 0 then Err(SamplesPerBucketNotPositive)
    else if s.targetPasses <= 0.0 then Err(TargetPassesNotPositive)
    else if localSteps <= 0 then Ok(0)
    else
      var samplesNeeded := (localSteps * s.samplesPerStep) as real / s.targetPasses;
      Ok(Max(1, Min(Ceil(samplesNeeded / s.samplesPerBucket as real), s.totalBuckets)))
  }

  /** Samples that n buckets yield over the target number of passes. */
  function SamplesIn(n: int, s: Shape): real {
    (n * s.samplesPerBucket) as real * s.targetPasses
  }

  function StepsForBuckets(nBuckets: int, s: Shape): Result<int, Invalid> {
    if s.samplesPerStep <= 0 then Err(SamplesPerStepNotPositive)
    else Ok(Floor(SamplesIn(nBuckets, s) / s.samplesPerStep as real))
  }

  function PlanBudget(
    remaining: int, measured: Option<real>, calibrated: Option<real>, coldStart: real,
    s: Shape, o: Overheads, minUsable: int): Result<Option<Plan>, Invalid>
  {
    var usable := UsableSeconds(remaining, o);
    if usable < minUsable then Ok(None) else
    match ResolveThroughput(measured, calibrated, coldStart)
    case Err(e) => Err(e)
    case Ok((throughput, source)) =>
      match StepBudget(throughput, usable)
      case Err(e) => Err(e)
      case Ok(wanted) =>
        if wanted <= 0 then Ok(None) else
        match BucketCount(wanted, s)
        case Err(e) => Err(e)
        case Ok(n) =>
          match StepsForBuckets(n, s)
          case Err(e) => Err(e)
          case Ok(supported) =>
            if supported >= wanted then Ok(Some(Plan(wanted, n, throughput, source, usable, false)))
            else if supported <= 0 then Ok(None)
            else Ok(Some(Plan(supported, n, throughput, source, usable, true)))
  }

  // ---- what a plan means -------------------------------------------------

  /** The work fits in the time: `steps` optimizer steps at `throughput` per minute. */
  predicate FitsTime(steps: int, throughput: real, usable: int) {
    steps as real * 60.0 <= throughput * usable as real
  }

  /** The work fits in the data: `steps` steps read no more than `passes` passes over n buckets. */
  predicate FitsData(steps: int, n: int, s: Shape) {
    steps as real * s.samplesPerStep as real <= SamplesIn(n, s)
  }

  lemma FloorOfQuotient(k: int, x: real, d: real)
    requires d > 0.0
    ensures k <= Floor(x / d) <==> k as real * d <= x
  {
    var q := x / d;
    assert q * d == x;
    if k <= q.Floor {
      assert k as real <= q;
      assert (q - k as real) * d >= 0.0;
    } else {
      assert k as real >= q.Floor as real + 1.0 > q;
      assert (k as real - q) * d > 0.0;
    }
  }

  lemma CeilOfQuotient(k: int, x: real, d: real)
    requires d > 0.0
    ensures Ceil(x / d) <= k <==> x <= k as real * d
  {
    assert -(x / d) == (-x) / d;
    FloorOfQuotient(-k, -x, d);
    assert (-k) as real * d == -(k as real * d);
  }

  lemma StepBudgetIsExact(throughput: real, usable: int, steps: int)
    requires throughput > 0.0 && usable >= 0
    ensures steps <= StepBudget(throughput, usable).value <==> FitsTime(steps, throughput, usable)
  {
    var x := throughput * usable as real;
    assert x >= 0.0;
    FloorOfQuotient(steps, x, 60.0);
    FloorOfQuotient(0, x, 60.0);
  }

  lemma StepsForBucketsIsExact(n: int, s: Shape, steps: int)
    requires s.samplesPerStep > 0
    ensures steps <= StepsForBuckets(n, s).value <==> FitsData(steps, n, s)
  {
    FloorOfQuotient(steps, SamplesIn(n, s), s.samplesPerStep as real);
  }

  /** The unclamped bucket count is the least one whose data covers the steps. */
  lemma CeilCovers(steps: int, s: Shape, n: int)
    requires s.samplesPerBucket > 0 && s.targetPasses > 0.0
    ensures Ceil((steps * s.samplesPerStep) as real / s.targetPasses / s.samplesPerBucket as real) <= n
       <==> FitsData(steps, n, s)
  {
    var need := (steps * s.samplesPerStep) as real;
    assert need == steps as real * s.samplesPerStep as real;
    var per := s.samplesPerBucket as real;
    CeilOfQuotient(n, need / s.targetPasses, per);
    var q := need / s.targetPasses;
    assert q * s.targetPasses == need;
    var have := n as real * per;
    assert have == (n * s.samplesPerBucket) as real;
    assert (have - q) * s.targetPasses == have * s.targetPasses - need;
    if q <= have {
      assert (have - q) * s.targetPasses >= 0.0;
    } else {
      assert (q - have) * s.targetPasses > 0.0;
    }
  }

  ghost predicate Offered(
    plan: Plan, remaining: int, measured: Option<real>, calibrated: Option<real>, coldStart: real,
    s: Shape, o: Overheads, minUsable: int)
  {
    PlanBudget(remaining, measured, calibrated, coldStart, s, o, minUsable) == Ok(Some(plan))
  }

  /** An offered plan fits the time left after every reserved overhead and fits its own shard;
      it is the largest such step count; and its bucket count is the least that supports it,
      or else every bucket there is. The data limit is reported exactly when the run is too small. */
  lemma PlanIsExact(
    plan: Plan, remaining: int, measured: Option<real>, calibrated: Option<real>, coldStart: real,
    s: Shape, o: Overheads, minUsable: int)
    requires Offered(plan, remaining, measured, calibrated, coldStart, s, o, minUsable)
    ensures plan.localSteps >= 1 && plan.nBuckets >= 1
    ensures plan.usableSec + o.Total() == remaining && plan.usableSec >= minUsable
    ensures forall steps: int ::
      steps <= plan.localSteps <==> FitsTime(steps, plan.throughput, plan.usableSec) && FitsData(steps, plan.nBuckets, s)
    ensures s.totalBuckets >= 1 ==> plan.nBuckets <= s.totalBuckets
    ensures plan.dataLimited ==> plan.nBuckets == Max(1, s.totalBuckets)
    ensures !plan.dataLimited ==> forall n: int :: 1 <= n < plan.nBuckets ==> !FitsData(plan.localSteps, n, s)
    ensures plan.dataLimited <==> FitsTime(plan.localSteps + 1, plan.throughput, plan.usableSec)
  {
    var usable := UsableSeconds(remaining, o);
    var throughput := plan.throughput;
    var wanted := StepBudget(throughput, usable).value;
    assert plan.usableSec == usable && wanted >= 1;
    StepBudgetIsExact(throughput, usable, 1);
    assert usable > 0;
    var n := plan.nBuckets;
    var raw := Ceil((wanted * s.samplesPerStep) as real / s.targetPasses / s.samplesPerBucket as real);
    assert n == Max(1, Min(raw, s.totalBuckets));
    forall steps: int
      ensures steps <= plan.localSteps <==> FitsTime(steps, throughput, usable) && FitsData(steps, n, s)
    {
      StepBudgetIsExact(throughput, usable, steps);
      StepsForBucketsIsExact(n, s, steps);
    }
    StepBudgetIsExact(throughput, usable, plan.localSteps + 1);
    CeilCovers(wanted, s, n);
    StepsForBucketsIsExact(n, s, wanted);
    forall m: int | !plan.dataLimited && 1 <= m < n ensures !FitsData(plan.localSteps, m, s) {
      CeilCovers(wanted, s, m);
    }
  }

  /** With a well-formed run and a positive cold start, no plan is offered exactly when too
      little time is left, or the time left is worth no step, or the whole run's data is
      worth no step. */
  lemma NoPlanExactlyWhen(
    remaining: int, measured: Option<real>, calibrated: Option<real>, coldStart: real,
    s: Shape, o: Overheads, minUsable: int, throughput: real, source: Source)
    requires s.samplesPerBucket > 0 && s.samplesPerStep > 0 && s.targetPasses > 0.0 && s.totalBuckets >= 1
    requires ResolveThroughput(measured, calibrated, coldStart) == Ok((throughput, source))
    ensures PlanBudget(remaining, measured, calibrated, coldStart, s, o, minUsable) == Ok(None)
       <==> (var usable := UsableSeconds(remaining, o);
             usable < minUsable || !FitsTime(1, throughput, usable) || !FitsData(1, s.totalBuckets, s))
  {
    var usable := UsableSeconds(remaining, o);
    var wanted := StepBudget(throughput, usable).value;
    StepBudgetIsExact(throughput, usable, 1);
    if wanted >= 1 {
      var n := BucketCount(wanted, s).value;
      StepsForBucketsIsExact(n, s, 1);
      StepsForBucketsIsExact(n, s, wanted);
      StepsForBucketsIsExact(s.totalBuckets, s, 1);
      CeilCovers(wanted, s, n);
      MoreDataFitsMore(1, n, s.totalBuckets, s);
      if n < s.totalBuckets {
        FewerStepsFit(1, wanted, n, s);
      }
    }
  }

  lemma MoreDataFitsMore(steps: int, n: int, m: int, s: Shape)
    requires n <= m && s.samplesPerBucket > 0 && s.targetPasses > 0.0
    ensures FitsData(steps, n, s) ==> FitsData(steps, m, s)
  {
    var a, b := (n * s.samplesPerBucket) as real, (m * s.samplesPerBucket) as real;
    assert (m - n) * s.samplesPerBucket >= 0;
    assert a <= b;
    assert (b - a) * s.targetPasses >= 0.0;
  }

  lemma FewerStepsFit(few: int, many: int, n: int, s: Shape)
    requires few <= many && s.samplesPerStep > 0
    ensures FitsData(many, n, s) ==> FitsData(few, n, s)
  {
    assert (many - few) as real * s.samplesPerStep as real >= 0.0;
  }

  // ---- which throughput a plan uses ----------------------------------------

  /** A positive figure that is preferred to the ones after it. */
  ghost predicate Known(x: Option<real>) {
    x.Some? && x.value > 0.0
  }

  /** A plan goes by the measured throughput whenever there is a positive one, by the calibrated one only
      if there is none, and by the cold start only if there is neither; and by no figure that comes
      after the one it goes by. */
  lemma PlanUsesBestFigure(
    remaining: int, measured: Option<real>, calibrated: Option<real>, coldStart: real,
    s: Shape, o: Overheads, minUsable: int, otherCalibrated: Option<real>, otherCold: real)
    ensures var r := PlanBudget(remaining, measured, calibrated, coldStart, s, o, minUsable);
      r.Ok? && r.value.Some? ==>
        var plan := r.value.value;
        && (plan.source.Measured? <==> Known(measured))
        && (plan.source.Calibrated? <==> !Known(measured) && Known(calibrated))
        && plan.throughput == (if Known(measured) then measured.value else if Known(calibrated) then calibrated.value else coldStart)
        && plan.throughput > 0.0
    ensures Known(measured) ==>
      PlanBudget(remaining, measured, calibrated, coldStart, s, o, minUsable)
        == PlanBudget(remaining, measured, otherCalibrated, otherCold, s, o, minUsable)
    ensures Known(calibrated) ==>
      PlanBudget(remaining, measured, calibrated, coldStart, s, o, minUsable)
        == PlanBudget(remaining, measured, calibrated, otherCold, s, o, minUsable)
    ensures !Known(measured) && !Known(calibrated) && coldStart <= 0.0 ==>
      !PlanBudget(remaining, measured, calibrated, coldStart, s, o, minUsable).Ok?
      || PlanBudget(remaining, measured, calibrated, coldStart, s, o, minUsable) == Ok(None)
  {
    hide StepBudget, BucketCount, StepsForBuckets;
  }

  /** Planning fails exactly when there is time to plan for and either no figure is positive, or at least one
      step fits the time and the run's shape makes no sense. */
  lemma PlanFailsExactlyWhen(
    remaining: int, measured: Option<real>, calibrated: Option<real>, coldStart: real, s: Shape, o: Overheads, minUsable: int)
    ensures var best := if Known(measured) then measured.value else if Known(calibrated) then calibrated.value else coldStart;
      var usable := UsableSeconds(remaining, o);
      PlanBudget(remaining, measured, calibrated, coldStart, s, o, minUsable).Err? <==>
        && usable >= minUsable
        && (best <= 0.0
            || (FitsTime(1, best, usable) && (s.samplesPerBucket <= 0 || s.targetPasses <= 0.0 || s.samplesPerStep <= 0)))
  {
    var best := if Known(measured) then measured.value else if Known(calibrated) then calibrated.value else coldStart;
    var usable := UsableSeconds(remaining, o);
    if best > 0.0 { StepBudgetIsExact(best, usable, 1); }
    hide FitsTime;
  }
}
