/** The next base, cell by cell, from the rows and objects a close found: who is in it, for how many of
    its steps, and what the run's step size and momentum make of it. */
module PublishedCells {
  import opened Wrappers
  import opened RealSeqs
  import opened Tensors
  import opened DominanceCap
  import opened FairShares
  import opened OuterStep
  import opened OuterRun
  import opened Contributions
  import opened ObjectKeys
  import opened Tables
  import opened Rounds
  import opened Closer
  import opened System
  import opened CloseSafety
  import opened LeaseSafety
  import opened RefSafety
  import opened RefSteps
  import opened RefCloses
  import opened CloseRun
  import opened Leftovers
  import opened Attempts
  import opened Retry
  import opened TidyClose
  import opened Polling
  import opened ReachableCloses

  // ---- what a contribution counts for ---------------------------------------------------------

  /** A contribution counts for its steps, and for no more than the bound. */
  function Credit(bound: real): Rating {
    (w: Contribution) => if w.steps as real <= bound then w.steps as real else bound
  }

  ghost predicate WorkDone(work: seq<Contribution>) {
    work != [] && forall i :: 0 <= i < |work| ==> work[i].steps > 0
  }

  /** Nothing is cut off without a cap or with fewer than three contributions; under a cap that suits
      the cohort the bound is the cap times the median step count. */
  ghost predicate BoundFor(work: seq<Contribution>, cap: Option<real>, bound: real) {
    && bound > 0.0
    && (cap.None? || |work| < 3 ==> forall i :: 0 <= i < |work| ==> work[i].steps as real <= bound)
    && (cap.Some? && |work| >= 3 && CapSuits(|work|, cap.value) ==> bound == cap.value * Median(Reals(Steps(work))))
  }

  /** The shares are the credits over their sum. */
  ghost predicate SharedBy(shares: seq<real>, work: seq<Contribution>, credit: Rating) {
    && |shares| == |work| && Sum(Map(credit, work)) > 0.0
    && forall i :: 0 <= i < |work| ==> shares[i] * Sum(Map(credit, work)) == credit(work[i])
  }

  lemma ClampIsCredit(work: seq<Contribution>, bound: real)
    ensures Clamp(Reals(Steps(work)), bound) == Map(Credit(bound), work)
  {
  }

  lemma CreditedIsCredit(work: seq<Contribution>, cap: real, bound: real)
    requires work != [] && bound == cap * Median(Reals(Steps(work)))
    ensures Credited(Steps(work), cap) == Map(Credit(bound), work)
  {
    hide Median;
  }

  lemma SharesAreCredits(work: seq<Contribution>, cap: Option<real>) returns (bound: real)
    requires WorkDone(work) && (cap.Some? ==> cap.value > 0.0)
    ensures BoundFor(work, cap, bound) && SharesOf(work, cap).Some? && SharedBy(SharesOf(work, cap).value, work, Credit(bound))
  {
    hide FinalShares, Sum, Median, IntSum, Clamp, Credited, Map;
    var steps := Steps(work);
    if cap.Some? && |work| >= 3 && CapSuits(|work|, cap.value) {
      CappedSharesAreCredited(steps, cap.value);
      bound := cap.value * Median(Reals(steps));
      SuitedBound(steps, cap.value);
      CreditedIsCredit(work, cap.value, bound);
      CreditsRate(work, bound);
    } else if cap.Some? && |work| >= 3 {
      bound := SharesFollowSteps(steps, cap);
      ClampIsCredit(work, bound);
      CreditsRate(work, bound);
    } else {
      bound := UncappedBound(work, cap);
    }
  }

  lemma SuitedBound(steps: seq<int>, cap: real)
    requires steps != [] && AllPositive(steps) && CapSuits(|steps|, cap)
    ensures cap * Median(Reals(steps)) > 0.0
  {
    hide Median;
    assert Positive(Reals(steps));
    LimitIsPositive(Reals(steps), cap);
    LimitIsMedian(Reals(steps), cap);
  }

  lemma CreditsRate(work: seq<Contribution>, bound: real)
    ensures forall i :: 0 <= i < |work| ==> Map(Credit(bound), work)[i] == Credit(bound)(work[i])
  {
  }

  lemma UncappedBound(work: seq<Contribution>, cap: Option<real>) returns (bound: real)
    requires WorkDone(work) && (cap.None? || |work| < 3)
    ensures BoundFor(work, cap, bound) && SharesOf(work, cap).Some? && SharedBy(SharesOf(work, cap).value, work, Credit(bound))
  {
    hide Sum, Median, IntSum, Clamp, Map, Shares;
    var steps := Steps(work);
    TotalClipsNothing(steps);
    bound := IntSum(steps) as real;
    forall i | 0 <= i < |work| ensures work[i].steps as real <= bound {
      BelowTotal(steps, i);
    }
    ClampIsCredit(work, bound);
    CreditsRate(work, bound);
    var c := Clamp(Reals(steps), bound);
    forall i | 0 <= i < |work| ensures Shares(steps)[i] * Sum(c) == c[i] {
      DividedAt(c, Sum(c), i);
      QuotientTimes(c[i], Sum(c));
    }
  }

  // ---- one cell ------------------------------------------------------------------------------

  lemma {:induction false} ScaledSum(share: Rating, credit: Rating, work: seq<Contribution>, name: string, c: nat, total: real)
    requires forall i :: 0 <= i < |work| ==> share(work[i]) * total == credit(work[i])
    ensures Sum(Map(Added(share, name, c), work)) * total == Sum(Map(Added(credit, name, c), work))
  {
    hide Added;
    if work != [] {
      var rest := work[1..];
      ScaledSum(share, credit, rest, name, c, total);
      var f, g := Added(share, name, c), Added(credit, name, c);
      assert Map(f, work)[1..] == Map(f, rest) && Map(g, work)[1..] == Map(g, rest);
      AddedScales(share, credit, work[0], name, c, total);
      SumOfProducts(f(work[0]), Sum(Map(f, rest)), total);
    }
  }

  lemma SumOfProducts(a: real, b: real, total: real)
    ensures (a + b) * total == a * total + b * total
  {
  }

  lemma AddedScales(share: Rating, credit: Rating, w: Contribution, name: string, c: nat, total: real)
    requires share(w) * total == credit(w)
    ensures Added(share, name, c)(w) * total == Added(credit, name, c)(w)
  {
    var x := if name in w.adapter && w.adapter[name].Dense? && c < |w.adapter[name].cells| then w.adapter[name].cells[c] else 0.0;
    assert share(w) * x * total == share(w) * total * x;
  }

  lemma ShareRating(shares: seq<real>, work: seq<Contribution>, credit: Rating) returns (share: Rating)
    requires SharedBy(shares, work, credit)
    ensures shares == Map(share, work)
    ensures forall i :: 0 <= i < |work| ==> share(work[i]) * Sum(Map(credit, work)) == credit(work[i])
  {
    hide Sum;
    var total := Sum(Map(credit, work));
    share := (w: Contribution) => Quotient(credit(w), total);
    forall i | 0 <= i < |work| ensures shares[i] == share(work[i]) && share(work[i]) * total == credit(work[i]) {
      QuotientTimes(credit(work[i]), total);
      SameQuotient(shares[i], share(work[i]), total);
    }
  }

  lemma SameQuotient(a: real, b: real, d: real)
    requires d > 0.0 && a * d == b * d
    ensures a == b
  {
    if a < b { PositiveProduct(b - a, d); }
    if b < a { PositiveProduct(a - b, d); }
  }

  /** What can be combined and published. */
  ghost predicate GoodRound(base: Adapter, work: seq<Contribution>, cap: Option<real>, mode: string, momentum: Option<Adapter>) {
    && WellFormedAdapter(base) && Finite(base) && AllWorkFits(work, base) && WorkDone(work) && KnownMode(mode)
    && (cap.Some? ==> cap.value > 0.0) && (momentum.Some? ==> MomentumFits(momentum.value, base))
  }

  /** The mean of a cell, each contribution credited with its steps up to the bound. */
  ghost predicate CreditedMean(mean: real, work: seq<Contribution>, bound: real, name: string, c: nat) {
    && Sum(Map(Credit(bound), work)) > 0.0
    && mean * Sum(Map(Credit(bound), work)) == Sum(Map(Added(Credit(bound), name, c), work))
  }

  lemma MeanIsCredited(base: Adapter, work: seq<Contribution>, cap: Option<real>, name: string, c: nat) returns (bound: real, mean: real)
    requires AllWorkFits(work, base) && WorkDone(work) && (cap.Some? ==> cap.value > 0.0) && InBase(base, name, c)
    ensures BoundFor(work, cap, bound) && CreditedMean(mean, work, bound, name, c)
    ensures SharesOf(work, cap).Some? && |SharesOf(work, cap).value| == |work| && AllHave(Adapters(work), name, c)
    ensures var weights := Spread(SharesOf(work, cap).value, base.Keys);
      |weights| == |work| && WeightSum(weights, name) == 1.0 && MeanCell(name, c, Adapters(work), weights) == mean
  {
    hide SharesOf, Sum, Map, Added, Spread, InBase, AllWorkFits, WeightedSum, AllHave, BoundFor, Credit, WeightSum, Median, FinalShares,
      WorkDone, HasCell;
    bound := SharesAreCredits(work, cap);
    var shares, total := SharesOf(work, cap).value, Sum(Map(Credit(bound), work));
    var share := ShareRating(shares, work, Credit(bound));
    WeightedSumIsSum(share, work, base, name, c, |work|);
    assert work[..|work|] == work;
    mean := Sum(Map(Added(share, name, c), work));
    ScaledSum(share, Credit(bound), work, name, c, total);
    NameInBase(base, name, c);
    SpreadLength(shares, base.Keys);
    WeightSumIsSum(shares, base.Keys, name);
    SharesMeansFinal(work, cap);
    FinalSharesSumToOne(Steps(work), cap);
    assert mean / 1.0 == mean;
  }

  lemma SharesMeansFinal(work: seq<Contribution>, cap: Option<real>)
    ensures SharesOf(work, cap) == FinalShares(Steps(work), cap)
  {
  }

  /** The momentum a cell starts from. */
  ghost function MomentumBefore(base: Adapter, beta: real, momentum: Option<Adapter>, name: string, c: nat): real {
    if beta != 0.0 && momentum.Some? && HasCell(momentum.value, name, c) then Cell(momentum.value, name, c) else 0.0
  }

  lemma MomentumCellIs(base: Adapter, beta: real, momentum: Option<Adapter>, name: string, c: nat)
    requires InBase(base, name, c) && (momentum.Some? ==> MomentumFits(momentum.value, base))
    ensures HasCell(StartMomentum(base, beta, momentum), name, c)
    ensures Cell(StartMomentum(base, beta, momentum), name, c) == MomentumBefore(base, beta, momentum, name, c)
  {
    hide Volume;
  }

  /** A cell of what is published: with g the base less the credited mean and m the momentum, the momentum
      becomes beta * m + g and the base moves by lr times g plus beta times that. */
  lemma PublishedCellIs(
    base: Adapter, work: seq<Contribution>, cap: Option<real>, mode: string, lr: real, beta: real, momentum: Option<Adapter>,
    name: string, c: nat) returns (bound: real, mean: real)
    requires GoodRound(base, work, cap, mode, momentum) && InBase(base, name, c)
    ensures BoundFor(work, cap, bound) && CreditedMean(mean, work, bound, name, c) && HasCell(base, name, c)
    ensures var r := Published(base, work, cap, mode, lr, beta, momentum);
      var g := Cell(base, name, c) - mean;
      var m := beta * MomentumBefore(base, beta, momentum, name, c) + g;
      && r.Some? && HasCell(r.value.adapter, name, c) && Cell(r.value.adapter, name, c) == Cell(base, name, c) - lr * (g + beta * m)
      && (r.value.momentum.Some? <==> beta != 0.0)
      && (beta != 0.0 ==> HasCell(r.value.momentum.value, name, c) && Cell(r.value.momentum.value, name, c) == m)
  {
    hide SharesOf, Spread, InBase, WeightedSum, Combined, BoundFor, CreditedMean, StartMomentum, MomentumBefore, HasCell, Cell, MeanCell,
      WeightSum;
    bound, mean := MeanIsCredited(base, work, cap, name, c);
    var weights := Spread(SharesOf(work, cap).value, base.Keys);
    MomentumCellIs(base, beta, momentum, name, c);
    CombinedCell(base, Adapters(work), weights, mode, lr, beta, momentum, name, c);
  }

  // ---- the cohort and the close ------------------------------------------------------------------

  /** The cohort is the accepted submissions whose artifacts load, each with its own row's step count and
      its own object's adapter. */
  lemma CohortRows(w: World, id: RoundId, order: seq<string>)
    requires IsQueryOrder(w.db, id, order)
    ensures AllAccepted(w.db, order)
    ensures forall k :: k in Cohort(w, order) ==> k.task in order && RowOf(w, k)
    ensures forall t :: t in order && Fetch(w.store, w.db.subs[t].artifact).Some? ==> t in Tasks(Cohort(w, order))
  {
    hide Arrived, Fetch;
    var todo := Entries(w.db, order);
    ArrivedTasks(w.store, todo);
    forall e | e in todo
      ensures e.task in order && e == Entry(e.task, w.db.subs[e.task].artifact, w.db.subs[e.task].steps, w.db.subs[e.task].metrics)
    {
      var i :| 0 <= i < |order| && todo[i] == e;
    }
    forall t | t in order && Fetch(w.store, w.db.subs[t].artifact).Some? ensures t in Tasks(Cohort(w, order)) {
      var i :| 0 <= i < |order| && order[i] == t;
      var e := todo[i];
      assert e in todo;
      assert Kept(t, Contribution(Fetch(w.store, e.artifact).value, e.steps), e.metrics) in Arrived(w.store, todo);
    }
  }

  ghost predicate RowOf(w: World, k: Kept) {
    && k.task in w.db.subs && Fetch(w.store, w.db.subs[k.task].artifact) == Some(k.work.adapter)
    && k.work.steps == w.db.subs[k.task].steps && k.metrics == w.db.subs[k.task].metrics
  }

  /** A cell of the base that a close of this round starts from. */
  ghost predicate InBaseOf(w: World, id: RoundId, name: string, cell: nat)
    requires id in w.db.rounds
  {
    BaseOf(w, id).Some? && InBase(BaseOf(w, id).value, name, cell)
  }

  /** The survivors of a tidy round make a round that publishes. */
  lemma TidyRoundIsGood(s: Sys, id: RoundId, c: Choice, cfg: Config)
    requires AllSound(s, true) && CapPositive(cfg) && RoundIs(s.w.db, id, Open) && IsQueryOrder(s.w.db, id, c.order) && c.io
    ensures AllAccepted(s.w.db, c.order) && id.run in s.w.db.runs && Judgements(Cohort(s.w, c.order), cfg).Some? && BaseOf(s.w, id).Some?
    ensures var kept, run := Survivors(Cohort(s.w, c.order), cfg), s.w.db.runs[id.run];
      kept != [] ==>
        && GoodRound(BaseOf(s.w, id).value, Works(kept), cfg.cap, run.mode, MomentumAt(s.w, id))
        && CombineKept(s.w.store, JobOf(s.w.db, id), BaseOf(s.w, id).value, kept, true, cfg).Some?
    ensures forall k :: k in Survivors(Cohort(s.w, c.order), cfg) ==> k in Cohort(s.w, c.order)
  {
    hide AllSound, JobSound, HasBase, KeptGood, Cohort, IsQueryOrder, CombineKept, Judgements, Survivors, Sentenced, StillOf, JobOf, Fetch,
      MomentumFits, AllWorkFits;
    QueryAccepted(s.w.db, id, c.order);
    TidyCohort(s, id, c.order);
    InPlaceMeans(s.w.db, id);
    var base, cohort := BaseOf(s.w, id).value, Cohort(s.w, c.order);
    JobIds(s.w.db, id);
    GoodKeys(s.w.store, JobOf(s.w.db, id), base, cohort);
    SameKeysJudged(cohort, base.Keys, cfg);
    CohortTasks(s.w, id, c.order);
    SurvivorsAreStill(cohort, cfg);
    StillMembers(cohort, Sentenced(cohort, cfg));
    PassedGood(s.w.store, id.run, cohort, Sentenced(cohort, cfg));
    var kept := Survivors(cohort, cfg);
    if kept != [] {
      GoodWorkCombines(s, id, base, kept, cfg);
      KeptFitsBase(s.w.store, JobOf(s.w.db, id), base, kept);
      JobRows(s.w.db, id);
      StoredMomentumFits(s, JobOf(s.w.db, id), base, true);
      TidyMode(s, JobOf(s.w.db, id));
      HasBaseMeans(s.w.store, JobOf(s.w.db, id), base);
    }
  }

  lemma JobRows(db: Db, id: RoundId)
    requires RoundIs(db, id, Open) && id.run in db.runs
    ensures JobOf(db, id).run == db.runs[id.run]
  {
  }

  lemma TidyMode(s: Sys, job: Job)
    requires AllSound(s, true) && JobSound(s.w.db, job)
    ensures KnownMode(job.run.mode)
  {
    ModeKnown(s, job);
  }

  lemma CombinedIsPublished(store: Store, job: Job, base: Adapter, kept: seq<Kept>, cfg: Config)
    requires CombineKept(store, job, base, kept, true, cfg).Some?
    ensures CombineKept(store, job, base, kept, true, cfg)
         == Published(base, Works(kept), cfg.cap, job.run.mode, job.run.lr, job.run.beta, StoredMomentum(store, job.run, true))
  {
    hide Published;
  }

  /** What an undisturbed close of a tidy round leaves as the next base. */
  lemma CloseLeaves(s: Sys, id: RoundId, c: Choice, cfg: Config)
    requires AllSound(s, true) && CapPositive(cfg) && RoundIs(s.w.db, id, Open) && IsQueryOrder(s.w.db, id, c.order) && c.io
    requires AllAccepted(s.w.db, c.order) && id.run in s.w.db.runs && Judgements(Cohort(s.w, c.order), cfg).Some? && BaseOf(s.w, id).Some?
    requires Survivors(Cohort(s.w, c.order), cfg) != []
    ensures var run, kept := s.w.db.runs[id.run], Survivors(Cohort(s.w, c.order), cfg);
      var o := Published(BaseOf(s.w, id).value, Works(kept), cfg.cap, run.mode, run.lr, run.beta, MomentumAt(s.w, id));
      && o.Some? && Fetch(CloseAll(s.w, id, c, cfg).store, ResultKey(id)) == Some(o.value.adapter)
      && (o.value.momentum.Some? ==> Fetch(CloseAll(s.w, id, c, cfg).store, MomentumKey(id.run)) == o.value.momentum)
  {
    hide AllSound, IsQueryOrder, CloseAll, CombineKept, Judgements, Survivors, CanClose, Published, Cohort, JobOf, GoodRound;
    TidyRoundIsGood(s, id, c, cfg);
    TidyCloseGoesThrough(s, id, c, cfg);
    GoesThroughExactlyWhen(s.w, id, c, cfg);
    ClosePuts(s.w, id, c, cfg);
    var kept, base := Survivors(Cohort(s.w, c.order), cfg), BaseOf(s.w, id).value;
    CombinedIsPublished(s.w.store, JobOf(s.w.db, id), base, kept, cfg);
    JobRows(s.w.db, id);
    JobIds(s.w.db, id);
    PublishedLoads(base, Works(kept), cfg.cap, s.w.db.runs[id.run], MomentumAt(s.w, id));
  }

  lemma PublishedLoads(base: Adapter, work: seq<Contribution>, cap: Option<real>, run: Run, m: Option<Adapter>)
    requires GoodRound(base, work, cap, run.mode, m)
    ensures var r := Published(base, work, cap, run.mode, run.lr, run.beta, m);
      && r.Some? && LoadAdapter(SaveAdapter(r.value.adapter)) == Some(r.value.adapter)
      && (r.value.momentum.Some? ==> LoadAdapter(SaveAdapter(r.value.momentum.value)) == r.value.momentum)
  {
    hide SharesOf, AllWorkFits, Published, Sum, Median, Map;
    var bound := SharesAreCredits(work, cap);
    PublishedFits(base, work, cap, run, m);
  }

  /** In every state of a tidy run, what an undisturbed close publishes, cell by cell: the base it found,
      moved by the run's step size along the mean of the surviving submissions' cells, weighted by their
      step counts up to the cap's bound, and along the momentum the run's row names. */
  lemma {:induction false} CloseMovesBase(actions: seq<Action>, cfg: Config, id: RoundId, c: Choice, name: string, cell: nat)
    returns (bound: real, mean: real)
    requires TidyRun(actions, cfg) && RoundIs(After(actions, cfg).w.db, id, Open)
    requires IsQueryOrder(After(actions, cfg).w.db, id, c.order) && c.io && InBaseOf(After(actions, cfg).w, id, name, cell)
    requires exists t :: Polling.Passes(After(actions, cfg).w, c.order, cfg, t)
    ensures var w := After(actions, cfg).w;
      && AllAccepted(w.db, c.order) && Judgements(Cohort(w, c.order), cfg).Some? && id.run in w.db.runs && BaseOf(w, id).Some?
      && var kept, run, base := Survivors(Cohort(w, c.order), cfg), w.db.runs[id.run], BaseOf(w, id).value;
         && (forall k :: k in kept ==> RowOf(w, k)) && (forall t :: t in Tasks(kept) <==> Polling.Passes(w, c.order, cfg, t))
         && BoundFor(Works(kept), cfg.cap, bound) && CreditedMean(mean, Works(kept), bound, name, cell)
         && HasCell(base, name, cell)
         && var next := Fetch(CloseAll(w, id, c, cfg).store, ResultKey(id));
            var g := Cell(base, name, cell) - mean;
            var m := run.beta * MomentumBefore(base, run.beta, MomentumAt(w, id), name, cell) + g;
            && next.Some? && HasCell(next.value, name, cell)
            && Cell(next.value, name, cell) == Cell(base, name, cell) - run.lr * (g + run.beta * m)
            && (run.beta != 0.0 ==>
                  var left := Fetch(CloseAll(w, id, c, cfg).store, MomentumKey(id.run));
                  left.Some? && HasCell(left.value, name, cell) && Cell(left.value, name, cell) == m)
  {
    hide After, TidyRun, AllSound, IsQueryOrder, CloseAll, Cohort, Judgements, Survivors, BoundFor, GoodRound, Tasks, Polling.Passes,
      CreditedMean, Published, HasCell, Cell, MomentumBefore, RowOf, InBase;
    var s := After(actions, cfg);
    TidyAllSound(actions, cfg);
    TidyRoundIsGood(s, id, c, cfg);
    FoldsExactlyWhen(s.w, id, c.order, cfg);
    CohortRows(s.w, id, c.order);
    forall t ensures t in Tasks(Survivors(Cohort(s.w, c.order), cfg)) <==> Polling.Passes(s.w, c.order, cfg, t) {
      PassersSurvive(s.w, c.order, cfg, t);
    }
    CloseLeaves(s, id, c, cfg);
    var kept, run := Survivors(Cohort(s.w, c.order), cfg), s.w.db.runs[id.run];
    bound, mean := PublishedCellIs(BaseOf(s.w, id).value, Works(kept), cfg.cap, run.mode, run.lr, run.beta, MomentumAt(s.w, id), name, cell);
  }
}
