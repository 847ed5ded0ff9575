/** Reachable inputs on which a promise fails: for each, a run of the system from nothing. */
module FailingInputs {
  import opened Wrappers
  import RealSeqs
  import opened Tensors
  import opened Broadcasting
  import opened NormGate
  import opened GateSurvival
  import opened OuterStep
  import opened OuterRun
  import opened Contributions
  import DominanceCap
  import opened Momentum
  import opened ObjectKeys
  import opened Tables
  import opened Rounds
  import opened Closer
  import opened System
  import opened CloseSafety
  import opened LeaseSafety
  import opened RefCloses
  import opened RefSteps
  import opened CloseRun
  import opened Leftovers
  import opened Attempts
  import opened Retry
  import opened Reaching
  import opened TidyClose
  import opened Polling
  import opened Stranding
  import opened ReachableCloses
  import opened Scenarios
  import LateWork
  import Coverage

  // ---- adapters of one cell ------------------------------------------------------------------

  const TENSOR := "x"

  /** No momentum, and nobody reports a rate. */
  const PLAIN := Setting(0.0, NoRate)

  function Single(v: real): Adapter {
    map[TENSOR := OneCell(v)]
  }

  function Singles(vals: seq<real>): (r: seq<Adapter>)
    ensures |r| == |vals|
  {
    seq(|vals|, i requires 0 <= i < |vals| => Single(vals[i]))
  }

  lemma SingleFits(v: real, u: real)
    ensures Fits(Single(v), Single(u)) && GoodSeed(Single(u))
  {
    assert Volume([1]) == 1 by { assert Volume([]) == 1; }
    assert ManifestOf(Single(v)) == ManifestOf(Single(u));
    assert TENSOR in Single(u);
  }

  lemma SinglesFit(vals: seq<real>)
    ensures forall i :: 0 <= i < |vals| ==> Fits(Singles(vals)[i], Single(0.0))
    ensures GoodSeed(Single(0.0))
  {
    forall i | 0 <= i < |vals| ensures Fits(Singles(vals)[i], Single(0.0)) {
      SingleFits(vals[i], 0.0);
    }
    SingleFits(0.0, 0.0);
  }

  lemma SingleNorms(vals: seq<real>, norm: Norm)
    requires OneCellNorm(norm) && NonNegative(vals)
    ensures SharedNames(Singles(vals)) && NormsOf(TENSOR, Singles(vals), norm) == vals
  {
    var norms := NormsOf(TENSOR, Singles(vals), norm);
    forall i | 0 <= i < |vals| ensures norms[i] == vals[i] {
      assert norm(OneCell(vals[i])) == vals[i];
    }
  }

  lemma SingleVerdict(vals: seq<real>, cfg: Config, i: nat)
    requires OneCellNorm(cfg.norm) && NonNegative(vals) && i < |vals| && |vals| >= 3
    ensures SharedNames(Singles(vals))
    ensures VerdictOf(Singles(vals), cfg.norm, cfg.normK, i).Accepted? <==> !Outlier(vals, i, cfg.normK)
  {
    SingleNorms(vals, cfg.norm);
    assert Singles(vals)[0].Keys == {TENSOR};
    hide NormsOf, Outlier, Singles;
  }

  lemma CohortAdapters(works: seq<Adapter>)
    ensures |CohortOf(works, NoRate)| == |works| && Adapters(Works(CohortOf(works, NoRate))) == works && DistinctTasks(CohortOf(works, NoRate))
  {
    var kept := CohortOf(works, NoRate);
    forall i: nat, j: nat | i < j < |kept| ensures kept[i].task != kept[j].task {
      NamesDiffer(i, j);
    }
  }

  // ---- gate 4 rejects again on the retry --------------------------------------------------------

  function FiveNorms(): seq<real> {
    [1.0, 1.0, 2.0, 9.0, 100.0]
  }

  function FourNorms(): seq<real> {
    [1.0, 1.0, 2.0, 9.0]
  }

  lemma FiveOutliers(i: nat)
    requires i < 5
    ensures Outlier(FiveNorms(), i, 5.0) <==> i == 4
  {
    RealSeqs.SortedOfAscending(FiveNorms());
  }

  lemma FourOutliers()
    ensures RealSeqs.Median(FourNorms()) == 1.5
  {
    RealSeqs.SortedOfAscending(FourNorms());
  }

  /** Of five workers whose norms are 1, 1, 2, 9 and 100, gate 4 rejects the last. */
  lemma FirstJudgement(cfg: Config)
    requires OneCellNorm(cfg.norm) && cfg.normK == 5.0
    ensures Judgements(CohortOf(Singles(FiveNorms()), NoRate), cfg).Some?
    ensures Survivors(CohortOf(Singles(FiveNorms()), NoRate), cfg) == CohortOf(Singles(FourNorms()), NoRate)
  {
    hide Outlier, VerdictOf, Singles, TaskName;
    var cohort := CohortOf(Singles(FiveNorms()), NoRate);
    CohortAdapters(Singles(FiveNorms()));
    SingleNorms(FiveNorms(), cfg.norm);
    assert Verdicts(Singles(FiveNorms()), cfg).Some?;
    var judged := Judgements(cohort, cfg).value;
    forall i: nat | i < 5 ensures judged[i].verdict.Accepted? <==> i < 4 {
      SingleVerdict(FiveNorms(), cfg, i);
      FiveOutliers(i);
    }
    FirstFour(judged);
    ShorterCohort();
  }

  lemma FirstFour(judged: seq<Judged>)
    requires |judged| == 5 && forall i: nat :: i < 5 ==> (judged[i].verdict.Accepted? <==> i < 4)
    ensures Passed(judged) == [judged[0].kept, judged[1].kept, judged[2].kept, judged[3].kept]
  {
    assert Upto(judged)[..3] == judged[..3] && Upto(judged[..4]) == judged[..3] && Upto(judged[..3]) == judged[..2]
      && Upto(judged[..2]) == judged[..1] && Upto(judged[..1]) == [];
    assert Upto(judged) == judged[..4];
    assert Passed(judged[..1]) == [judged[0].kept];
    assert Passed(judged[..2]) == [judged[0].kept, judged[1].kept];
    assert Passed(judged[..3]) == [judged[0].kept, judged[1].kept, judged[2].kept];
    assert Passed(judged[..4]) == [judged[0].kept, judged[1].kept, judged[2].kept, judged[3].kept];
  }

  lemma ShorterCohort()
    ensures var all, some := CohortOf(Singles(FiveNorms()), NoRate), CohortOf(Singles(FourNorms()), NoRate);
      |all| == 5 && some == [all[0], all[1], all[2], all[3]]
  {
  }

  /** Among the four that are left, the one with norm 9 stands out. */
  lemma SecondJudgement(cfg: Config)
    requires OneCellNorm(cfg.norm) && cfg.normK == 5.0
    ensures !NobodyStandsOut(CohortOf(Singles(FourNorms()), NoRate), cfg)
  {
    hide RealSeqs.Median, Singles;
    CohortAdapters(Singles(FourNorms()));
    SingleNorms(FourNorms(), cfg.norm);
    FourOutliers();
    var adapters := Singles(FourNorms());
    assert TENSOR in adapters[0] by { FirstHasTensor(FourNorms()); }
    assert NormsOf(TENSOR, adapters, cfg.norm)[3] == 9.0;
    assert !FitsIn(adapters, cfg, 3);
  }

  lemma FirstHasTensor(vals: seq<real>)
    requires vals != []
    ensures TENSOR in Singles(vals)[0]
  {
  }

  /** The first round holds this cohort, in a state the system reaches. */
  ghost predicate Stands(actions: seq<Action>, cfg: Config, seed: Adapter, beta: real, works: seq<Adapter>) {
    && TidyRun(actions, cfg) && Prepared(After(actions, cfg), seed, Setting(beta, NoRate), works)
    && IsQueryOrder(After(actions, cfg).w.db, FirstRound(), OrderOf(|works|))
  }

  lemma StandsMeans(actions: seq<Action>, cfg: Config, beta: real, vals: seq<real>)
    requires Stands(actions, cfg, Single(0.0), beta, Singles(vals))
    ensures var w := After(actions, cfg).w;
      && RoundIs(w.db, FirstRound(), Open) && RUN in w.db.runs && w.db.runs[RUN] == RowOf(beta) && InPlace(w.db, FirstRound())
      && AllAccepted(w.db, OrderOf(|vals|)) && Cohort(w, OrderOf(|vals|)) == CohortOf(Singles(vals), NoRate)
      && BaseOf(w, FirstRound()) == Some(Single(0.0))
      && CanClose(w, FirstRound(), OrderOf(|vals|), cfg)
      && RoundIs(CloseAll(w, FirstRound(), Choice(OrderOf(|vals|), true, 10), cfg).db, FirstRound(), Closed)
  {
    hide After, TidyRun, AllSound, Singles, CanClose, CloseAll, InPlace, IsQueryOrder;
    var s := After(actions, cfg);
    SinglesFit(vals);
    PreparedCohort(s, Single(0.0), Setting(beta, NoRate), Singles(vals));
    TidyAllSound(actions, cfg);
    AllSoundIsSound(s);
    ReachableInPlace(s, FirstRound());
    QueryAccepted(s.w.db, FirstRound(), OrderOf(|vals|));
    TidyCloseGoesThrough(s, FirstRound(), Choice(OrderOf(|vals|), true, 10), cfg);
    GoesThroughExactlyWhen(s.w, FirstRound(), Choice(OrderOf(|vals|), true, 10), cfg);
    SeedLoads(s, beta, Singles(vals));
  }

  lemma SeedLoads(s: Sys, beta: real, works: seq<Adapter>)
    requires Prepared(s, Single(0.0), Setting(beta, NoRate), works)
    ensures RUN in s.w.db.runs && s.w.db.runs[RUN] == RowOf(beta) && BaseOf(s.w, FirstRound()) == Some(Single(0.0))
  {
    SingleFits(0.0, 0.0);
    LoadUndoesSave(Single(0.0));
  }

  lemma MakeStand(cfg: Config, beta: real, vals: seq<real>) returns (actions: seq<Action>)
    requires CapPositive(cfg)
    ensures Stands(actions, cfg, Single(0.0), beta, Singles(vals))
  {
    hide After, TidyRun, Prepared, Singles, IsQueryOrder;
    SinglesFit(vals);
    var s: Sys;
    actions, s := CohortIsReachable(Single(0.0), Setting(beta, NoRate), Singles(vals), cfg);
    PreparedOrder(s, Single(0.0), Setting(beta, NoRate), Singles(vals));
  }

  /** A failed close whose retry ends elsewhere. Five workers are accepted; the attempt fails after
      gate 4 has rejected one of them; the retried gate rejects another one. */
  lemma RetriedGateCanDiffer(cfg: Config) returns (actions: seq<Action>, answers: seq<bool>)
    requires OneCellNorm(cfg.norm) && cfg.normK == 5.0 && CapPositive(cfg)
    ensures TidyRun(actions, cfg) && AllTrue(answers)
    ensures var w, id, c := After(actions, cfg).w, FirstRound(), Choice(OrderOf(5), true, 10);
      && RoundIs(w.db, id, Open) && IsQueryOrder(w.db, id, c.order) && BeforeCommit(Attempt(w, id, c.order, answers, cfg).1)
      && !EndsAlike(w, Reopened(Attempt(w, id, c.order, answers, cfg).0, id), id, c, cfg)
  {
    hide After, TidyRun, Prepared, Singles, IsQueryOrder, CanClose, CloseAll, InPlace, Attempt, EndsAlike, NobodyStandsOut,
      Survivors, Judgements, Cohort, OrderOf;
    actions := MakeStand(cfg, 0.0, FiveNorms());
    StandsMeans(actions, cfg, 0.0, FiveNorms());
    var w, id, c := After(actions, cfg).w, FirstRound(), Choice(OrderOf(5), true, 10);
    StartsBefore(w, id, c.order, cfg);
    answers := ReachesCombine(w, id, c.order, [], cfg);
    FirstJudgement(cfg);
    SecondJudgement(cfg);
    RetryJudgesSurvivors(w, id, c.order, answers, cfg);
    SteadyRetryExactlyWhen(w, id, c, answers, cfg);
  }

  lemma StartsBefore(w: World, id: RoundId, order: seq<string>, cfg: Config)
    requires RoundIs(w.db, id, Open)
    ensures var pc := Attempt(w, id, order, [], cfg).1; BeforeCommit(pc) && !PastGate(pc)
  {
  }

  // ---- momentum counted twice ---------------------------------------------------------------------

  lemma OneShare(cap: Option<real>, a: Adapter)
    ensures SharesOf([Contribution(a, 1)], cap) == Some([1.0])
  {
    assert Steps([Contribution(a, 1)]) == [1];
    assert DominanceCap.IntSum([1]) == 1;
    assert DominanceCap.Shares([1]) == [1.0];
  }

  lemma OneCellVolume()
    ensures Volume([1]) == 1
  {
    assert Volume([]) == 1;
  }

  lemma OneZero()
    ensures Zeros([1]) == Dense([1], FLOAT32, [0.0])
  {
    assert Volume([1]) == 1 by { assert Volume([]) == 1; }
    assert seq(1, _ => 0.0) == [0.0];
  }

  lemma AddOne(zero: Tensor)
    requires zero == Dense([1], FLOAT32, [0.0])
    ensures AddScaled(zero, 1.0, OneCell(1.0)) == Some(Dense([1], FLOAT32, [1.0]))
  {
    hide Volume;
    BroadcastItself([1]);
    OneZero();
    SingleFits(0.0, 0.0);
    CellItself(zero, 0);
    CellItself(OneCell(1.0), 0);
    var sum := AddScaled(zero, 1.0, OneCell(1.0)).value;
    OneCellVolume();
    assert sum.cells == [1.0];
  }

  lemma OneTotal(base: Adapter, a: Adapter, weights: seq<Weights>)
    requires base == Single(0.0) && a == Single(1.0) && |weights| == 1 && WeightOf(weights[0], TENSOR) == 1.0
    ensures WeightSum(weights, TENSOR) == 1.0
    ensures Total(base, TENSOR, [a], weights) == Some(Dense([1], FLOAT32, [1.0]))
  {
    assert weights[..0] == [];
    assert WeightSum([], TENSOR) == 0.0;
    OneZero();
    var zero := Dense([1], FLOAT32, [0.0]);
    assert Accumulated([1], TENSOR, [a], weights, 0) == Some(zero);
    AddOne(zero);
  }

  /** One worker that moved the only cell from 0 to 1: the momentum does not rest. */
  lemma OneWorkerMoves(cap: Option<real>, beta: real)
    requires beta != 0.0
    ensures !WorkAtRest(Single(0.0), [Contribution(Single(1.0), 1)], cap, beta, ZerosLike(Single(0.0)))
  {
    var base, work := Single(0.0), [Contribution(Single(1.0), 1)];
    OneShare(cap, Single(1.0));
    var weights := WeightsOf(base, work, cap);
    assert Adapters(work) == [Single(1.0)];
    assert weights == DominanceCap.Spread([1.0], base.Keys);
    OneTotal(base, Single(1.0), weights);
    assert Volume([1]) == 1 by { assert Volume([]) == 1; }
    var m := ZerosLike(base);
    assert m[TENSOR] == Dense([1], FLOAT32, [0.0]);
    hide WeightSum, Accumulated, WeightsOf;
    assert !TensorAtRest(base[TENSOR], Total(base, TENSOR, Adapters(work), weights).value, WeightSum(weights, TENSOR), m[TENSOR], beta) by {
      assert base[TENSOR].cells[0] - 1.0 / 1.0 != (1.0 - beta) * 0.0;
    }
  }

  /** A failed close whose retry ends elsewhere although gate 4 agrees. One worker is accepted in a
      run with momentum; the attempt fails right before its commit; the retry starts from the momentum
      the attempt has already named and counts the round's gradient twice. */
  lemma RetriedMomentumCanDiffer(cfg: Config, beta: real) returns (actions: seq<Action>, answers: seq<bool>)
    requires CapPositive(cfg) && beta != 0.0
    ensures TidyRun(actions, cfg) && AllTrue(answers)
    ensures var w, id, c := After(actions, cfg).w, FirstRound(), Choice(OrderOf(1), true, 10);
      && RoundIs(w.db, id, Open) && IsQueryOrder(w.db, id, c.order) && BeforeCommit(Attempt(w, id, c.order, answers, cfg).1)
      && !EndsAlike(w, Reopened(Attempt(w, id, c.order, answers, cfg).0, id), id, c, cfg)
  {
    hide After, TidyRun, Prepared, IsQueryOrder, CanClose, CloseAll, InPlace, Attempt, EndsAlike, Survivors, Judgements,
      Cohort, OrderOf, WorkAtRest, Steady, Underway;
    actions := MakeStand(cfg, beta, [1.0]);
    StandsMeans(actions, cfg, beta, [1.0]);
    var w, id, c := After(actions, cfg).w, FirstRound(), Choice(OrderOf(1), true, 10);
    StartsBefore(w, id, c.order, cfg);
    answers := ReachesCommit(w, id, c.order, [], cfg);
    var turned := AttemptSteady(w, id, c.order, answers, cfg);
    var a := Attempt(w, id, c.order, answers, cfg);
    LoneSurvivor(cfg);
    RetryJudgesSurvivors(w, id, c.order, answers, cfg);
    SurvivorsLeft(w, id, c.order, turned, cfg, a.1);
    InHandIsStill(w, c.order, turned);
    CommitHasResult(w, id, c.order, turned, cfg, a.0, a.1);
    OneWorkerMoves(cfg.cap, beta);
    LoneStart(w, id, beta);
    SteadyRetryExactlyWhen(w, id, c, answers, cfg);
  }

  lemma LoneSurvivor(cfg: Config)
    ensures Judgements(CohortOf(Singles([1.0]), NoRate), cfg).Some?
    ensures Survivors(CohortOf(Singles([1.0]), NoRate), cfg) == CohortOf(Singles([1.0]), NoRate)
    ensures Works(CohortOf(Singles([1.0]), NoRate)) == [Contribution(Single(1.0), 1)]
  {
    var cohort := CohortOf(Singles([1.0]), NoRate);
    var judged := Judgements(cohort, cfg).value;
    assert judged == [Judged(cohort[0], Accepted)];
    assert Upto(judged) == [] && Passed([]) == [];
  }

  lemma CommitHasResult(w: World, id: RoundId, order: seq<string>, turned: set<string>, cfg: Config, now: World, pc: Pc)
    requires RoundIs(w.db, id, Open) && id.run in w.db.runs && (forall t :: t in order ==> t in w.db.subs)
    requires Underway(w, id, order, turned, true, cfg, now, pc) && pc.Committing? && InHand(w, order, turned) != []
    ensures pc.result.Some?
  {
    hide InHand, Made, Fetch;
  }

  lemma LoneStart(w: World, id: RoundId, beta: real)
    requires id.run in w.db.runs && w.db.runs[id.run] == RowOf(beta)
    ensures StartAt(w, id, Single(0.0)) == ZerosLike(Single(0.0))
  {
    hide ZerosLike;
  }

  // ---- closes that publish nothing -------------------------------------------------------------------

  /** A moment past the backstop of the first round. */
  const LATER: int := 10 * SECOND

  lemma BlocksFit(names: seq<string>, n: nat, k: real)
    requires n >= 3 && names != []
    ensures var seed := BlockSeed(names);
      GoodSeed(seed) && forall i :: 0 <= i < n ==> Fits(BlockCohort(names, n, k)[i], seed)
  {
    assert Volume([1]) == 1 by { assert Volume([]) == 1; }
    var seed := BlockSeed(names);
    assert names[0] in seed;
    forall i | 0 <= i < n ensures Fits(BlockCohort(names, n, k)[i], seed) {
      assert ManifestOf(BlockAdapter(names, n, k, i)) == ManifestOf(seed);
    }
  }

  function BlockSeed(names: seq<string>): Adapter {
    map name | name in names :: OneCell(0.0)
  }

  lemma CondemnedNobodyPasses(w: World, works: seq<Adapter>, cfg: Config)
    requires |works| >= 3 && AllAccepted(w.db, OrderOf(|works|)) && Cohort(w, OrderOf(|works|)) == CohortOf(works, NoRate)
    requires SharedNames(works) && !SomebodyLeft(works, cfg.norm, cfg.normK)
    ensures forall t :: !Passes(w, OrderOf(|works|), cfg, t)
  {
    hide Condemned, Cohort, OrderOf, CohortOf, SharedNames;
    CohortAdapters(works);
    forall i: nat | i < |works| ensures Condemned(works, cfg.norm, cfg.normK, i) {
      assert VerdictOf(works, cfg.norm, cfg.normK, i) != Accepted;
    }
  }

  lemma WorkedCounts(s: Sys, seed: Adapter, o: Setting, works: seq<Adapter>)
    requires Prepared(s, seed, o, works) && works != []
    ensures ShouldClose(s.w.db, FirstRound(), LATER)
  {
    hide TaskName, Progress;
    assert Worked(s, o, 0, works[0]);
    assert TaskName(0) in Counted(s.w.db, FirstRound());
  }

  /** Gate 4 can strand a run. For every cohort size and enough tensors there is a round whose work is
      all accepted, that the close rule closes, and whose close publishes nothing: gate 4 condemns
      everybody. */
  lemma GateCanStrand(names: seq<string>, n: nat, cfg: Config) returns (actions: seq<Action>, more: seq<Action>)
    requires n >= 3 && Distinct(names) && |names| * ((n - 1) / 2) >= n
    requires OneCellNorm(cfg.norm) && cfg.normK >= 1.0 && CapPositive(cfg)
    ensures TidyRun(actions, cfg)
    ensures var w, c := After(actions, cfg).w, Choice(OrderOf(n), true, LATER);
      && ShouldClose(w.db, FirstRound(), LATER) && IsQueryOrder(w.db, FirstRound(), c.order)
      && After(actions + more, cfg).w == MaybeClose(w, RUN, c, cfg) && Stranded(After(actions + more, cfg), RUN)
  {
    hide After, TidyRun, Prepared, IsQueryOrder, BlockCohort, ShouldClose, MaybeClose, Stranded, OrderOf, CohortOf, Cohort, Passes;
    var works := BlockCohort(names, n, cfg.normK);
    assert names != [];
    BlocksFit(names, n, cfg.normK);
    var s: Sys;
    actions, s := CohortIsReachable(BlockSeed(names), PLAIN, works, cfg);
    PreparedOrder(s, BlockSeed(names), PLAIN, works);
    PreparedCohort(s, BlockSeed(names), PLAIN, works);
    WorkedCounts(s, BlockSeed(names), PLAIN, works);
    QueryAccepted(s.w.db, FirstRound(), OrderOf(n));
    BlocksCondemnEverybody(names, n, cfg.normK, cfg.norm);
    CondemnedNobodyPasses(s.w, works, cfg);
    more := PollPublishesExactlyWhen(actions, cfg, RUN, Choice(OrderOf(n), true, LATER));
  }

  lemma LonePasser(w: World, works: seq<Adapter>, metrics: Metrics, cfg: Config)
    requires |works| == 1 && AllAccepted(w.db, OrderOf(1)) && Cohort(w, OrderOf(1)) == CohortOf(works, metrics)
    ensures Passes(w, OrderOf(1), cfg, TaskName(0))
  {
    hide TaskName, Cohort, OrderOf;
    assert CohortOf(works, metrics)[0].task == TaskName(0);
  }

  /** Metrics can strand a run with a result on record: one accepted submission whose worker reports a
      rate that cannot be read. The close publishes and commits, raises before it opens the next round,
      and cannot give the round back. */
  lemma MetricsCanStrand(cfg: Config) returns (actions: seq<Action>, more: seq<Action>)
    requires CapPositive(cfg)
    ensures TidyRun(actions, cfg)
    ensures var w, c, end := After(actions, cfg).w, Choice(OrderOf(1), true, LATER), After(actions + more, cfg);
      && ShouldClose(w.db, FirstRound(), LATER) && IsQueryOrder(w.db, FirstRound(), c.order)
      && end.w == MaybeClose(w, RUN, c, cfg) && PollRaises(w, RUN, c, cfg)
      && FirstRound() in end.w.db.rounds && end.w.db.rounds[FirstRound()].result == Some(ResultKey(FirstRound()))
      && Stranded(end, RUN)
  {
    hide After, TidyRun, Prepared, IsQueryOrder, ShouldClose, MaybeClose, PollRaises, Stranded, OrderOf, CohortOf, Cohort, Passes, TaskName;
    var o, works := Setting(0.0, Unreadable), [Single(0.0)];
    SingleFits(0.0, 0.0);
    var s: Sys;
    actions, s := CohortIsReachable(Single(0.0), o, works, cfg);
    PreparedOrder(s, Single(0.0), o, works);
    PreparedCohort(s, Single(0.0), o, works);
    WorkedCounts(s, Single(0.0), o, works);
    QueryAccepted(s.w.db, FirstRound(), OrderOf(1));
    LonePasser(s.w, works, Unreadable, cfg);
    FirstUnreadable(s, Single(0.0), works);
    more := PollPublishesExactlyWhen(actions, cfg, RUN, Choice(OrderOf(1), true, LATER));
  }

  lemma FirstUnreadable(s: Sys, seed: Adapter, works: seq<Adapter>)
    requires Prepared(s, seed, Setting(0.0, Unreadable), works) && works != []
    ensures !Readable(s.w, TaskName(0))
  {
    hide TaskName;
    assert Worked(s, Setting(0.0, Unreadable), 0, works[0]);
  }

  lemma UngatedState(s: Sys, seed: Adapter, o: Setting, g: Gate)
    requires Gating(s, seed, o, [], g)
    ensures ShouldClose(s.w.db, FirstRound(), LATER) && IsQueryOrder(s.w.db, FirstRound(), [])
    ensures RunActive(s.w.db, RUN) && CurrentId(s.w.db, RUN) == FirstRound() && RoundIs(s.w.db, FirstRound(), Open)
    ensures s.w.db.tasks.Keys == {TaskName(0)} && s.w.db.subs.Keys == {TaskName(0)} && s.w.db.tasks[TaskName(0)].round == FirstRound()
  {
    hide TaskName, Progress;
    assert Names(1) == {TaskName(0)};
    assert TaskName(0) in Counted(s.w.db, FirstRound());
  }

  /** Ungated work can strand a run: one submission that has not been gated yet, past the backstop. */
  lemma UngatedCanStrand(cfg: Config) returns (actions: seq<Action>, more: seq<Action>)
    requires CapPositive(cfg)
    ensures TidyRun(actions, cfg)
    ensures var w := After(actions, cfg).w;
      && Ungated(w.db, FirstRound()) != {} && ShouldClose(w.db, FirstRound(), LATER)
      && After(actions + more, cfg).w == MaybeClose(w, RUN, Choice([], true, LATER), cfg) && Stranded(After(actions + more, cfg), RUN)
  {
    hide After, TidyRun, Prepared, IsQueryOrder, ShouldClose, MaybeClose, Stranded, Gating, TaskName, Uploaded;
    SingleFits(0.0, 0.0);
    var s: Sys;
    actions, s := StartRun(Single(0.0), PLAIN, cfg);
    actions, s := SubmitOne(actions, s, Single(0.0), PLAIN, [], Single(0.0), cfg);
    UngatedState(s, Single(0.0), PLAIN, Received);
    UngatedTask(s, Single(0.0), PLAIN, Received);
    more := UngatedWorkStrands(actions, cfg, RUN, Choice([], true, LATER));
  }

  lemma UngatedTask(s: Sys, seed: Adapter, o: Setting, g: Gate)
    requires Gating(s, seed, o, [], g)
    ensures TaskName(0) in Ungated(s.w.db, FirstRound()) && s.gates == map[TaskName(0) := g]
    ensures BaseKey(RUN, 0) in s.w.store && s.w.store[BaseKey(RUN, 0)] == SaveAdapter(seed)
    ensures s.w.db.rounds[FirstRound()].base == BaseKey(RUN, 0)
  {
    hide TaskName;
  }

  /** A verdict can come late: the close asks for accepted work between a request's gating and the
      recording of its verdict, and the diagnostic then reports a round that lost nothing. */
  lemma VerdictCanComeLate(cfg: Config) returns (actions: seq<Action>)
    requires CapPositive(cfg)
    ensures LateWork.NoResultAdapter(After(actions, cfg).w.db, FirstRound())
  {
    hide After, TidyRun, Prepared, IsQueryOrder, Gating, TaskName, Apply, CloseAll, CommitClose, Uploaded;
    SingleFits(0.0, 0.0);
    var s: Sys;
    actions, s := StartRun(Single(0.0), PLAIN, cfg);
    actions, s := SubmitOne(actions, s, Single(0.0), PLAIN, [], Single(0.0), cfg);
    var read, write := GateRead(TaskName(0), true), GateWrite(TaskName(0));
    GateTurn(s, Single(0.0), PLAIN, [], Single(0.0), cfg);
    AfterOne(actions, read, cfg);
    var gated := Apply(s, read, cfg);
    UngatedState(gated, Single(0.0), PLAIN, Decided(true));
    UngatedTask(gated, Single(0.0), PLAIN, Decided(true));
    LoadUndoesSave(Single(0.0));
    var c := Choice([], true, LATER);
    NothingAcceptedNothingPublished(gated.w, FirstRound(), c, cfg);
    var more, p := CloseByActions(gated, FirstRound(), c, cfg);
    OnwardAfter(actions + [read], more, cfg);
    actions := actions + [read] + more;
    CommittedEmpty(gated, p, cfg, write);
    AfterOne(actions, write, cfg);
    LateAfterOne(actions, write, cfg);
    actions := actions + [write];
    LateWork.NoResultExactlyWhen(actions, cfg, FirstRound());
  }

  lemma CommittedEmpty(s: Sys, p: nat, cfg: Config, write: Action)
    requires RoundIs(s.w.db, FirstRound(), Open) && s.gates == map[TaskName(0) := Decided(true)] && write == GateWrite(TaskName(0))
    requires TaskName(0) in s.w.db.tasks && s.w.db.tasks[TaskName(0)].round == FirstRound()
    ensures var n := s.(w := s.w.(db := CommitClose(Claiming(s.w, FirstRound()).db, FirstRound(), None)), closers := s.closers[p := Ended]);
      && LateWork.Accepts(n, write, FirstRound())
      && RoundIs(Apply(n, write, cfg).w.db, FirstRound(), Closed) && Apply(n, write, cfg).w.db.rounds[FirstRound()].result.None?
  {
    hide TaskName;
  }

  lemma LateAfterOne(actions: seq<Action>, write: Action, cfg: Config)
    requires write.GateWrite? && LateWork.Accepts(After(actions, cfg), write, FirstRound())
    ensures LateWork.Late(actions + [write], cfg, FirstRound()) != {}
  {
    hide After;
    assert (actions + [write])[..|actions|] == actions;
    assert write.task in LateWork.Late(actions + [write], cfg, FirstRound());
  }

  // ---- crashes ------------------------------------------------------------------------------------------

  /** A crash can wedge a round: one close claimed, and its coordinator gone. */
  lemma CrashCanWedge(cfg: Config) returns (actions: seq<Action>)
    requires CapPositive(cfg)
    ensures Wedged(After(actions, cfg), FirstRound())
  {
    hide After, TidyRun, Prepared, Apply;
    SingleFits(0.0, 0.0);
    var s: Sys;
    actions, s := StartRun(Single(0.0), PLAIN, cfg);
    StartThenCrash(s, Single(0.0), cfg);
    AfterOne(actions, StartClose(0, FirstRound()), cfg);
    AfterOne(actions + [StartClose(0, FirstRound())], CrashClose(0), cfg);
    actions := actions + [StartClose(0, FirstRound())] + [CrashClose(0)];
  }

  lemma StartThenCrash(s: Sys, seed: Adapter, cfg: Config)
    requires Prepared(s, seed, PLAIN, [])
    ensures Wedged(Apply(Apply(s, StartClose(0, FirstRound()), cfg), CrashClose(0), cfg), FirstRound())
  {
  }

  // ---- the coverage alarm -----------------------------------------------------------------------------

  function TwoBucketRow(): Run {
    RowOf(0.0).(numBuckets := 2)
  }

  lemma TwoBucketStart(seed: Adapter, cfg: Config)
    requires GoodSeed(seed)
    ensures var a := Apply(Empty(), PutSeed(RUN, seed), cfg);
      var b := Apply(a, AddRun(RUN, TwoBucketRow()), cfg);
      var n := Apply(b, OpenFirst(RUN, Timing(1, 0, 1), 0), cfg);
      Coverage.TwoFreshBuckets(n.w.db, RUN) && RUN in n.w.db.runs && CurrentId(n.w.db, RUN) == FirstRound()
  {
    hide FreshBuckets, WellFormedAdapter, Finite;
  }

  lemma ThreeClaimsApply(s: Sys, cfg: Config)
    requires Coverage.TwoFreshBuckets(s.w.db, RUN)
    ensures var one := Apply(s, ClaimWork(Coverage.OneBucket(RUN, "a", "A", 0)), cfg);
      var two := Apply(one, ClaimWork(Coverage.OneBucket(RUN, "b", "B", 1)), cfg);
      var three := Apply(Apply(two, Beat("A", "a", 1, 4, 5), cfg), ClaimWork(Coverage.OneBucket(RUN, "c", "C", 5)), cfg);
      Apply(three, Expire(8), cfg).w.db == ExpireLeases(Coverage.ThreeClaims(s.w.db, RUN), 8)
  {
    hide ClaimTask, ExpireLeases;
    Coverage.TwoClaims(s.w.db, RUN);
    hide Coverage.TwoFreshBuckets;
  }

  /** The coverage diagnostic can fire on a healthy run, eight actions from nothing. */
  lemma CoverageAlarmCanFire(cfg: Config) returns (actions: seq<Action>)
    ensures |actions| == 8 && Coverage.LiveCheckFires(After(actions, cfg).w.db, FirstRound())
  {
    hide After, Apply, ExpireLeases, Coverage.LiveCheckFires, Coverage.ThreeClaims;
    SingleFits(0.0, 0.0);
    TwoBucketStart(Single(0.0), cfg);
    AfterNone(cfg);
    actions := [];
    actions := AndThen(actions, PutSeed(RUN, Single(0.0)), cfg);
    actions := AndThen(actions, AddRun(RUN, TwoBucketRow()), cfg);
    actions := AndThen(actions, OpenFirst(RUN, Timing(1, 0, 1), 0), cfg);
    var s := After(actions, cfg);
    ThreeClaimsApply(s, cfg);
    Coverage.HealthyRunTripsAlarm(s.w.db, RUN);
    actions := AndThen(actions, ClaimWork(Coverage.OneBucket(RUN, "a", "A", 0)), cfg);
    actions := AndThen(actions, ClaimWork(Coverage.OneBucket(RUN, "b", "B", 1)), cfg);
    actions := AndThen(actions, Beat("A", "a", 1, 4, 5), cfg);
    actions := AndThen(actions, ClaimWork(Coverage.OneBucket(RUN, "c", "C", 5)), cfg);
    actions := AndThen(actions, Expire(8), cfg);
  }

  lemma AndThen(actions: seq<Action>, a: Action, cfg: Config) returns (more: seq<Action>)
    ensures more == actions + [a] && After(more, cfg) == Apply(After(actions, cfg), a, cfg)
  {
    more := actions + [a];
    AfterOne(actions, a, cfg);
  }

  lemma AfterNone(cfg: Config)
    ensures After([], cfg) == Empty()
  {
  }
}
