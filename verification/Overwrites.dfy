/** What an artifact overwritten after its gate can do to the close of its round: reachable inputs,
    outside tidy runs, on which a promise fails. */
module Overwrites {
  import opened Wrappers
  import opened Tensors
  import opened Broadcasting
  import opened NormGate
  import opened GateSurvival
  import opened OuterStep
  import opened Contributions
  import opened Divergence
  import DominanceCap
  import opened ObjectKeys
  import opened Tables
  import opened Rounds
  import opened Closer
  import opened System
  import opened CloseSafety
  import opened RefSafety
  import opened RefCloses
  import opened CloseRun
  import opened Leftovers
  import opened Attempts
  import opened Retry
  import opened Polling
  import opened ReachableCloses
  import opened Scenarios
  import opened FailingInputs

  // ---- a round of workers that change nothing, one of them overwritten ------------------------

  function Same(n: nat): (r: seq<Adapter>)
    ensures |r| == n
  {
    seq(n, _ => Single(0.0))
  }

  /** Some run in which n workers submit the seed unchanged and are accepted, and then the first one's
      artifact is overwritten. */
  lemma MakeOverwritten(n: nat, a: Adapter, cfg: Config) returns (actions: seq<Action>)
    requires CapPositive(cfg) && n >= 1
    ensures Prepared(After(actions, cfg), Single(0.0), PLAIN, Same(n)[0 := a])
  {
    hide After, TidyRun, Prepared, Apply, Fits;
    SingleFits(0.0, 0.0);
    var accepted, s := CohortIsReachable(Single(0.0), PLAIN, Same(n), cfg);
    var overwrite := Upload(TaskName(0), SaveAdapter(a));
    OverwriteOne(s, Single(0.0), PLAIN, Same(n), 0, a, cfg);
    AfterOne(accepted, overwrite, cfg);
    actions := accepted + [overwrite];
  }

  lemma OverwrittenRound(s: Sys, works: seq<Adapter>)
    requires Prepared(s, Single(0.0), PLAIN, works) && works != [] && forall i :: 0 <= i < |works| ==> WellFormedAdapter(works[i])
    ensures RoundIs(s.w.db, FirstRound(), Open) && RunActive(s.w.db, RUN) && CurrentId(s.w.db, RUN) == FirstRound()
    ensures s.w.db.runs[RUN] == RowOf(0.0) && s.w.db.rounds == map[FirstRound() := OpenRow()]
    ensures ShouldClose(s.w.db, FirstRound(), LATER) && OverdueRound(s.w.db, FirstRound(), LATER) && Counted(s.w.db, FirstRound()) != {}
    ensures IsQueryOrder(s.w.db, FirstRound(), OrderOf(|works|)) && AllAccepted(s.w.db, OrderOf(|works|))
    ensures Cohort(s.w, OrderOf(|works|)) == CohortOf(works, NoRate)
    ensures BaseOf(s.w, FirstRound()) == Some(Single(0.0))
  {
    hide IsQueryOrder, Cohort, CohortOf, OrderOf, TaskName, Progress, Counted;
    PreparedOrder(s, Single(0.0), PLAIN, works);
    PreparedCohort(s, Single(0.0), PLAIN, works);
    WorkedCounts(s, Single(0.0), PLAIN, works);
    QueryAccepted(s.w.db, FirstRound(), OrderOf(|works|));
    SeedLoads(s, 0.0, works);
    CloseNeedsWork(s.w.db, FirstRound(), LATER);
  }

  /** Nobody is judged in so small a cohort. */
  lemma FewSurvive(works: seq<Adapter>, cfg: Config)
    requires |works| < 3
    ensures Judgements(CohortOf(works, NoRate), cfg).Some? && Survivors(CohortOf(works, NoRate), cfg) == CohortOf(works, NoRate)
    ensures Adapters(Works(CohortOf(works, NoRate))) == works
  {
    CohortAdapters(works);
    var cohort := CohortOf(works, NoRate);
    var judged := Judgements(cohort, cfg).value;
    AllPass(judged, cohort);
  }

  lemma {:induction false} AllPass(judged: seq<Judged>, kept: seq<Kept>)
    requires |judged| == |kept| && forall i :: 0 <= i < |kept| ==> judged[i] == Judged(kept[i], Accepted)
    ensures Passed(judged) == kept
  {
    if kept != [] {
      AllPass(Upto(judged), Upto(kept));
      assert kept == Upto(kept) + [Last(kept)];
    }
  }

  // ---- a wider tensor ---------------------------------------------------------------------------

  /** The seed's tensor, in a shape that the seed's stretches to. */
  function Wide(): Adapter {
    map[TENSOR := Dense([2], FLOAT32, [1.0, 1.0])]
  }

  lemma WideShapes()
    ensures WellFormedAdapter(Wide()) && Broadcast([1], [2]) == Some([2]) && !Into([2], [1])
  {
    assert Volume([2]) == 2 by { assert Volume([]) == 1; }
    var one: Shape, two: Shape := [1], [2];
    assert one[1..] == [] && two[1..] == [] && [2] + [] == two;
    assert Broadcast([], []) == Some([]);
  }

  lemma LoneWeight(cap: Option<real>, a: Adapter)
    ensures SharesOf([Contribution(a, 1)], cap) == Some([1.0])
    ensures var weights := DominanceCap.Spread([1.0], {TENSOR});
      |weights| == 1 && WeightOf(weights[0], TENSOR) == 1.0 && WeightSum(weights, TENSOR) == 1.0
  {
    OneShare(cap, a);
    var weights := DominanceCap.Spread([1.0], {TENSOR});
    assert weights[..0] == [] && WeightSum([], TENSOR) == 0.0;
  }

  lemma WideStep(weights: seq<Weights>)
    requires |weights| == 1 && WeightOf(weights[0], TENSOR) == 1.0 && WeightSum(weights, TENSOR) == 1.0
    ensures TensorStep(OneCell(0.0), TENSOR, [Wide()], weights, 1.0, 0.0, Zeros([1])).Some?
    ensures !StretchesInto(OneCell(0.0), TENSOR, [Wide()], weights, Zeros([1]))
  {
    hide Broadcast, Into, CellAt, Volume, WeightOf, WeightSum, NextCell, MomentumCell;
    WideShapes();
    assert Accumulated([1], TENSOR, [Wide()], weights, 0) == Some(Zeros([1]));
    assert Accumulated([1], TENSOR, [Wide()], weights, 1) == AddScaled(Zeros([1]), 1.0, Wide()[TENSOR]);
  }

  /** Combining the wide adapter alone goes through, and reshapes the base. */
  lemma WideCombines(cap: Option<real>)
    ensures var o := Published(Single(0.0), [Contribution(Wide(), 1)], cap, "mean", 1.0, 0.0, None);
      o.Some? && WellFormedAdapter(o.value.adapter) && ManifestOf(o.value.adapter) != ManifestOf(Single(0.0))
  {
    hide TensorStep, StretchesInto, Zeros;
    var base, work := Single(0.0), [Contribution(Wide(), 1)];
    LoneWeight(cap, Wide());
    assert base.Keys == {TENSOR} && Adapters(work) == [Wide()];
    var weights := DominanceCap.Spread([1.0], {TENSOR});
    WideStep(weights);
    SingleFits(0.0, 0.0);
    var m := StartMomentum(base, 0.0, None);
    assert m[TENSOR] == Zeros([1]) && base[TENSOR] == OneCell(0.0);
    assert Combined(base, Adapters(work), weights, "mean", 1.0, 0.0, None).Some?;
    CombinedKeepsManifest(base, Adapters(work), weights, "mean", 1.0, 0.0, None);
    CombinedGrows(base, Adapters(work), weights, "mean", 1.0, 0.0, None);
    assert TENSOR in base && !StretchesInto(base[TENSOR], TENSOR, Adapters(work), weights, m[TENSOR]);
  }

  lemma WideCanClose(s: Sys, cfg: Config)
    requires Prepared(s, Single(0.0), PLAIN, [Wide()])
    ensures AllAccepted(s.w.db, OrderOf(1)) && RoundIs(s.w.db, FirstRound(), Open) && RUN in s.w.db.runs
    ensures Judgements(Cohort(s.w, OrderOf(1)), cfg).Some?
    ensures Survivors(Cohort(s.w, OrderOf(1)), cfg) == CohortOf([Wide()], NoRate)
    ensures CanClose(s.w, FirstRound(), OrderOf(1), cfg)
    ensures CombineKept(s.w.store, JobOf(s.w.db, FirstRound()), Single(0.0), CohortOf([Wide()], NoRate), true, cfg)
         == Published(Single(0.0), [Contribution(Wide(), 1)], cfg.cap, "mean", 1.0, 0.0, None)
  {
    hide Published, Cohort, Prepared, Judgements, OrderOf, Survivors;
    WideShapes();
    OverwrittenRound(s, [Wide()]);
    FewSurvive([Wide()], cfg);
    WideCombines(cfg.cap);
    assert Works(CohortOf([Wide()], NoRate)) == [Contribution(Wide(), 1)];
  }

  /** Outside tidy runs a base can change its shape: one accepted worker overwrites its artifact with a
      wider tensor, which no gate looks at again, and the close stretches the base to it. */
  lemma OverwriteCanReshape(cfg: Config) returns (actions: seq<Action>)
    requires CapPositive(cfg)
    ensures var s, next := After(actions, cfg), RoundId(RUN, 1);
      && RoundIs(s.w.db, next, Open) && HasSeed(s.w.store, RUN) && Fetch(s.w.store, s.w.db.rounds[next].base).Some?
      && ManifestOf(Fetch(s.w.store, s.w.db.rounds[next].base).value) != ManifestOf(SeedOf(s.w.store, RUN))
  {
    hide After, TidyRun, Prepared, IsQueryOrder, CanClose, CloseAll, CombineKept, Published, Survivors, Cohort, OrderOf, Passes, AllReadable;
    actions := MakeOverwritten(1, Wide(), cfg);
    var s, c := After(actions, cfg), Choice(OrderOf(1), true, LATER);
    assert Same(1)[0 := Wide()] == [Wide()];
    WideShapes();
    OverwrittenRound(s, [Wide()]);
    WideCanClose(s, cfg);
    WideCombines(cfg.cap);
    ClosePuts(s.w, FirstRound(), c, cfg);
    GoesThroughExactlyWhen(s.w, FirstRound(), c, cfg);
    ClosePublishesExactlyWhen(s.w, FirstRound(), c, cfg);
    LonePasser(s.w, [Wide()], NoRate, cfg);
    LoneReadable(s, [Wide()], cfg);
    var more, p := CloseByActions(s, FirstRound(), c, cfg);
    OnwardAfter(actions, more, cfg);
    LoadUndoesSave(Published(Single(0.0), [Contribution(Wide(), 1)], cfg.cap, "mean", 1.0, 0.0, None).value.adapter);
    actions := actions + more;
  }

  lemma LoneReadable(s: Sys, works: seq<Adapter>, cfg: Config)
    requires Prepared(s, Single(0.0), PLAIN, works) && AllAccepted(s.w.db, OrderOf(|works|))
    requires Cohort(s.w, OrderOf(|works|)) == CohortOf(works, NoRate)
    ensures AllReadable(s.w, OrderOf(|works|), cfg)
  {
    hide TaskName, Cohort, OrderOf, Condemned, SharedNames;
    forall t | Passes(s.w, OrderOf(|works|), cfg, t) ensures Readable(s.w, t) {
      var i: nat :| i < |works| && CohortOf(works, NoRate)[i].task == t;
      assert Worked(s, PLAIN, i, works[i]);
    }
  }

  // ---- a tensor too many --------------------------------------------------------------------------

  /** The seed with one tensor more. */
  function Extra(): Adapter {
    Single(0.0)["y" := OneCell(1.0)]
  }

  function Pair(): seq<Adapter> {
    [Extra(), Single(0.0)]
  }

  lemma ExtraIsWellFormed()
    ensures WellFormedAdapter(Extra()) && WellFormedAdapter(Single(0.0)) && !Comparable(Pair())
  {
    SingleFits(0.0, 0.0);
    OneCellVolume();
    assert "y" in Pair()[0] && "y" !in Pair()[1];
    assert !SharedNames(Pair());
  }

  lemma PairStep(weights: seq<Weights>)
    requires |weights| == 2
    ensures TensorStep(OneCell(0.0), TENSOR, Pair(), weights, 1.0, 0.0, Zeros([1])).Some?
  {
    hide Broadcast, CellAt, Volume, WeightOf, WeightSum, NextCell, MomentumCell;
    var zero, one := Accumulated([1], TENSOR, Pair(), weights, 0), Accumulated([1], TENSOR, Pair(), weights, 1);
    assert zero == Some(Zeros([1]));
    assert Pair()[0][TENSOR] == OneCell(0.0) && Pair()[1][TENSOR] == OneCell(0.0);
    SameShapeAdds(zero.value, WeightOf(weights[0], TENSOR), OneCell(0.0));
    assert one.Some? && one.value.Dense? && one.value.shape == [1];
    SameShapeAdds(one.value, WeightOf(weights[1], TENSOR), OneCell(0.0));
    BroadcastItself([1]);
  }

  lemma PairCombines(cfg: Config)
    requires CapPositive(cfg)
    ensures Published(Single(0.0), [Contribution(Extra(), 1), Contribution(Single(0.0), 1)], cfg.cap, "mean", 1.0, 0.0, None).Some?
  {
    hide TensorStep, Zeros;
    var base, work := Single(0.0), [Contribution(Extra(), 1), Contribution(Single(0.0), 1)];
    assert Steps(work) == [1, 1];
    DominanceCap.SharesNeverFail([1, 1], cfg.cap);
    assert base.Keys == {TENSOR} && Adapters(work) == Pair();
    var weights := DominanceCap.Spread(SharesOf(work, cfg.cap).value, base.Keys);
    PairStep(weights);
    var m := StartMomentum(base, 0.0, None);
    assert m[TENSOR] == Zeros([1]) && base[TENSOR] == OneCell(0.0);
  }

  lemma BothPass(w: World, cfg: Config)
    requires AllAccepted(w.db, OrderOf(2)) && Cohort(w, OrderOf(2)) == CohortOf(Pair(), NoRate)
    ensures Passes(w, OrderOf(2), cfg, TaskName(0)) && Passes(w, OrderOf(2), cfg, TaskName(1))
  {
    hide TaskName, Cohort, OrderOf, Condemned, SharedNames;
    var cohort := CohortOf(Pair(), NoRate);
    assert cohort[0].task == TaskName(0) && cohort[1].task == TaskName(1);
  }

  /** Outside tidy runs a close can fail although gate 4 rejects nobody and the work combines: one of
      two accepted workers overwrites its artifact with a tensor too many, which only the divergence
      looks up. The poll raises, and the overdue round is as open as before. */
  lemma OverwriteCanFailClose(cfg: Config) returns (actions: seq<Action>, more: seq<Action>)
    requires CapPositive(cfg)
    ensures var w, c, end := After(actions, cfg).w, Choice(OrderOf(2), true, LATER), After(actions + more, cfg).w;
      && AllAccepted(w.db, c.order) && IsQueryOrder(w.db, FirstRound(), c.order) && BaseOf(w, FirstRound()).Some?
      && Passes(w, c.order, cfg, TaskName(0)) && Passes(w, c.order, cfg, TaskName(1))
      && Published(BaseOf(w, FirstRound()).value, Works(Cohort(w, c.order)), cfg.cap, "mean", 1.0, 0.0, None).Some?
      && end == MaybeClose(w, RUN, c, cfg) && PollRaises(w, RUN, c, cfg) && OverdueRound(end.db, FirstRound(), LATER)
  {
    hide After, TidyRun, Prepared, IsQueryOrder, CanClose, CloseAll, CloseRaises, CombineKept, Published, Survivors, Cohort, OrderOf, Passes,
      AllReadable, Comparable, TaskName, Counted, Progress, Extra;
    actions := MakeOverwritten(2, Extra(), cfg);
    var s, c := After(actions, cfg), Choice(OrderOf(2), true, LATER);
    assert Same(2)[0 := Extra()] == Pair();
    ExtraIsWellFormed();
    OverwrittenRound(s, Pair());
    BothPass(s.w, cfg);
    PairCombines(cfg);
    PairCannotClose(s, cfg);
    CloseRaisesExactlyWhen(s.w, FirstRound(), c, cfg);
    OverdueSurvivesExactlyWhen(s.w, RUN, c, cfg);
    var p: nat;
    more, p := CloseByActions(s, FirstRound(), c, cfg);
    OnwardAfter(actions, more, cfg);
  }

  lemma PairCannotClose(s: Sys, cfg: Config)
    requires Prepared(s, Single(0.0), PLAIN, Pair())
    ensures AllAccepted(s.w.db, OrderOf(2)) && RoundIs(s.w.db, FirstRound(), Open) && RUN in s.w.db.runs
    ensures !CanClose(s.w, FirstRound(), OrderOf(2), cfg)
    ensures Works(Cohort(s.w, OrderOf(2))) == [Contribution(Extra(), 1), Contribution(Single(0.0), 1)]
  {
    hide Published, Cohort, Prepared, Judgements, OrderOf, Survivors, Comparable, Extra;
    ExtraIsWellFormed();
    OverwrittenRound(s, Pair());
    FewSurvive(Pair(), cfg);
    assert Works(CohortOf(Pair(), NoRate)) == [Contribution(Extra(), 1), Contribution(Single(0.0), 1)];
  }
}
