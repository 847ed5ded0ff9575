/** A steady attempt of a close that can go through reaches every stage before its commit. */
module Reaching {
  import opened Wrappers
  import opened Tensors
  import opened OuterStep
  import opened Contributions
  import opened ObjectKeys
  import opened Tables
  import opened Rounds
  import opened Closer
  import opened System
  import opened CloseRun
  import opened Leftovers
  import opened Attempts
  import opened Retry

  ghost predicate AllTrue(answers: seq<bool>) {
    forall i :: 0 <= i < |answers| ==> answers[i]
  }

  lemma InHandAtGate(
    w: World, id: RoundId, order: seq<string>, turned: set<string>, cfg: Config, now: World, pc: Pc)
    requires RoundIs(w.db, id, Open) && id.run in w.db.runs && IsQueryOrder(w.db, id, order) && (forall t :: t in order ==> t in w.db.subs)
    requires Underway(w, id, order, turned, true, cfg, now, pc) && Steady(w, order, turned, cfg, pc)
    ensures pc.Fetching? && pc.todo == [] ==> pc.kept == Cohort(w, order)
  {
    hide Judgements, Made, Fetch, IsQueryOrder;
    var todo := Entries(w.db, order);
    assert todo[..|todo|] == todo;
    InHandIsCohort(w, id, order);
  }

  lemma JudgeGoesOn(job: Job, base: Adapter, kept: seq<Kept>, cfg: Config)
    requires Judgements(kept, cfg).Some?
    ensures Judge(job, base, kept, cfg).Judging? || Judge(job, base, kept, cfg).Combining?
  {
  }

  lemma InHandCombines(w: World, id: RoundId, order: seq<string>, turned: set<string>, cfg: Config, now: World, pc: Pc)
    requires RoundIs(w.db, id, Open) && id.run in w.db.runs && IsQueryOrder(w.db, id, order) && (forall t :: t in order ==> t in w.db.subs)
    requires Underway(w, id, order, turned, true, cfg, now, pc) && Steady(w, order, turned, cfg, pc)
    requires CanClose(w, id, order, cfg) && pc.Combining?
    ensures CombineStep(now, pc, true, cfg).Committing? || CombineStep(now, pc, true, cfg).Publishing?
  {
    hide Judgements, CombineKept, Fetch, IsQueryOrder, StillOf, Survivors, Cohort, InHand, Made, Steady, JobOf;
    SurvivorsLeft(w, id, order, turned, cfg, pc);
    InHandIsStill(w, order, turned);
  }

  lemma LoadGoesOn(w: World, id: RoundId, order: seq<string>, turned: set<string>, cfg: Config, now: World, pc: Pc)
    requires RoundIs(w.db, id, Open) && id.run in w.db.runs && (forall t :: t in order ==> t in w.db.subs)
    requires Underway(w, id, order, turned, true, cfg, now, pc) && BaseOf(w, id).Some? && pc.Loading?
    ensures Load(now, pc.job, pc.todo, true).Fetching?
  {
    hide Fetch, Made;
  }

  /** The next step of a steady attempt that can go through does not fail either. */
  lemma StaysBefore(w: World, id: RoundId, order: seq<string>, turned: set<string>, cfg: Config, now: World, pc: Pc)
    requires RoundIs(w.db, id, Open) && id.run in w.db.runs && IsQueryOrder(w.db, id, order) && (forall t :: t in order ==> t in w.db.subs)
    requires Underway(w, id, order, turned, true, cfg, now, pc) && Steady(w, order, turned, cfg, pc)
    requires CanClose(w, id, order, cfg) && BeforeCommit(pc) && !pc.Committing?
    ensures CanStep(now, pc, Choice(order, true, 0)) && BeforeCommit(Step(now, pc, Choice(order, true, 0), cfg).1)
  {
    hide Underway, Steady, Fetch, CombineStep, Judge, Load, IsQueryOrder, Judgements, Cohort, Survivors, CombineKept, Entries;
    match pc
    case Claimed(_) => StartGoesOn(w, id, order, turned, cfg, now, pc);
    case Loading(_, _) => LoadGoesOn(w, id, order, turned, cfg, now, pc);
    case Fetching(job, base, todo, kept) =>
      if todo == [] {
        InHandAtGate(w, id, order, turned, cfg, now, pc);
        JudgeGoesOn(job, base, kept, cfg);
      }
    case Combining(_, _, _) => InHandCombines(w, id, order, turned, cfg, now, pc);
    case _ =>
  }

  lemma StartGoesOn(w: World, id: RoundId, order: seq<string>, turned: set<string>, cfg: Config, now: World, pc: Pc)
    requires RoundIs(w.db, id, Open) && id.run in w.db.runs && IsQueryOrder(w.db, id, order) && (forall t :: t in order ==> t in w.db.subs)
    requires Underway(w, id, order, turned, true, cfg, now, pc) && pc.Claimed?
    ensures CanStep(now, pc, Choice(order, true, 0)) && Query(now, pc.id, order).Loading?
  {
    RejectNone(Claiming(w, id).db);
    assert now.db == Claiming(w, id).db;
    QueryUnmoved(w.db, id, order);
    hide IsQueryOrder, Made, Entries;
  }

  lemma {:induction false} OneMoreAnswer(w: World, id: RoundId, order: seq<string>, answers: seq<bool>, cfg: Config)
    requires RoundIs(w.db, id, Open) && id.run in w.db.runs && IsQueryOrder(w.db, id, order)
    requires AllTrue(answers) && AllAccepted(w.db, order) && CanClose(w, id, order, cfg)
    requires var pc := Attempt(w, id, order, answers, cfg).1; BeforeCommit(pc) && !pc.Committing?
    ensures AllTrue(answers + [true])
    ensures var pc, next := Attempt(w, id, order, answers, cfg).1, Attempt(w, id, order, answers + [true], cfg).1;
      BeforeCommit(next) && StepsLeft(next, |order|) < StepsLeft(pc, |order|)
      && (PastGate(next) && !PastGate(pc) ==> next.Combining?)
  {
    hide Underway, Steady, Step, CanStep, IsQueryOrder, CanClose;
    var a, c := Attempt(w, id, order, answers, cfg), Choice(order, true, 0);
    assert Upto(answers + [true]) == answers && Last(answers + [true]);
    var turned := AttemptSteady(w, id, order, answers, cfg);
    StaysBefore(w, id, order, turned, cfg, a.0, a.1);
    StepGoesOn(a.0, a.1, c, cfg);
    GateComesFirst(a.0, a.1, c, cfg);
  }

  lemma GateComesFirst(w: World, pc: Pc, c: Choice, cfg: Config)
    requires CanStep(w, pc, c) && BeforeCommit(pc)
    ensures var next := Step(w, pc, c, cfg).1; PastGate(next) && !PastGate(pc) ==> next.Combining?
  {
    hide IsQueryOrder, Verdicts, Fetch, Works, Entries, RecordVerdict;
  }

  /** Some steady attempt stands right behind gate 4. */
  lemma {:induction false} ReachesCombine(w: World, id: RoundId, order: seq<string>, answers: seq<bool>, cfg: Config)
    returns (more: seq<bool>)
    requires RoundIs(w.db, id, Open) && id.run in w.db.runs && IsQueryOrder(w.db, id, order)
    requires AllTrue(answers) && AllAccepted(w.db, order) && CanClose(w, id, order, cfg)
    requires var pc := Attempt(w, id, order, answers, cfg).1; BeforeCommit(pc) && !PastGate(pc)
    ensures AllTrue(more) && Attempt(w, id, order, more, cfg).1.Combining?
    decreases StepsLeft(Attempt(w, id, order, answers, cfg).1, |order|)
  {
    hide Attempt, IsQueryOrder, CanClose, AllTrue;
    OneMoreAnswer(w, id, order, answers, cfg);
    more := answers + [true];
    if !PastGate(Attempt(w, id, order, more, cfg).1) { more := ReachesCombine(w, id, order, more, cfg); }
  }

  /** Some steady attempt stands right before its commit. */
  lemma {:induction false} ReachesCommit(w: World, id: RoundId, order: seq<string>, answers: seq<bool>, cfg: Config)
    returns (more: seq<bool>)
    requires RoundIs(w.db, id, Open) && id.run in w.db.runs && IsQueryOrder(w.db, id, order)
    requires AllTrue(answers) && AllAccepted(w.db, order) && CanClose(w, id, order, cfg)
    requires BeforeCommit(Attempt(w, id, order, answers, cfg).1)
    ensures AllTrue(more) && Attempt(w, id, order, more, cfg).1.Committing?
    decreases StepsLeft(Attempt(w, id, order, answers, cfg).1, |order|)
  {
    hide Attempt, IsQueryOrder, CanClose, AllTrue;
    more := answers;
    if !Attempt(w, id, order, answers, cfg).1.Committing? {
      OneMoreAnswer(w, id, order, answers, cfg);
      more := ReachesCommit(w, id, order, answers + [true], cfg);
    }
  }
}
