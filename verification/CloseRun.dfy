/** A close that nothing disturbs: its steps run to the end, and the same close in closed form. */
module CloseRun {
  import opened Wrappers
  import opened Tensors
  import opened NormGate
  import opened OuterStep
  import opened Contributions
  import opened ObjectKeys
  import opened Tables
  import opened Rounds
  import opened Closer
  import opened System

  // ---- a close that nothing disturbs -------------------------------------------------------

  /** Steps left, for a query of m rows. */
  function StepsLeft(pc: Pc, m: nat): nat {
    match pc
    case Ended => 0
    case Unwinding(_) => 1
    case Advancing(_, _) => 2
    case Committing(_, _) => 3
    case NamingMomentum(_) => 4
    case SavingMomentum(_, _) => 5
    case Publishing(_, _) => 6
    case Combining(_, _, _) => 7
    case Judging(_, _, pending, _) => 8 + |pending|
    case Fetching(_, _, todo, kept) => 10 + 2 * |todo| + |kept|
    case Loading(_, todo) => 11 + 2 * |todo|
    case Claimed(_) => 12 + 2 * m
  }

  lemma StepGoesOn(w: World, pc: Pc, c: Choice, cfg: Config)
    requires CanStep(w, pc, c) && !pc.Ended?
    ensures StepsLeft(Step(w, pc, c, cfg).1, |c.order|) < StepsLeft(pc, |c.order|)
  {
    hide CombineKept, Verdicts, IsQueryOrder, Fetch, SaveAdapter, Works, CommitClose, RecordVerdict, OpenRound, FinishRun;
  }

  /** Where the steps lead, and whether an exception was met on the way. */
  ghost function Finish(w: World, pc: Pc, c: Choice, cfg: Config): (World, Pc, bool)
    decreases StepsLeft(pc, |c.order|)
  {
    if pc.Ended? || !CanStep(w, pc, c) then (w, pc, false)
    else
      StepGoesOn(w, pc, c, cfg);
      var next := Step(w, pc, c, cfg);
      var end := Finish(next.0, next.1, c, cfg);
      (end.0, end.1, pc.Unwinding? || end.2)
  }

  /** An uninterrupted close of an open round. */
  ghost function CloseAll(w: World, id: RoundId, c: Choice, cfg: Config): World {
    match ClaimClose(w.db, id)
    case None => w
    case Some(db) => Finish(w.(db := db), Claimed(id), c, cfg).0
  }

  /** Whether it raises. */
  ghost predicate CloseRaises(w: World, id: RoundId, c: Choice, cfg: Config) {
    match ClaimClose(w.db, id)
    case None => false
    case Some(db) => Finish(w.(db := db), Claimed(id), c, cfg).2
  }

  // ---- a close, resumed one step later ------------------------------------------------------

  lemma FinishStep(w: World, pc: Pc, c: Choice, cfg: Config)
    requires !pc.Ended? && CanStep(w, pc, c)
    ensures var n := Step(w, pc, c, cfg);
      var end := Finish(n.0, n.1, c, cfg);
      && Finish(w, pc, c, cfg) == (end.0, end.1, pc.Unwinding? || end.2)
      && (!pc.Unwinding? ==> Finish(w, pc, c, cfg) == end)
  {
    hide Step, IsQueryOrder;
  }

  lemma FinishEnded(w: World, c: Choice, cfg: Config)
    ensures Finish(w, Ended, c, cfg) == (w, Ended, false)
  {
  }

  lemma AfterClaim(w: World, id: RoundId, c: Choice, cfg: Config)
    requires IsQueryOrder(w.db, id, c.order)
    ensures Finish(w, Claimed(id), c, cfg) == Finish(w, Query(w, id, c.order), c, cfg)
  {
    hide Finish, IsQueryOrder;
    FinishStep(w, Claimed(id), c, cfg);
  }

  lemma AfterLoad(w: World, job: Job, todo: seq<Entry>, c: Choice, cfg: Config)
    ensures Finish(w, Loading(job, todo), c, cfg) == Finish(w, Load(w, job, todo, c.io), c, cfg)
  {
    hide Finish;
    FinishStep(w, Loading(job, todo), c, cfg);
  }

  lemma AfterFetch(w: World, job: Job, base: Adapter, todo: seq<Entry>, kept: seq<Kept>, c: Choice, cfg: Config)
    requires todo != []
    ensures var n := FetchNext(w, Fetching(job, base, todo, kept), c.io);
      Finish(w, Fetching(job, base, todo, kept), c, cfg) == Finish(n.0, n.1, c, cfg)
  {
    hide Finish;
    FinishStep(w, Fetching(job, base, todo, kept), c, cfg);
  }

  lemma AfterFetches(w: World, job: Job, base: Adapter, kept: seq<Kept>, c: Choice, cfg: Config)
    ensures Finish(w, Fetching(job, base, [], kept), c, cfg) == Finish(w, Judge(job, base, kept, cfg), c, cfg)
  {
    hide Finish, Judge;
    FinishStep(w, Fetching(job, base, [], kept), c, cfg);
  }

  lemma AfterJudgement(w: World, job: Job, base: Adapter, pending: seq<Judged>, kept: seq<Kept>, c: Choice, cfg: Config)
    requires pending != []
    ensures var n := JudgeNext(w, Judging(job, base, pending, kept));
      Finish(w, Judging(job, base, pending, kept), c, cfg) == Finish(n.0, n.1, c, cfg)
  {
    hide Finish;
    FinishStep(w, Judging(job, base, pending, kept), c, cfg);
  }

  lemma AfterJudgements(w: World, job: Job, base: Adapter, kept: seq<Kept>, c: Choice, cfg: Config)
    ensures Finish(w, Judging(job, base, [], kept), c, cfg) == Finish(w, Combining(job, base, kept), c, cfg)
  {
    hide Finish;
    FinishStep(w, Judging(job, base, [], kept), c, cfg);
  }

  lemma AfterCombine(w: World, job: Job, base: Adapter, kept: seq<Kept>, c: Choice, cfg: Config)
    ensures Finish(w, Combining(job, base, kept), c, cfg) == Finish(w, CombineStep(w, Combining(job, base, kept), c.io, cfg), c, cfg)
  {
    hide Finish, CombineStep;
    FinishStep(w, Combining(job, base, kept), c, cfg);
  }

  lemma AfterPublish(w: World, job: Job, outcome: Outcome, c: Choice, cfg: Config)
    requires c.io
    ensures var n := Publish(w, Publishing(job, outcome)); Finish(w, Publishing(job, outcome), c, cfg) == Finish(n.0, n.1, c, cfg)
  {
    hide Finish;
    FinishStep(w, Publishing(job, outcome), c, cfg);
  }

  lemma AfterMomentum(w: World, job: Job, m: Adapter, c: Choice, cfg: Config)
    requires c.io
    ensures var saved := w.(store := w.store[MomentumKey(job.id.run) := SaveAdapter(m)]);
      Finish(w, SavingMomentum(job, m), c, cfg)
      == Finish(saved.(db := NameMomentum(saved.db, job.id.run)), Committing(job, Some(ResultKey(job.id))), c, cfg)
  {
    hide Finish, NameMomentum;
    var saved := w.(store := w.store[MomentumKey(job.id.run) := SaveAdapter(m)]);
    FinishStep(w, SavingMomentum(job, m), c, cfg);
    FinishStep(saved, NamingMomentum(job), c, cfg);
  }

  lemma AfterCommit(w: World, job: Job, result: Option<Key>, c: Choice, cfg: Config)
    ensures var n := Commit(w, Committing(job, result)); Finish(w, Committing(job, result), c, cfg) == Finish(n.0, n.1, c, cfg)
  {
    hide Finish, CommitClose;
    FinishStep(w, Committing(job, result), c, cfg);
  }

  lemma AfterAdvance(w: World, job: Job, result: Key, c: Choice, cfg: Config)
    ensures var n := Advance(w, Advancing(job, result), c.now); Finish(w, Advancing(job, result), c, cfg) == Finish(n.0, n.1, c, cfg)
  {
    hide Finish, Advance;
    FinishStep(w, Advancing(job, result), c, cfg);
  }

  lemma AfterFailure(w: World, id: RoundId, c: Choice, cfg: Config)
    ensures Finish(w, Unwinding(id), c, cfg) == (w.(db := ReleaseClose(w.db, id)), Ended, true)
  {
    hide Finish, ReleaseClose;
    FinishStep(w, Unwinding(id), c, cfg);
    FinishEnded(w.(db := ReleaseClose(w.db, id)), c, cfg);
  }

  /** Claiming the close does not change which submissions it will aggregate. */
  lemma QueryUnmoved(db: Db, id: RoundId, order: seq<string>)
    requires RoundIs(db, id, Open) && IsQueryOrder(db, id, order)
    ensures IsQueryOrder(db.(rounds := db.rounds[id := db.rounds[id].(status := Closing)]), id, order)
    ensures forall t :: t in order ==> t in db.subs
  {
  }

  function Claiming(w: World, id: RoundId): World
    requires RoundIs(w.db, id, Open)
  {
    w.(db := w.db.(rounds := w.db.rounds[id := w.db.rounds[id].(status := Closing)]))
  }

  // ---- withdrawing verdicts -----------------------------------------------------------------

  /** The given submissions rejected. */
  function Reject(db: Db, ts: set<string>): Db {
    db.(subs := map t | t in db.subs :: if t in ts then db.subs[t].(accepted := Some(false)) else db.subs[t])
  }

  lemma RejectNone(db: Db)
    ensures Reject(db, {}) == db
  {
    assert Reject(db, {}).subs == db.subs;
  }

  lemma RejectOne(db: Db, ts: set<string>, t: string)
    ensures RecordVerdict(Reject(db, ts), t, false) == Reject(db, ts + {t})
  {
    assert RecordVerdict(Reject(db, ts), t, false).subs == Reject(db, ts + {t}).subs;
  }

  lemma RejectMore(db: Db, ts: set<string>, us: set<string>)
    ensures Reject(Reject(db, ts), us) == Reject(db, ts + us)
  {
    assert Reject(Reject(db, ts), us).subs == Reject(db, ts + us).subs;
  }

  // ---- fetching and judging a whole cohort ---------------------------------------------------

  function Upto<T>(xs: seq<T>): seq<T>
    requires xs != []
  {
    xs[..|xs| - 1]
  }

  function Last<T>(xs: seq<T>): T
    requires xs != []
  {
    xs[|xs| - 1]
  }

  /** The submissions whose artifacts load, in query order. */
  function Arrived(store: Store, todo: seq<Entry>): seq<Kept> {
    if todo == [] then []
    else
      var e := Last(todo);
      var got := Fetch(store, e.artifact);
      Arrived(store, Upto(todo)) + (if got.Some? then [Kept(e.task, Contribution(got.value, e.steps), e.metrics)] else [])
  }

  /** The submissions whose artifacts do not. */
  function Gone(store: Store, todo: seq<Entry>): set<string> {
    set e | e in todo && Fetch(store, e.artifact).None? :: e.task
  }

  function Passed(judged: seq<Judged>): seq<Kept> {
    if judged == [] then []
    else Passed(Upto(judged)) + (if Last(judged).verdict.Accepted? then [Last(judged).kept] else [])
  }

  function Failed(judged: seq<Judged>): set<string> {
    set j | j in judged && !j.verdict.Accepted? :: j.kept.task
  }

  lemma GoneGrows(store: Store, todo: seq<Entry>, d: nat)
    requires d < |todo|
    ensures todo[..d + 1] == todo[..d] + [todo[d]] && Upto(todo[..d + 1]) == todo[..d]
    ensures Gone(store, todo[..d + 1]) == Gone(store, todo[..d]) + (if Fetch(store, todo[d].artifact).None? then {todo[d].task} else {})
  {
    hide Fetch;
    assert todo[..d + 1] == todo[..d] + [todo[d]];
  }

  lemma FailedGrows(judged: seq<Judged>, d: nat)
    requires d < |judged|
    ensures judged[..d + 1] == judged[..d] + [judged[d]] && Upto(judged[..d + 1]) == judged[..d]
    ensures Failed(judged[..d + 1]) == Failed(judged[..d]) + (if judged[d].verdict.Accepted? then {} else {judged[d].kept.task})
  {
    assert judged[..d + 1] == judged[..d] + [judged[d]];
  }

  lemma FetchOne(w: World, job: Job, base: Adapter, todo: seq<Entry>, d: nat, c: Choice)
    requires c.io && d < |todo|
    ensures FetchNext(w.(db := Reject(w.db, Gone(w.store, todo[..d]))), Fetching(job, base, todo[d..], Arrived(w.store, todo[..d])), c.io)
         == (w.(db := Reject(w.db, Gone(w.store, todo[..d + 1]))), Fetching(job, base, todo[d + 1..], Arrived(w.store, todo[..d + 1])))
  {
    hide Fetch, Gone, Reject, RecordVerdict;
    GoneGrows(w.store, todo, d);
    RejectOne(w.db, Gone(w.store, todo[..d]), todo[d].task);
    assert todo[d..][1..] == todo[d + 1..];
    assert Arrived(w.store, todo[..d]) + [] == Arrived(w.store, todo[..d]);
    assert Gone(w.store, todo[..d]) + {} == Gone(w.store, todo[..d]);
  }

  /** From any point of the fetching, the rest of it. */
  lemma {:induction false} FetchRest(w: World, job: Job, base: Adapter, todo: seq<Entry>, d: nat, c: Choice, cfg: Config)
    requires c.io && d <= |todo|
    ensures Finish(w.(db := Reject(w.db, Gone(w.store, todo[..d]))), Fetching(job, base, todo[d..], Arrived(w.store, todo[..d])), c, cfg)
         == Finish(w.(db := Reject(w.db, Gone(w.store, todo))), Fetching(job, base, [], Arrived(w.store, todo)), c, cfg)
    decreases |todo| - d
  {
    hide Finish, Fetch, Gone, Reject;
    if d == |todo| {
      assert todo[..d] == todo && todo[d..] == [];
    } else {
      var now := w.(db := Reject(w.db, Gone(w.store, todo[..d])));
      AfterFetch(now, job, base, todo[d..], Arrived(w.store, todo[..d]), c, cfg);
      FetchOne(w, job, base, todo, d, c);
      FetchRest(w, job, base, todo, d + 1, c, cfg);
    }
  }

  lemma FetchAll(w: World, job: Job, base: Adapter, todo: seq<Entry>, c: Choice, cfg: Config)
    requires c.io
    ensures Finish(w, Fetching(job, base, todo, []), c, cfg)
         == Finish(w.(db := Reject(w.db, Gone(w.store, todo))), Fetching(job, base, [], Arrived(w.store, todo)), c, cfg)
  {
    hide Finish, Fetch;
    assert todo[0..] == todo && todo[..0] == [] && Gone(w.store, []) == {};
    RejectNone(w.db);
    FetchRest(w, job, base, todo, 0, c, cfg);
  }

  lemma JudgeOne(w: World, job: Job, base: Adapter, judged: seq<Judged>, d: nat)
    requires d < |judged|
    ensures JudgeNext(w.(db := Reject(w.db, Failed(judged[..d]))), Judging(job, base, judged[d..], Passed(judged[..d])))
         == (w.(db := Reject(w.db, Failed(judged[..d + 1]))), Judging(job, base, judged[d + 1..], Passed(judged[..d + 1])))
  {
    hide Failed, Reject, RecordVerdict;
    FailedGrows(judged, d);
    RejectOne(w.db, Failed(judged[..d]), judged[d].kept.task);
    assert judged[d..][1..] == judged[d + 1..];
    assert Passed(judged[..d]) + [] == Passed(judged[..d]);
    assert Failed(judged[..d]) + {} == Failed(judged[..d]);
  }

  lemma {:induction false} JudgeRest(w: World, job: Job, base: Adapter, judged: seq<Judged>, d: nat, c: Choice, cfg: Config)
    requires d <= |judged|
    ensures Finish(w.(db := Reject(w.db, Failed(judged[..d]))), Judging(job, base, judged[d..], Passed(judged[..d])), c, cfg)
         == Finish(w.(db := Reject(w.db, Failed(judged))), Combining(job, base, Passed(judged)), c, cfg)
    decreases |judged| - d
  {
    hide Finish, Failed, Reject;
    if d == |judged| {
      assert judged[..d] == judged && judged[d..] == [];
      AfterJudgements(w.(db := Reject(w.db, Failed(judged))), job, base, Passed(judged), c, cfg);
    } else {
      var now := w.(db := Reject(w.db, Failed(judged[..d])));
      AfterJudgement(now, job, base, judged[d..], Passed(judged[..d]), c, cfg);
      JudgeOne(w, job, base, judged, d);
      JudgeRest(w, job, base, judged, d + 1, c, cfg);
    }
  }

  lemma JudgeAll(w: World, job: Job, base: Adapter, judged: seq<Judged>, c: Choice, cfg: Config)
    ensures Finish(w, Judging(job, base, judged, []), c, cfg)
         == Finish(w.(db := Reject(w.db, Failed(judged))), Combining(job, base, Passed(judged)), c, cfg)
  {
    hide Finish;
    assert judged[0..] == judged && judged[..0] == [] && Failed([]) == {};
    RejectNone(w.db);
    JudgeRest(w, job, base, judged, 0, c, cfg);
  }

  // ---- the end of a close, at once --------------------------------------------------------------

  /** The objects a close puts. */
  function WithOutcome(store: Store, job: Job, o: Outcome): Store {
    var published := store[ResultKey(job.id) := SaveAdapter(o.adapter)];
    if o.momentum.Some? then published[MomentumKey(job.id.run) := SaveAdapter(o.momentum.value)] else published
  }

  /** The tables once the result is committed. */
  function Committed(db: Db, job: Job, o: Outcome): Db {
    CommitClose(if o.momentum.Some? then NameMomentum(db, job.id.run) else db, job.id, Some(ResultKey(job.id)))
  }

  /** The tables after the commit of a result and the advance. */
  function MovedOn(db: Db, job: Job, o: Outcome, now: int): Db {
    AdvancedFrom(Committed(db, job, o), job, now)
  }

  /** The tables after the advance alone. */
  function AdvancedFrom(closed: Db, job: Job, now: int): Db {
    var next := RoundId(job.id.run, job.id.idx + 1);
    if !Foldable(job.rates) then ReleaseClose(closed, job.id)
    else if next.idx < job.run.target then
      match OpenRound(closed, next, ResultKey(job.id), TimingOf(job.round), now)
      case Err(_) => ReleaseClose(closed, job.id)
      case Ok(db) => db
    else FinishRun(closed, job.id.run)
  }

  /** What becomes of the surviving work: an empty close, a failed combine, or a result. */
  ghost function Settle(w: World, job: Job, base: Adapter, kept: seq<Kept>, now: int, cfg: Config): World {
    if kept == [] then w.(db := CommitClose(w.db, job.id, None))
    else
      match CombineKept(w.store, job, base, kept, true, cfg)
      case None => w.(db := ReleaseClose(w.db, job.id))
      case Some(o) => World(MovedOn(w.db, WithRates(job, kept), o, now), WithOutcome(w.store, WithRates(job, kept), o))
  }

  /** The advance meets metrics it cannot read, or a round it cannot open. */
  ghost predicate AdvanceRaises(closed: Db, job: Job, now: int) {
    var next := RoundId(job.id.run, job.id.idx + 1);
    !Foldable(job.rates) || (next.idx < job.run.target && OpenRound(closed, next, ResultKey(job.id), TimingOf(job.round), now).Err?)
  }

  lemma AdvanceSettles(w: World, job: Job, c: Choice, cfg: Config)
    ensures var f := Finish(w, Advancing(job, ResultKey(job.id)), c, cfg);
      f.0 == w.(db := AdvancedFrom(w.db, job, c.now)) && f.2 == AdvanceRaises(w.db, job, c.now)
  {
    hide Finish, OpenRound, FinishRun, ReleaseClose, Foldable;
    AfterAdvance(w, job, ResultKey(job.id), c, cfg);
    var n := Advance(w, Advancing(job, ResultKey(job.id)), c.now);
    if n.1.Unwinding? {
      AfterFailure(n.0, job.id, c, cfg);
    } else {
      FinishEnded(n.0, c, cfg);
    }
  }

  lemma PublishSettles(w: World, job: Job, o: Outcome, c: Choice, cfg: Config)
    requires c.io
    ensures var f := Finish(w, Publishing(job, o), c, cfg);
      && f.0 == World(MovedOn(w.db, job, o, c.now), WithOutcome(w.store, job, o))
      && f.2 == AdvanceRaises(Committed(w.db, job, o), job, c.now)
  {
    hide Finish, AdvancedFrom, AdvanceRaises, CommitClose, NameMomentum, SaveAdapter;
    AfterPublish(w, job, o, c, cfg);
    var published := Publish(w, Publishing(job, o)).0;
    if o.momentum.Some? { AfterMomentum(published, job, o.momentum.value, c, cfg); }
    var ready := World(if o.momentum.Some? then NameMomentum(w.db, job.id.run) else w.db, WithOutcome(w.store, job, o));
    AfterCommit(ready, job, Some(ResultKey(job.id)), c, cfg);
    AdvanceSettles(ready.(db := CommitClose(ready.db, job.id, Some(ResultKey(job.id)))), job, c, cfg);
  }

  ghost predicate SettleRaises(w: World, job: Job, base: Adapter, kept: seq<Kept>, now: int, cfg: Config) {
    kept != [] &&
      match CombineKept(w.store, job, base, kept, true, cfg)
      case None => true
      case Some(o) => AdvanceRaises(Committed(w.db, WithRates(job, kept), o), WithRates(job, kept), now)
  }

  lemma CombineSettles(w: World, job: Job, base: Adapter, kept: seq<Kept>, c: Choice, cfg: Config)
    requires c.io
    ensures var f := Finish(w, Combining(job, base, kept), c, cfg);
      f.0 == Settle(w, job, base, kept, c.now, cfg) && f.2 == SettleRaises(w, job, base, kept, c.now, cfg)
  {
    hide Finish, CombineKept, CommitClose, ReleaseClose, MovedOn, WithOutcome, AdvanceRaises, Committed;
    AfterCombine(w, job, base, kept, c, cfg);
    if kept == [] {
      AfterCommit(w, job, None, c, cfg);
      FinishEnded(w.(db := CommitClose(w.db, job.id, None)), c, cfg);
    } else {
      match CombineKept(w.store, job, base, kept, true, cfg)
      case None => AfterFailure(w, job.id, c, cfg);
      case Some(o) => PublishSettles(w, WithRates(job, kept), o, c, cfg);
    }
  }

  // ---- a close, at once ---------------------------------------------------------------------------

  /** Gate 4's verdicts on a cohort, next to the work they are about. */
  ghost function Judgements(kept: seq<Kept>, cfg: Config): (r: Option<seq<Judged>>)
    ensures r.Some? ==> |r.value| == |kept| && forall i :: 0 <= i < |kept| ==> r.value[i].kept == kept[i]
  {
    var vs := Verdicts(Adapters(Works(kept)), cfg);
    if vs.Some? then Some(Paired(kept, vs.value)) else None
  }

  /** A fetched cohort judged, its rejects dropped, and the rest combined. */
  ghost function JudgeAndSettle(w: World, job: Job, base: Adapter, kept: seq<Kept>, now: int, cfg: Config): World {
    match Judgements(kept, cfg)
    case None => w.(db := ReleaseClose(w.db, job.id))
    case Some(judged) => Settle(w.(db := Reject(w.db, Failed(judged))), job, base, Passed(judged), now, cfg)
  }

  ghost predicate JudgeRaises(w: World, job: Job, base: Adapter, kept: seq<Kept>, now: int, cfg: Config) {
    match Judgements(kept, cfg)
    case None => true
    case Some(judged) => SettleRaises(w.(db := Reject(w.db, Failed(judged))), job, base, Passed(judged), now, cfg)
  }

  lemma JudgeSettles(w: World, job: Job, base: Adapter, kept: seq<Kept>, c: Choice, cfg: Config)
    requires c.io
    ensures var f := Finish(w, Fetching(job, base, [], kept), c, cfg);
      f.0 == JudgeAndSettle(w, job, base, kept, c.now, cfg) && f.2 == JudgeRaises(w, job, base, kept, c.now, cfg)
  {
    hide Finish, Settle, SettleRaises, Works, ReleaseClose, Reject, Paired;
    AfterFetches(w, job, base, kept, c, cfg);
    if kept == [] {
      NobodyJudged(cfg);
      assert Failed([]) == {} && Passed([]) == [];
      RejectNone(w.db);
      CombineSettles(w, job, base, [], c, cfg);
    } else if Verdicts(Adapters(Works(kept)), cfg).None? {
      AfterFailure(w, job.id, c, cfg);
    } else {
      hide Verdicts;
      var judged := Judgements(kept, cfg).value;
      JudgeAll(w, job, base, judged, c, cfg);
      CombineSettles(w.(db := Reject(w.db, Failed(judged))), job, base, Passed(judged), c, cfg);
    }
  }

  lemma NobodyJudged(cfg: Config)
    ensures Judgements([], cfg) == Some([])
  {
    assert Adapters(Works([])) == [];
  }

  /** The rows a close of this round works from. */
  function JobOf(db: Db, id: RoundId): Job
    requires RoundIs(db, id, Open) && id.run in db.runs
  {
    Job(id, db.runs[id.run], db.rounds[id].(status := Closing), [])
  }

  /** The accepted work of a round that still loads. */
  function Cohort(w: World, order: seq<string>): seq<Kept>
    requires forall t :: t in order ==> t in w.db.subs
  {
    Arrived(w.store, Entries(w.db, order))
  }

  /** The tables once the artifacts that no longer load have lost their verdicts. */
  function Fetched(w: World, id: RoundId, order: seq<string>): World
    requires RoundIs(w.db, id, Open) && forall t :: t in order ==> t in w.db.subs
  {
    Claiming(w, id).(db := Reject(Claiming(w, id).db, Gone(w.store, Entries(w.db, order))))
  }

  /** An undisturbed close in closed form: fetch, judge, settle. */
  lemma CloseAllIs(w: World, id: RoundId, c: Choice, cfg: Config)
    requires RoundIs(w.db, id, Open) && id.run in w.db.runs && IsQueryOrder(w.db, id, c.order) && c.io
    ensures forall t :: t in c.order ==> t in w.db.subs
    ensures var base := Fetch(w.store, w.db.rounds[id].base);
      CloseAll(w, id, c, cfg) ==
        if base.None? then w
        else JudgeAndSettle(Fetched(w, id, c.order), JobOf(w.db, id), base.value, Cohort(w, c.order), c.now, cfg)
    ensures var base := Fetch(w.store, w.db.rounds[id].base);
      CloseRaises(w, id, c, cfg) <==>
        base.None? || JudgeRaises(Fetched(w, id, c.order), JobOf(w.db, id), base.value, Cohort(w, c.order), c.now, cfg)
  {
    hide Finish, IsQueryOrder, JudgeAndSettle, JudgeRaises, Reject, Gone, Fetch;
    QueryUnmoved(w.db, id, c.order);
    var start, job := Claiming(w, id), JobOf(w.db, id);
    AfterClaim(start, id, c, cfg);
    assert Entries(start.db, c.order) == Entries(w.db, c.order);
    var todo := Entries(w.db, c.order);
    AfterLoad(start, job, todo, c, cfg);
    var base := Fetch(w.store, w.db.rounds[id].base);
    if base.None? {
      AfterFailure(start, id, c, cfg);
      ReleaseUndoesClaim(w, id);
    } else {
      FetchAll(start, job, base.value, todo, c, cfg);
      JudgeSettles(Fetched(w, id, c.order), job, base.value, Cohort(w, c.order), c, cfg);
    }
  }

  lemma ReleaseUndoesClaim(w: World, id: RoundId)
    requires RoundIs(w.db, id, Open)
    ensures w.(db := ReleaseClose(Claiming(w, id).db, id)) == w
  {
    assert ReleaseClose(Claiming(w, id).db, id).rounds == w.db.rounds;
  }
}
