/** Closing a round. The close is a sequence of steps, each one transaction on the tables or one
    request to the store; anything else in the system may happen between two of them, and any of
    them may fail. */
module Closer {
  import opened Wrappers
  import opened Tensors
  import opened NormGate
  import opened OuterStep
  import opened Contributions
  import opened Divergence
  import opened ObjectKeys
  import opened Tables
  import opened Rounds

  datatype World = World(db: Db, store: Store)

  /** Gate 4's norm and factor, and the cap on dominant shares. */
  datatype Config = Config(norm: Norm, normK: real, cap: Option<real>)

  /** An accepted submission as the close read it. */
  datatype Entry = Entry(task: string, artifact: Key, steps: int, metrics: Metrics)

  /** A submission whose adapter has been fetched. */
  datatype Kept = Kept(task: string, work: Contribution, metrics: Metrics)

  /** A fetched adapter and what gate 4 says of it. */
  datatype Judged = Judged(kept: Kept, verdict: Verdict)

  /** The rows a close works from and, once it has combined, the metrics of the work it combined. */
  datatype Job = Job(id: RoundId, run: Run, round: Round, rates: seq<Metrics>)

  datatype Pc =
    | Claimed(id: RoundId)
    | Loading(job: Job, todo: seq<Entry>)
    | Fetching(job: Job, base: Adapter, todo: seq<Entry>, kept: seq<Kept>)
    | Judging(job: Job, base: Adapter, pending: seq<Judged>, kept: seq<Kept>)
    | Combining(job: Job, base: Adapter, kept: seq<Kept>)
    | Publishing(job: Job, outcome: Outcome)
    | SavingMomentum(job: Job, momentum: Adapter)
    | NamingMomentum(job: Job)
    | Committing(job: Job, result: Option<Key>)
    | Advancing(job: Job, published: Key)
    | Unwinding(id: RoundId)
    | Ended

  function ResultKey(id: RoundId): Key {
    BaseKey(id.run, id.idx + 1)
  }

  /** The rows of the query for accepted submissions, in one of the orders it may return them. */
  ghost predicate IsQueryOrder(db: Db, id: RoundId, order: seq<string>) {
    && (forall i, j :: 0 <= i < j < |order| ==> order[i] != order[j])
    && (forall t :: t in order <==> t in db.subs && t in db.tasks && db.tasks[t].round == id && db.subs[t].accepted == Some(true))
    && (forall i, j :: 0 <= i < j < |order| && order[i] in db.subs && order[j] in db.subs
          ==> db.subs[order[i]].receivedAt <= db.subs[order[j]].receivedAt)
  }

  function Entries(db: Db, order: seq<string>): (r: seq<Entry>)
    requires forall t :: t in order ==> t in db.subs
    ensures |r| == |order|
  {
    seq(|order|, i requires 0 <= i < |order| =>
      Entry(order[i], db.subs[order[i]].artifact, db.subs[order[i]].steps, db.subs[order[i]].metrics))
  }

  function Fetch(store: Store, key: Key): Option<Adapter> {
    if key in store then LoadAdapter(store[key]) else None
  }

  function Works(kept: seq<Kept>): (r: seq<Contribution>)
    ensures |r| == |kept|
  {
    seq(|kept|, i requires 0 <= i < |kept| => kept[i].work)
  }

  /** Gate 4 on a cohort; None when a tensor is missing from one of its adapters. */
  ghost function Verdicts(adapters: seq<Adapter>, cfg: Config): Option<seq<Verdict>> {
    if |adapters| < 3 then Some(seq(|adapters|, _ => Accepted))
    else if !SharedNames(adapters) then None
    else Some(seq(|adapters|, i requires 0 <= i < |adapters| => VerdictOf(adapters, cfg.norm, cfg.normK, i)))
  }

  function Paired(kept: seq<Kept>, verdicts: seq<Verdict>): (r: seq<Judged>)
    requires |kept| == |verdicts|
    ensures |r| == |kept|
  {
    seq(|kept|, i requires 0 <= i < |kept| => Judged(kept[i], verdicts[i]))
  }

  /** How a step may go: the order of the query, whether the store answered, the time. */
  datatype Choice = Choice(order: seq<string>, io: bool, now: int)

  function TimingOf(r: Round): Timing {
    Timing(r.targetSteps, r.minSec, r.maxSec)
  }

  function StoredMomentum(store: Store, run: Run, io: bool): Option<Adapter> {
    if run.momentum.Some? && io then Fetch(store, run.momentum.value) else None
  }

  ghost function Judge(job: Job, base: Adapter, kept: seq<Kept>, cfg: Config): Pc {
    if kept == [] then Combining(job, base, [])
    else
      match Verdicts(Adapters(Works(kept)), cfg)
      case None => Unwinding(job.id)
      case Some(vs) => if |vs| != |kept| then Unwinding(job.id) else Judging(job, base, Paired(kept, vs), [])
  }

  function Rates(kept: seq<Kept>): (r: seq<Metrics>)
    ensures |r| == |kept|
  {
    seq(|kept|, i requires 0 <= i < |kept| => kept[i].metrics)
  }

  /** The job with the metrics of the work it combines. */
  function WithRates(job: Job, kept: seq<Kept>): Job {
    job.(rates := Rates(kept))
  }

  /** The outer step on the surviving work, and the divergence of its adapters, whose value is only
      recorded; None when either raises. */
  ghost function CombineKept(store: Store, job: Job, base: Adapter, kept: seq<Kept>, io: bool, cfg: Config): Option<Outcome> {
    var o := Published(base, Works(kept), cfg.cap, job.run.mode, job.run.lr, job.run.beta, StoredMomentum(store, job.run, io));
    if o.Some? && Comparable(Adapters(Works(kept))) then o else None
  }

  function Query(w: World, id: RoundId, order: seq<string>): Pc
    requires forall t :: t in order ==> t in w.db.subs
  {
    if id.run !in w.db.runs || id !in w.db.rounds then Unwinding(id)
    else Loading(Job(id, w.db.runs[id.run], w.db.rounds[id], []), Entries(w.db, order))
  }

  function Load(w: World, job: Job, todo: seq<Entry>, io: bool): Pc {
    match Fetch(w.store, job.round.base)
    case None => Unwinding(job.id)
    case Some(base) => if io then Fetching(job, base, todo, []) else Unwinding(job.id)
  }

  /** An artifact that cannot be had any more loses its verdict and is left out. */
  function FetchNext(w: World, pc: Pc, io: bool): (World, Pc)
    requires pc.Fetching? && pc.todo != []
  {
    var e := pc.todo[0];
    var got := if io then Fetch(w.store, e.artifact) else None;
    if got.Some? then (w, pc.(todo := pc.todo[1..], kept := pc.kept + [Kept(e.task, Contribution(got.value, e.steps), e.metrics)]))
    else (w.(db := RecordVerdict(w.db, e.task, false)), pc.(todo := pc.todo[1..]))
  }

  function JudgeNext(w: World, pc: Pc): (World, Pc)
    requires pc.Judging? && pc.pending != []
  {
    var j := pc.pending[0];
    if j.verdict.Accepted? then (w, pc.(pending := pc.pending[1..], kept := pc.kept + [j.kept]))
    else (w.(db := RecordVerdict(w.db, j.kept.task, false)), pc.(pending := pc.pending[1..]))
  }

  ghost function CombineStep(w: World, pc: Pc, io: bool, cfg: Config): Pc
    requires pc.Combining?
  {
    if pc.kept == [] then Committing(pc.job, None)
    else
      match CombineKept(w.store, pc.job, pc.base, pc.kept, io, cfg)
      case None => Unwinding(pc.job.id)
      case Some(outcome) => Publishing(WithRates(pc.job, pc.kept), outcome)
  }

  function Publish(w: World, pc: Pc): (World, Pc)
    requires pc.Publishing?
  {
    (w.(store := w.store[ResultKey(pc.job.id) := SaveAdapter(pc.outcome.adapter)]),
     if pc.outcome.momentum.Some? then SavingMomentum(pc.job, pc.outcome.momentum.value)
     else Committing(pc.job, Some(ResultKey(pc.job.id))))
  }

  function Commit(w: World, pc: Pc): (World, Pc)
    requires pc.Committing?
  {
    (w.(db := CommitClose(w.db, pc.job.id, pc.result)),
     if pc.result.Some? then Advancing(pc.job, pc.result.value) else Ended)
  }

  /** Every reported rate can be read into the throughput estimates. */
  predicate Foldable(rates: seq<Metrics>) {
    forall m | m in rates :: !m.Unreadable?
  }

  /** Folds the reported rates into the throughput estimates, which raises on one that cannot be read,
      then opens the next round on the result or finishes the run. */
  function Advance(w: World, pc: Pc, now: int): (World, Pc)
    requires pc.Advancing?
  {
    var next := RoundId(pc.job.id.run, pc.job.id.idx + 1);
    if !Foldable(pc.job.rates) then (w, Unwinding(pc.job.id))
    else if next.idx < pc.job.run.target then
      match OpenRound(w.db, next, pc.published, TimingOf(pc.job.round), now)
      case Err(_) => (w, Unwinding(pc.job.id))
      case Ok(db) => (w.(db := db), Ended)
    else (w.(db := FinishRun(w.db, pc.job.id.run)), Ended)
  }

  /** One step of a close. A failed request to the store raises, except that a missing artifact
      and missing momentum are tolerated. */
  ghost function Step(w: World, pc: Pc, c: Choice, cfg: Config): (World, Pc)
    requires pc.Claimed? ==> IsQueryOrder(w.db, pc.id, c.order)
  {
    match pc
    case Claimed(id) => (w, Query(w, id, c.order))
    case Loading(job, todo) => (w, Load(w, job, todo, c.io))
    case Fetching(job, base, todo, kept) => if todo == [] then (w, Judge(job, base, kept, cfg)) else FetchNext(w, pc, c.io)
    case Judging(job, base, pending, kept) => if pending == [] then (w, Combining(job, base, kept)) else JudgeNext(w, pc)
    case Combining(job, base, kept) => (w, CombineStep(w, pc, c.io, cfg))
    case Publishing(job, outcome) => if c.io then Publish(w, pc) else (w, Unwinding(job.id))
    case SavingMomentum(job, m) =>
      if c.io then (w.(store := w.store[MomentumKey(job.id.run) := SaveAdapter(m)]), NamingMomentum(job))
      else (w, Unwinding(job.id))
    case NamingMomentum(job) => (w.(db := NameMomentum(w.db, job.id.run)), Committing(job, Some(ResultKey(job.id))))
    case Committing(job, result) => Commit(w, pc)
    case Advancing(job, result) => Advance(w, pc, c.now)
    case Unwinding(id) => (w.(db := ReleaseClose(w.db, id)), Ended)
    case Ended => (w, Ended)
  }

  /** The round a close is about. */
  function RoundOf(pc: Pc): Option<RoundId> {
    match pc
    case Claimed(id) => Some(id)
    case Unwinding(id) => Some(id)
    case Ended => None
    case _ => Some(pc.job.id)
  }

  /** The steps from the claim up to and including the commit. */
  predicate BeforeCommit(pc: Pc) {
    !pc.Advancing? && !pc.Unwinding? && !pc.Ended?
  }
}
