/** Rounds that close without a result although they have accepted work: exactly those whose work was
    accepted after the close had asked for it. */
module LateWork {
  import opened Wrappers
  import opened Tensors
  import opened Contributions
  import opened ObjectKeys
  import opened Tables
  import opened Rounds
  import opened Closer
  import opened System
  import opened CloseSafety
  import opened LeaseSafety
  import opened Leftovers

  ghost function AcceptedIn(db: Db, id: RoundId): set<string> {
    set t | t in db.subs && t in db.tasks && db.tasks[t].round == id && db.subs[t].accepted == Some(true)
  }

  /** The diagnostic: the round is closed, has accepted submissions and no result. */
  ghost predicate NoResultAdapter(db: Db, id: RoundId) {
    RoundIs(db, id, Closed) && db.rounds[id].result.None? && AcceptedIn(db, id) != {}
  }

  // ---- what a close has asked for ----------------------------------------------------------------

  function EntryTasks(todo: seq<Entry>): set<string> {
    set e | e in todo :: e.task
  }

  function JudgedTasks(pending: seq<Judged>): set<string> {
    set j | j in pending :: j.kept.task
  }

  /** The submissions a close has in hand. */
  function Pending(pc: Pc): set<string> {
    match pc
    case Loading(_, todo) => EntryTasks(todo)
    case Fetching(_, _, todo, kept) => EntryTasks(todo) + Tasks(kept)
    case Judging(_, _, pending, kept) => JudgedTasks(pending) + Tasks(kept)
    case Combining(_, _, kept) => Tasks(kept)
    case _ => {}
  }

  /** The close has asked for the accepted submissions and has not found a result among them. */
  predicate NoResultYet(pc: Pc) {
    pc.Loading? || pc.Fetching? || pc.Judging? || pc.Combining? || (pc.Committing? && pc.result.None?)
  }

  ghost predicate AsksFor(s: Sys, a: Action, id: RoundId) {
    a.StepClose? && a.p in s.closers && s.closers[a.p] == Claimed(id) && CanStep(s.w, s.closers[a.p], a.choice)
  }

  predicate Accepts(s: Sys, a: Action, id: RoundId) {
    a.GateWrite? && a.task in s.gates && s.gates[a.task] == Decided(true) && a.task in s.w.db.tasks && s.w.db.tasks[a.task].round == id
  }

  ghost function LateAfter(s: Sys, a: Action, late: set<string>, id: RoundId): set<string> {
    if AsksFor(s, a, id) then {} else if Accepts(s, a, id) then late + {a.task} else late
  }

  /** The submissions of a round accepted since a close of it last asked for the accepted ones. */
  ghost function Late(actions: seq<Action>, cfg: Config, id: RoundId): set<string> {
    if actions == [] then {}
    else
      var before, last := actions[..|actions| - 1], actions[|actions| - 1];
      LateAfter(After(before, cfg), last, Late(before, cfg, id), id)
  }

  // ---- what every step keeps -------------------------------------------------------------------------

  /** A submission in a close's hands is one of its round, and its gating is over. */
  ghost predicate PendingSound(s: Sys, late: set<string>, id: RoundId, pc: Pc) {
    forall t :: t in Pending(pc) ==>
      && t in s.w.db.subs && t in s.w.db.tasks && RoundOf(pc) == Some(s.w.db.tasks[t].round) && t !in s.gates
      && (s.w.db.tasks[t].round == id ==> t !in late)
  }

  /** Whatever is accepted the close has in hand, or it came late. */
  ghost predicate AllAccounted(db: Db, late: set<string>, id: RoundId, pc: Pc) {
    RoundOf(pc) == Some(id) && NoResultYet(pc) ==> AcceptedIn(db, id) <= Pending(pc) + late
  }

  ghost predicate LateSound(s: Sys, late: set<string>, id: RoundId) {
    && (forall t :: t in late ==> t in AcceptedIn(s.w.db, id) && t !in s.gates)
    && (forall t :: t in s.gates ==> t in s.w.db.subs && s.w.db.subs[t].accepted.None?)
  }

  ghost predicate ClosersTracked(s: Sys, late: set<string>, id: RoundId) {
    forall p :: p in s.closers ==> PendingSound(s, late, id, s.closers[p]) && AllAccounted(s.w.db, late, id, s.closers[p])
  }

  ghost predicate ClosedTracked(db: Db, late: set<string>, id: RoundId) {
    RoundIs(db, id, Closed) && db.rounds[id].result.None? ==> AcceptedIn(db, id) <= late
  }

  ghost predicate Tracked(s: Sys, late: set<string>, id: RoundId) {
    LateSound(s, late, id) && ClosersTracked(s, late, id) && ClosedTracked(s.w.db, late, id)
  }

  // ---- steps that gate and close nothing ----------------------------------------------------------------

  /** No verdict changes, no close gets anything new in hand, and no round closes. */
  ghost predicate Unmoved(s: Sys, n: Sys, id: RoundId) {
    && n.w.db.subs == s.w.db.subs && n.gates.Keys <= s.gates.Keys
    && (forall t :: t in s.w.db.tasks ==> t in n.w.db.tasks && n.w.db.tasks[t].round == s.w.db.tasks[t].round)
    && (forall p :: p in n.closers ==>
          (p in s.closers && n.closers[p] == s.closers[p]) || (Pending(n.closers[p]) == {} && !NoResultYet(n.closers[p])))
    && (RoundIs(n.w.db, id, Closed) ==> RoundIs(s.w.db, id, Closed) && n.w.db.rounds[id].result == s.w.db.rounds[id].result)
  }

  lemma SubsHaveTasks(db: Db)
    requires LeaseSound(db)
    ensures forall t :: t in db.subs ==> t in db.tasks
  {
    hide OneLease, TaskSound;
    forall t | t in db.subs ensures t in db.tasks {
      assert SubSound(db, t);
    }
  }

  lemma AcceptedUnmoved(s: Sys, n: Sys, id: RoundId)
    requires LeaseSound(s.w.db) && Unmoved(s, n, id)
    ensures AcceptedIn(n.w.db, id) == AcceptedIn(s.w.db, id)
  {
    hide LeaseSound, Pending;
    SubsHaveTasks(s.w.db);
  }

  lemma UnmovedKeeps(s: Sys, n: Sys, late: set<string>, id: RoundId)
    requires LeaseSound(s.w.db) && Tracked(s, late, id) && Unmoved(s, n, id)
    ensures Tracked(n, late, id)
  {
    hide LeaseSound, AcceptedIn, Pending;
    AcceptedUnmoved(s, n, id);
    forall p | p in n.closers ensures PendingSound(n, late, id, n.closers[p]) && AllAccounted(n.w.db, late, id, n.closers[p]) {
      if p in s.closers && n.closers[p] == s.closers[p] {
        assert PendingSound(s, late, id, s.closers[p]) && AllAccounted(s.w.db, late, id, s.closers[p]);
      }
    }
  }

  lemma TaskUnmoved(s: Sys, a: Action, cfg: Config, id: RoundId)
    requires a.Expire? || a.ClaimWork? || a.Beat? || a.GiveUp?
    ensures Unmoved(s, Apply(s, a, cfg), id)
  {
    hide ClaimTask, ExpireLeases, Heartbeat, Abandon, Unmoved, TasksStay;
    NothingStays(s.w.db);
    match a {
      case Expire(now) => ExpireUnmoved(s.w.db, now);
      case ClaimWork(claim) => ClaimUnmoved(s.w.db, claim);
      case Beat(t, worker, steps, now, lease) => BeatUnmoved(s.w.db, t, worker, steps, now, lease);
      case GiveUp(t, worker) => AbandonUnmoved(s.w.db, t, worker);
      case _ =>
    }
    StayUnmoved(s, Apply(s, a, cfg), id);
  }

  lemma NothingStays(db: Db)
    ensures TasksStay(db, db)
  {
  }

  lemma StayUnmoved(s: Sys, n: Sys, id: RoundId)
    requires TasksStay(s.w.db, n.w.db) && n.gates == s.gates && n.closers == s.closers
    ensures Unmoved(s, n, id)
  {
    hide Pending, NoResultYet;
  }

  ghost predicate TasksStay(db: Db, n: Db) {
    n.subs == db.subs && n.rounds == db.rounds && forall t :: t in db.tasks ==> t in n.tasks && n.tasks[t].round == db.tasks[t].round
  }

  lemma ExpireUnmoved(db: Db, now: int)
    ensures TasksStay(db, ExpireLeases(db, now))
  {
  }

  lemma BeatUnmoved(db: Db, t: string, worker: string, steps: int, now: int, lease: int)
    ensures Heartbeat(db, t, worker, steps, now, lease).Ok? ==> TasksStay(db, Heartbeat(db, t, worker, steps, now, lease).value)
  {
  }

  lemma AbandonUnmoved(db: Db, t: string, worker: string)
    ensures TasksStay(db, Abandon(db, t, worker))
  {
  }

  lemma ClaimUnmoved(db: Db, c: Claim)
    ensures TasksStay(db, ClaimTask(db, c))
  {
    hide Picked, Trained, HoldsSome;
  }

  lemma StoreUnmoved(s: Sys, a: Action, cfg: Config, id: RoundId)
    requires StoreAction(a)
    ensures Unmoved(s, Apply(s, a, cfg), id)
  {
    hide Apply, Pending;
    StoreActionFrame(s, a, cfg);
    StoreGates(s, a, cfg);
  }

  lemma StoreGates(s: Sys, a: Action, cfg: Config)
    requires StoreAction(a)
    ensures Apply(s, a, cfg).gates.Keys <= s.gates.Keys
  {
    hide GateVerdict, Expected, GcCandidates, WellFormedAdapter, Finite, ArtifactOf;
  }

  lemma RoundsUnmoved(s: Sys, a: Action, cfg: Config, id: RoundId)
    requires a.AddRun? || a.OpenFirst? || a.Restart? || a.StartClose? || a.FailClose? || a.CrashClose?
    ensures Unmoved(s, Apply(s, a, cfg), id)
  {
    hide Unmoved, DoAddRun, DoOpenFirst, ReopenEmptyRound, DoStartClose, DoFailClose;
    match a
    case AddRun(run, row) => AddRunUnmoved(s, run, row, id);
    case OpenFirst(run, timing, now) => OpenUnmoved(s, run, timing, now, id);
    case Restart(o, now) => RestartUnmoved(s, o, now, id);
    case StartClose(p, o) => StartUnmoved(s, p, o, id);
    case FailClose(p) => FailUnmoved(s, p, id);
    case CrashClose(p) => FailUnmoved(s, p, id);
    case _ =>
  }

  lemma AddRunUnmoved(s: Sys, run: string, row: Run, id: RoundId)
    ensures Unmoved(s, DoAddRun(s, run, row), id)
  {
    hide Pending;
  }

  lemma OpenUnmoved(s: Sys, run: string, timing: Timing, now: int, id: RoundId)
    ensures Unmoved(s, DoOpenFirst(s, run, timing, now), id)
  {
    hide Pending;
  }

  lemma RestartUnmoved(s: Sys, o: RoundId, now: int, id: RoundId)
    ensures Unmoved(s, WithDb(s, ReopenEmptyRound(s.w.db, o, now)), id)
  {
    hide Pending, Counted;
  }

  lemma StartUnmoved(s: Sys, p: nat, o: RoundId, id: RoundId)
    ensures Unmoved(s, DoStartClose(s, p, o), id)
  {
  }

  lemma FailUnmoved(s: Sys, p: nat, id: RoundId)
    ensures Unmoved(s, DoFailClose(s, p), id)
    ensures Unmoved(s, s.(closers := s.closers - {p}), id)
  {
  }

  // ---- submitting and gating ------------------------------------------------------------------------------

  /** One submission arrives or is gated: a request that no close has in hand. */
  ghost predicate OneGated(s: Sys, n: Sys, t: string) {
    && n.closers == s.closers && s.w.db.subs.Keys <= n.w.db.subs.Keys && n.gates.Keys <= s.gates.Keys + {t}
    && (forall u :: u in s.w.db.tasks ==> u in n.w.db.tasks && n.w.db.tasks[u].round == s.w.db.tasks[u].round)
    && (t in s.w.db.subs ==> t in s.gates)
  }

  lemma GatedClosers(s: Sys, n: Sys, t: string, late: set<string>, now: set<string>, id: RoundId)
    requires ClosersTracked(s, late, id) && OneGated(s, n, t) && late <= now <= late + {t}
    requires AcceptedIn(n.w.db, id) <= AcceptedIn(s.w.db, id) + (now - late)
    ensures ClosersTracked(n, now, id)
  {
    hide Pending, AcceptedIn;
    forall p | p in n.closers ensures PendingSound(n, now, id, n.closers[p]) && AllAccounted(n.w.db, now, id, n.closers[p]) {
      assert PendingSound(s, late, id, s.closers[p]) && AllAccounted(s.w.db, late, id, s.closers[p]);
    }
  }

  lemma SubmitRows(db: Db, t: string, worker: string, steps: int, metrics: Metrics, now: int, id: RoundId)
    requires LeaseSound(db) && RecordSubmission(db, t, worker, steps, metrics, now).Ok?
    ensures var n := RecordSubmission(db, t, worker, steps, metrics, now).value;
      && t !in db.subs && t in n.subs && n.subs[t].accepted.None? && n.subs == db.subs[t := n.subs[t]] && n.rounds == db.rounds
      && (forall u :: u in db.tasks ==> u in n.tasks && n.tasks[u].round == db.tasks[u].round)
      && AcceptedIn(n, id) == AcceptedIn(db, id) && t !in AcceptedIn(db, id)
  {
    hide PlausibleSteps, OneLease, SubSound, ArtifactOf;
    assert TaskSound(db, t);
    var n := RecordSubmission(db, t, worker, steps, metrics, now).value;
    assert n.tasks.Keys == db.tasks.Keys;
  }

  lemma SubmitTracked(s: Sys, t: string, worker: string, steps: int, metrics: Metrics, now: int, late: set<string>, id: RoundId)
    requires WorkSound(s) && Tracked(s, late, id)
    ensures Tracked(DoSubmit(s, t, worker, steps, metrics, now), late, id)
  {
    hide ClosersTracked, LeaseSound, GateSound, RecordSubmission, AcceptedIn;
    if RecordSubmission(s.w.db, t, worker, steps, metrics, now).Ok? {
      SubmitRows(s.w.db, t, worker, steps, metrics, now, id);
      GatedClosers(s, DoSubmit(s, t, worker, steps, metrics, now), t, late, late, id);
    }
  }

  lemma NothingGated(s: Sys, t: string, id: RoundId)
    requires t !in s.gates || !s.gates[t].Decided?
    ensures DoGateWrite(s, t) == s && !Accepts(s, GateWrite(t), id)
  {
  }

  lemma GateWriteRows(s: Sys, t: string, id: RoundId)
    requires t in s.gates && s.gates[t].Decided? && t in s.w.db.tasks && t in s.w.db.subs && s.w.db.subs[t].accepted.None?
    ensures var n := DoGateWrite(s, t);
      && OneGated(s, n, t) && n.w.db.rounds == s.w.db.rounds && n.gates == s.gates - {t}
      && (forall u :: u in s.w.db.subs && u != t ==> u in n.w.db.subs && n.w.db.subs[u] == s.w.db.subs[u])
      && t !in AcceptedIn(s.w.db, id)
      && AcceptedIn(n.w.db, id) == AcceptedIn(s.w.db, id) + (if Accepts(s, GateWrite(t), id) then {t} else {})
  {
  }

  lemma GateWriteTracked(s: Sys, t: string, late: set<string>, id: RoundId)
    requires WorkSound(s) && Tracked(s, late, id)
    ensures Tracked(DoGateWrite(s, t), if Accepts(s, GateWrite(t), id) then late + {t} else late, id)
  {
    hide ClosersTracked, PlausibleSteps, LeaseSound, DoGateWrite, AcceptedIn, Accepts, OneGated;
    var n, now := DoGateWrite(s, t), if Accepts(s, GateWrite(t), id) then late + {t} else late;
    if t !in s.gates || !s.gates[t].Decided? {
      NothingGated(s, t, id);
    } else {
      assert GateSound(s, t);
      GateWriteRows(s, t, id);
      assert now - late == if Accepts(s, GateWrite(t), id) then {t} else {};
      GatedClosers(s, n, t, late, now, id);
    }
  }

  // ---- the steps of a close ----------------------------------------------------------------------------------

  /** A step of a close rejects some of what it has in hand, and lets go of nothing else. */
  ghost predicate Handles(db: Db, n: Db, pc: Pc, next: Pc, rejected: set<string>) {
    && rejected <= Pending(pc) && Pending(next) <= Pending(pc)
    && (RoundOf(next).Some? ==> RoundOf(next) == RoundOf(pc))
    && (NoResultYet(next) ==> NoResultYet(pc) && Pending(pc) <= Pending(next) + rejected)
    && n.subs.Keys == db.subs.Keys && n.tasks.Keys == db.tasks.Keys
    && (forall t :: t in db.tasks ==> n.tasks[t].round == db.tasks[t].round)
    && (forall t :: t in db.subs ==> if t in rejected then n.subs[t].accepted == Some(false) else n.subs[t] == db.subs[t])
  }

  lemma FirstEntry(todo: seq<Entry>)
    requires todo != []
    ensures EntryTasks(todo) == {todo[0].task} + EntryTasks(todo[1..])
  {
    assert todo == [todo[0]] + todo[1..];
  }

  lemma FirstJudged(pending: seq<Judged>)
    requires pending != []
    ensures JudgedTasks(pending) == {pending[0].kept.task} + JudgedTasks(pending[1..])
  {
    assert pending == [pending[0]] + pending[1..];
  }

  lemma OneMoreKept(kept: seq<Kept>, k: Kept)
    ensures Tasks(kept + [k]) == Tasks(kept) + {k.task}
  {
  }

  lemma PairedTasks(kept: seq<Kept>, verdicts: seq<Verdict>)
    requires |kept| == |verdicts|
    ensures JudgedTasks(Paired(kept, verdicts)) == Tasks(kept)
  {
    var paired := Paired(kept, verdicts);
    forall k | k in kept ensures k.task in JudgedTasks(paired) {
      var i :| 0 <= i < |kept| && kept[i] == k;
      assert paired[i] in paired;
    }
    forall j | j in paired ensures j.kept.task in Tasks(kept) {
      var i :| 0 <= i < |paired| && paired[i] == j;
      assert kept[i] in kept;
    }
  }

  lemma FetchHandles(w: World, pc: Pc, io: bool) returns (rejected: set<string>)
    requires pc.Fetching? && pc.todo != []
    ensures var n := FetchNext(w, pc, io); Handles(w.db, n.0.db, pc, n.1, rejected)
  {
    hide Fetch, EntryTasks, Tasks;
    var e := pc.todo[0];
    FirstEntry(pc.todo);
    if io && Fetch(w.store, e.artifact).Some? {
      rejected := {};
      OneMoreKept(pc.kept, Kept(e.task, Contribution(Fetch(w.store, e.artifact).value, e.steps), e.metrics));
    } else {
      rejected := {e.task};
    }
  }

  lemma JudgeHandles(w: World, pc: Pc) returns (rejected: set<string>)
    requires pc.Judging? && pc.pending != []
    ensures var n := JudgeNext(w, pc); Handles(w.db, n.0.db, pc, n.1, rejected)
  {
    hide JudgedTasks, Tasks;
    FirstJudged(pc.pending);
    OneMoreKept(pc.kept, pc.pending[0].kept);
    rejected := if pc.pending[0].verdict.Accepted? then {} else {pc.pending[0].kept.task};
  }

  lemma GateHandles(db: Db, job: Job, base: Adapter, kept: seq<Kept>, cfg: Config)
    ensures Handles(db, db, Fetching(job, base, [], kept), Judge(job, base, kept, cfg), {})
  {
    hide Verdicts, Works, Tasks, Paired, JudgedTasks;
    var vs := Verdicts(Adapters(Works(kept)), cfg);
    if vs.Some? && |vs.value| == |kept| { PairedTasks(kept, vs.value); }
    NoneListed();
  }

  lemma NoneListed()
    ensures EntryTasks([]) == {} && Tasks([]) == {} && JudgedTasks([]) == {}
  {
  }

  lemma OtherHandles(w: World, pc: Pc, c: Choice, cfg: Config)
    requires pc.Loading? || pc.Combining? || pc.Publishing? || pc.SavingMomentum? || (pc.Judging? && pc.pending == [])
    ensures var n := Step(w, pc, c, cfg); n.0.db == w.db && Handles(w.db, n.0.db, pc, n.1, {})
  {
    hide Fetch, CombineKept, SaveAdapter, EntryTasks, Tasks, JudgedTasks;
    NoneListed();
  }

  lemma RowsHandle(w: World, pc: Pc, c: Choice, cfg: Config)
    requires pc.NamingMomentum? || pc.Committing? || pc.Advancing? || pc.Unwinding? || pc.Ended?
    ensures var n := Step(w, pc, c, cfg); Handles(w.db, n.0.db, pc, n.1, {})
  {
    hide TimingOf;
  }

  /** Every step after the query handles what the close has in hand. */
  lemma StepHandles(w: World, pc: Pc, c: Choice, cfg: Config) returns (rejected: set<string>)
    requires !pc.Claimed?
    ensures var n := Step(w, pc, c, cfg); Handles(w.db, n.0.db, pc, n.1, rejected)
  {
    hide Handles, FetchNext, JudgeNext, Judge, CombineStep, Load, Publish, Commit, Advance, ReleaseClose, NameMomentum;
    rejected := {};
    match pc
    case Fetching(job, base, todo, kept) =>
      if todo == [] {
        GateHandles(w.db, job, base, kept, cfg);
      } else {
        rejected := FetchHandles(w, pc, c.io);
      }
    case Judging(_, _, pending, _) =>
      if pending == [] {
        OtherHandles(w, pc, c, cfg);
      } else {
        rejected := JudgeHandles(w, pc);
      }
    case Loading(_, _) => OtherHandles(w, pc, c, cfg);
    case Combining(_, _, _) => OtherHandles(w, pc, c, cfg);
    case Publishing(_, _) => OtherHandles(w, pc, c, cfg);
    case SavingMomentum(_, _) => OtherHandles(w, pc, c, cfg);
    case _ => RowsHandle(w, pc, c, cfg);
  }

  lemma HandledAccepted(db: Db, n: Db, pc: Pc, next: Pc, rejected: set<string>, id: RoundId)
    requires Handles(db, n, pc, next, rejected)
    ensures AcceptedIn(n, id) == AcceptedIn(db, id) - rejected
  {
    hide Pending;
  }

  lemma PendingHasRound(pc: Pc)
    ensures Pending(pc) != {} ==> RoundOf(pc).Some?
  {
  }

  /** What one closer's step means for the rest. */
  lemma OthersTracked(s: Sys, n: Sys, p: nat, next: Pc, rejected: set<string>, late: set<string>, id: RoundId)
    requires ClosersTracked(s, late, id) && p in s.closers && n.closers == s.closers[p := next] && n.gates == s.gates
    requires Handles(s.w.db, n.w.db, s.closers[p], next, rejected)
    ensures ClosersTracked(n, late, id)
  {
    hide Pending, AcceptedIn;
    HandledAccepted(s.w.db, n.w.db, s.closers[p], next, rejected, id);
    PendingHasRound(next);
    assert PendingSound(s, late, id, s.closers[p]) && AllAccounted(s.w.db, late, id, s.closers[p]);
    forall q | q in n.closers ensures PendingSound(n, late, id, n.closers[q]) && AllAccounted(n.w.db, late, id, n.closers[q]) {
      assert PendingSound(s, late, id, s.closers[q]) && AllAccounted(s.w.db, late, id, s.closers[q]);
    }
  }

  /** A round found closed without a result was so before, or this step committed it. */
  ghost predicate ClosedBy(db: Db, n: Db, pc: Pc, id: RoundId) {
    RoundIs(n, id, Closed) && n.rounds[id].result.None? ==>
      || (RoundIs(db, id, Closed) && db.rounds[id].result.None?)
      || (pc.Committing? && pc.result.None? && pc.job.id == id)
  }

  lemma LoudClosedBy(w: World, pc: Pc, c: Choice, cfg: Config, id: RoundId)
    requires !QuietPc(pc)
    ensures ClosedBy(w.db, Step(w, pc, c, cfg).0.db, pc, id)
  {
    hide EndedWith, TimingOf;
  }

  lemma StepClosedBy(w: World, pc: Pc, c: Choice, cfg: Config, id: RoundId)
    requires CanStep(w, pc, c)
    ensures ClosedBy(w.db, Step(w, pc, c, cfg).0.db, pc, id)
  {
    hide IsQueryOrder;
    if !QuietPc(pc) {
      hide Step, ClosedBy;
      LoudClosedBy(w, pc, c, cfg, id);
    } else if HasJob(pc) {
      hide Step;
      JobStep(w, pc, c, cfg);
    }
  }

  lemma HandledTracked(s: Sys, p: nat, c: Choice, cfg: Config, late: set<string>, id: RoundId)
    requires WorkSound(s) && Tracked(s, late, id) && p in s.closers && !s.closers[p].Claimed?
    ensures Tracked(DoStepClose(s, p, c, cfg), late, id)
  {
    hide Step, Handles, ClosersTracked, Pending, AcceptedIn, WorkSound, NoResultYet;
    var pc, n := s.closers[p], DoStepClose(s, p, c, cfg);
    var rejected := StepHandles(s.w, pc, c, cfg);
    StepClosedBy(s.w, pc, c, cfg, id);
    OthersTracked(s, n, p, n.closers[p], rejected, late, id);
    RejectedNotLate(s, n, pc, n.closers[p], rejected, late, id, p);
    CommitsNothing(s, late, id, p);
  }

  lemma RejectedNotLate(s: Sys, n: Sys, pc: Pc, next: Pc, rejected: set<string>, late: set<string>, id: RoundId, p: nat)
    requires LateSound(s, late, id) && ClosersTracked(s, late, id) && p in s.closers && s.closers[p] == pc && n.gates == s.gates
    requires Handles(s.w.db, n.w.db, pc, next, rejected)
    ensures LateSound(n, late, id) && AcceptedIn(n.w.db, id) <= AcceptedIn(s.w.db, id)
  {
    hide Pending;
    HandledAccepted(s.w.db, n.w.db, pc, next, rejected, id);
    assert PendingSound(s, late, id, pc);
  }

  lemma CommitsNothing(s: Sys, late: set<string>, id: RoundId, p: nat)
    requires ClosersTracked(s, late, id) && p in s.closers
    ensures var pc := s.closers[p]; pc.Committing? && pc.result.None? && pc.job.id == id ==> AcceptedIn(s.w.db, id) <= late
  {
    hide AcceptedIn;
    assert AllAccounted(s.w.db, late, id, s.closers[p]);
  }

  // ---- the query --------------------------------------------------------------------------------------------

  lemma QueriedTasks(w: World, id: RoundId, order: seq<string>)
    requires IsQueryOrder(w.db, id, order)
    ensures forall t :: t in order ==> t in w.db.subs
    ensures Pending(Query(w, id, order)) <= AcceptedIn(w.db, id)
    ensures NoResultYet(Query(w, id, order)) ==> Pending(Query(w, id, order)) == AcceptedIn(w.db, id)
  {
    if id.run in w.db.runs && id in w.db.rounds {
      var todo := Entries(w.db, order);
      forall t | t in AcceptedIn(w.db, id) ensures t in EntryTasks(todo) {
        assert t in order;
        var i :| 0 <= i < |order| && order[i] == t;
        assert todo[i] in todo;
      }
      forall e | e in todo ensures e.task in AcceptedIn(w.db, id) {
        var i :| 0 <= i < |todo| && todo[i] == e;
        assert order[i] in order;
      }
    }
  }

  lemma QueryRound(w: World, id: RoundId, order: seq<string>)
    requires forall t :: t in order ==> t in w.db.subs
    ensures RoundOf(Query(w, id, order)) == Some(id)
  {
  }

  lemma OtherClosers(s: Sys, p: nat, q: nat, id: RoundId)
    requires Sound(s) && p in s.closers && q in s.closers && q != p && s.closers[p] == Claimed(id)
    ensures RoundOf(s.closers[q]) != Some(id) && !RoundIs(s.w.db, id, Closed)
  {
    hide Chain, CreationsSound, JobSound;
    assert PcSound(s.w.db, s.closers[p]);
    assert RoundOf(s.closers[p]) != RoundOf(s.closers[q]);
  }

  lemma ClaimedNotClosed(s: Sys, p: nat, id: RoundId)
    requires Sound(s) && p in s.closers && s.closers[p] == Claimed(id)
    ensures !RoundIs(s.w.db, id, Closed)
  {
    hide Chain, CreationsSound, JobSound, Exclusive;
    assert PcSound(s.w.db, s.closers[p]);
  }

  lemma QueryTracked(s: Sys, p: nat, c: Choice, cfg: Config, late: set<string>, id: RoundId)
    requires Sound(s) && WorkSound(s) && Tracked(s, late, id) && p in s.closers && s.closers[p].Claimed? && CanStep(s.w, s.closers[p], c)
    ensures Tracked(DoStepClose(s, p, c, cfg), if s.closers[p] == Claimed(id) then {} else late, id)
  {
    hide Sound, WorkSound, Pending, NoResultYet, IsQueryOrder, Query;
    var o, n, now := s.closers[p].id, DoStepClose(s, p, c, cfg), if s.closers[p] == Claimed(id) then {} else late;
    QueriedTasks(s.w, o, c.order);
    QueryRound(s.w, o, c.order);
    if o == id { ClaimedNotClosed(s, p, id); }
    forall q | q in n.closers ensures PendingSound(n, now, id, n.closers[q]) && AllAccounted(n.w.db, now, id, n.closers[q]) {
      if q == p {
        QueriedSound(s, o, c.order, now, id);
      } else {
        assert PendingSound(s, late, id, s.closers[q]) && AllAccounted(s.w.db, late, id, s.closers[q]);
        if o == id { OtherClosers(s, p, q, id); }
      }
    }
  }

  lemma QueriedSound(s: Sys, o: RoundId, order: seq<string>, now: set<string>, id: RoundId)
    requires IsQueryOrder(s.w.db, o, order) && LateSound(s, {}, id) && (o == id ==> now == {})
    requires forall t :: t in order ==> t in s.w.db.subs
    ensures PendingSound(s, now, id, Query(s.w, o, order)) && AllAccounted(s.w.db, now, id, Query(s.w, o, order))
  {
    hide Pending, NoResultYet, IsQueryOrder, Query;
    QueriedTasks(s.w, o, order);
    QueryRound(s.w, o, order);
  }

  // ---- every step, every run ---------------------------------------------------------------------------------

  lemma StepTracked(s: Sys, p: nat, c: Choice, cfg: Config, late: set<string>, id: RoundId)
    requires Sound(s) && WorkSound(s) && Tracked(s, late, id)
    ensures Tracked(DoStepClose(s, p, c, cfg), if AsksFor(s, StepClose(p, c), id) then {} else late, id)
  {
    hide Sound, WorkSound, Tracked, IsQueryOrder, Step;
    if p in s.closers && CanStep(s.w, s.closers[p], c) {
      if s.closers[p].Claimed? {
        QueryTracked(s, p, c, cfg, late, id);
      } else {
        HandledTracked(s, p, c, cfg, late, id);
      }
    }
  }

  lemma ActionTracked(s: Sys, a: Action, cfg: Config, late: set<string>, id: RoundId)
    requires Sound(s) && WorkSound(s) && Tracked(s, late, id)
    ensures Tracked(Apply(s, a, cfg), LateAfter(s, a, late, id), id)
  {
    hide Sound, Tracked, DoStepClose, DoSubmit, DoGateWrite, Unmoved, Accepts, LeaseSound, GateSound;
    if a.StepClose? {
      StepTracked(s, a.p, a.choice, cfg, late, id);
      NoVerdict(s, a, id);
    } else if a.Submit? {
      SubmitTracked(s, a.task, a.worker, a.steps, a.metrics, a.now, late, id);
      NoVerdict(s, a, id);
    } else if a.GateWrite? {
      GateWriteTracked(s, a.task, late, id);
    } else {
      NoVerdict(s, a, id);
      ActionUnmoved(s, a, cfg, id);
      UnmovedKeeps(s, Apply(s, a, cfg), late, id);
    }
  }

  lemma NoVerdict(s: Sys, a: Action, id: RoundId)
    requires !a.GateWrite?
    ensures !Accepts(s, a, id)
  {
  }

  lemma ActionUnmoved(s: Sys, a: Action, cfg: Config, id: RoundId)
    requires !a.StepClose? && !a.Submit? && !a.GateWrite?
    ensures Unmoved(s, Apply(s, a, cfg), id)
  {
    hide Apply, Unmoved;
    if a.Expire? || a.ClaimWork? || a.Beat? || a.GiveUp? {
      TaskUnmoved(s, a, cfg, id);
    } else if StoreAction(a) {
      StoreUnmoved(s, a, cfg, id);
    } else {
      RoundsUnmoved(s, a, cfg, id);
    }
  }

  lemma {:induction false} EveryRunIsTracked(actions: seq<Action>, cfg: Config, id: RoundId)
    ensures Tracked(After(actions, cfg), Late(actions, cfg, id), id)
  {
    hide Apply, Sound, WorkSound, LateAfter;
    if actions == [] {
      assert Tracked(Empty(), {}, id);
    } else {
      var before := actions[..|actions| - 1];
      EveryRunIsTracked(before, cfg, id);
      EveryRunIsSound(before, cfg);
      EveryRunKeepsLeases(before, cfg);
      ActionTracked(After(before, cfg), actions[|actions| - 1], cfg, Late(before, cfg, id), id);
    }
  }

  /** A round that closed without a result has accepted work exactly when that work was accepted
      after its close had asked for accepted work: the diagnostic reports a verdict that came late,
      and never a close that lost what it had. */
  lemma {:induction false} NoResultExactlyWhen(actions: seq<Action>, cfg: Config, id: RoundId)
    requires var db := After(actions, cfg).w.db; RoundIs(db, id, Closed) && db.rounds[id].result.None?
    ensures AcceptedIn(After(actions, cfg).w.db, id) == Late(actions, cfg, id)
    ensures NoResultAdapter(After(actions, cfg).w.db, id) <==> Late(actions, cfg, id) != {}
  {
    hide After, Late, ClosersTracked;
    EveryRunIsTracked(actions, cfg, id);
  }
}
