/** Leases and submissions: what every step keeps about who holds what. */
module LeaseSafety {
  import opened Wrappers
  import opened Tensors
  import opened ObjectKeys
  import opened Tables
  import opened Rounds
  import opened Closer
  import opened System

  ghost predicate TaskSound(db: Db, t: string) {
    && t in db.tasks && db.tasks[t].round in db.rounds
    && (db.tasks[t].status == Leased ==>
          && db.rounds[db.tasks[t].round].status != Closed
          && db.tasks[t].worker.Some? && db.tasks[t].leaseExpires.Some?)
    && (t in db.subs <==> db.tasks[t].status == Submitted)
  }

  ghost predicate SubSound(db: Db, t: string) {
    && t in db.subs && t in db.tasks
    && db.subs[t].artifact == ArtifactOf(db, t)
    && (db.subs[t].accepted == Some(true) ==> PlausibleSteps(db.subs[t].steps, db.tasks[t].heartbeat))
  }

  /** One live lease per worker per round. */
  ghost predicate OneLease(db: Db) {
    forall t, u :: t in db.tasks && u in db.tasks && t != u && db.tasks[t].status == Leased && db.tasks[u].status == Leased ==>
      db.tasks[t].worker != db.tasks[u].worker || db.tasks[t].round != db.tasks[u].round
  }

  ghost predicate LeaseSound(db: Db) {
    && (forall t :: t in db.tasks ==> TaskSound(db, t))
    && (forall t :: t in db.subs ==> SubSound(db, t))
    && OneLease(db)
  }

  ghost predicate GateSound(s: Sys, t: string)
    requires t in s.gates
  {
    && t in s.w.db.subs && t in s.w.db.tasks
    && (s.gates[t] == Decided(true) ==> PlausibleSteps(s.w.db.subs[t].steps, s.w.db.tasks[t].heartbeat))
  }

  ghost predicate WorkSound(s: Sys) {
    LeaseSound(s.w.db) && forall t :: t in s.gates ==> GateSound(s, t)
  }

  // ---- steps that leave tasks and submissions alone ---------------------------------------

  /** No round disappears, and none becomes closed. */
  ghost predicate NoneCloses(db: Db, n: Db) {
    forall id :: id in db.rounds ==> id in n.rounds && (n.rounds[id].status == Closed ==> db.rounds[id].status == Closed)
  }

  lemma RoundsMoveOn(db: Db, n: Db)
    requires LeaseSound(db) && n.tasks == db.tasks && n.subs == db.subs && NoneCloses(db, n)
    ensures LeaseSound(n)
  {
    forall t | t in n.tasks ensures TaskSound(n, t) {
      assert TaskSound(db, t);
    }
    forall t | t in n.subs ensures SubSound(n, t) {
      assert SubSound(db, t);
    }
  }

  lemma GatesFollow(s: Sys, n: Sys)
    requires WorkSound(s) && n.w.db.subs == s.w.db.subs && n.w.db.tasks == s.w.db.tasks
    requires forall t :: t in n.gates ==> t in s.gates && n.gates[t] == s.gates[t]
    requires LeaseSound(n.w.db)
    ensures WorkSound(n)
  {
    forall t | t in n.gates ensures GateSound(n, t) {
      assert GateSound(s, t);
    }
  }

  // ---- one task changes ------------------------------------------------------------------------

  /** A lease ends without a submission, or goes on. */
  ghost predicate TaskMoves(a: Task, b: Task) {
    && b.round == a.round
    && (b == a || (a.status == Leased && b.status != Submitted && (b.status == Leased ==> b.worker == a.worker && b.leaseExpires.Some?)))
  }

  ghost predicate TasksMove(db: Db, n: Db) {
    && n.tasks.Keys == db.tasks.Keys && n.subs == db.subs
    && forall t :: t in db.tasks ==> TaskMoves(db.tasks[t], n.tasks[t])
  }

  /** A round that closes leaves no lease behind. */
  ghost predicate ClosingEndsLeases(db: Db, n: Db) {
    forall id :: id in db.rounds ==>
      && id in n.rounds
      && (n.rounds[id].status == Closed && db.rounds[id].status != Closed ==>
            forall t :: t in n.tasks && n.tasks[t].round == id ==> n.tasks[t].status != Leased)
  }

  lemma TasksMoveOn(db: Db, n: Db)
    requires LeaseSound(db) && TasksMove(db, n) && ClosingEndsLeases(db, n)
    ensures LeaseSound(n)
  {
    forall t | t in n.tasks ensures TaskSound(n, t) {
      assert TaskSound(db, t) && TaskMoves(db.tasks[t], n.tasks[t]);
    }
    forall t | t in n.subs ensures SubSound(n, t) {
      assert SubSound(db, t) && TaskSound(db, t) && TaskMoves(db.tasks[t], n.tasks[t]);
    }
    forall t, u | t in n.tasks && u in n.tasks && t != u && n.tasks[t].status == Leased && n.tasks[u].status == Leased
      ensures n.tasks[t].worker != n.tasks[u].worker || n.tasks[t].round != n.tasks[u].round
    {
      assert TaskMoves(db.tasks[t], n.tasks[t]) && TaskMoves(db.tasks[u], n.tasks[u]);
    }
  }

  lemma GatesAfterMove(s: Sys, n: Sys)
    requires WorkSound(s) && TasksMove(s.w.db, n.w.db) && n.gates == s.gates && LeaseSound(n.w.db)
    ensures WorkSound(n)
  {
    forall t | t in n.gates ensures GateSound(n, t) {
      assert GateSound(s, t) && TaskSound(s.w.db, t) && TaskMoves(s.w.db.tasks[t], n.w.db.tasks[t]);
    }
  }

  lemma ExpireMoves(db: Db, now: int)
    ensures TasksMove(db, ExpireLeases(db, now)) && ClosingEndsLeases(db, ExpireLeases(db, now))
  {
  }

  lemma AbandonMoves(db: Db, t: string, worker: string)
    ensures TasksMove(db, Abandon(db, t, worker)) && ClosingEndsLeases(db, Abandon(db, t, worker))
  {
  }

  lemma BeatMoves(db: Db, t: string, worker: string, steps: int, now: int, lease: int)
    requires Heartbeat(db, t, worker, steps, now, lease).Ok?
    ensures var n := Heartbeat(db, t, worker, steps, now, lease).value; TasksMove(db, n) && ClosingEndsLeases(db, n)
  {
  }

  lemma CommitEndsLeases(db: Db, id: RoundId, result: Option<Key>)
    ensures TasksMove(db, CommitClose(db, id, result)) && ClosingEndsLeases(db, CommitClose(db, id, result))
  {
  }

  // ---- claiming and submitting -------------------------------------------------------------------

  lemma ClaimKeeps(db: Db, c: Claim)
    requires LeaseSound(db)
    ensures LeaseSound(ClaimTask(db, c))
  {
    hide Picked, Trained;
    if Grants(db, c) {
      var n := ClaimTask(db, c);
      forall t | t in n.tasks ensures TaskSound(n, t) {
        if t != c.task {
          assert TaskSound(db, t);
        } else {
          assert t in db.subs ==> SubSound(db, t);
        }
      }
      forall t | t in n.subs ensures SubSound(n, t) {
        assert SubSound(db, t);
      }
      forall t, u | t in n.tasks && u in n.tasks && t != u && n.tasks[t].status == Leased && n.tasks[u].status == Leased
        ensures n.tasks[t].worker != n.tasks[u].worker || n.tasks[t].round != n.tasks[u].round
      {
        assert t != c.task ==> !Holds(db, t, c.worker, CurrentId(db, c.run));
        assert u != c.task ==> !Holds(db, u, c.worker, CurrentId(db, c.run));
      }
    }
  }

  lemma ClaimKeepsWork(s: Sys, c: Claim)
    requires WorkSound(s)
    ensures WorkSound(WithDb(s, ClaimTask(s.w.db, c)))
  {
    hide Picked, Trained, LeaseSound, Grants;
    var n := WithDb(s, ClaimTask(s.w.db, c));
    ClaimKeeps(s.w.db, c);
    forall t | t in n.gates ensures GateSound(n, t) {
      assert GateSound(s, t);
      NotFresh(s.w.db, c, t);
    }
  }

  lemma NotFresh(db: Db, c: Claim, t: string)
    requires t in db.tasks
    ensures var n := ClaimTask(db, c); t in n.tasks && n.tasks[t] == db.tasks[t] && n.subs == db.subs
  {
  }

  lemma SubmitKeeps(db: Db, t: string, worker: string, steps: int, metrics: Metrics, now: int)
    requires LeaseSound(db) && RecordSubmission(db, t, worker, steps, metrics, now).Ok?
    ensures LeaseSound(RecordSubmission(db, t, worker, steps, metrics, now).value)
  {
    var n := RecordSubmission(db, t, worker, steps, metrics, now).value;
    forall u | u in n.tasks ensures TaskSound(n, u) {
      assert TaskSound(db, u);
    }
    forall u | u in n.subs ensures SubSound(n, u) {
      if u != t { assert SubSound(db, u); }
    }
  }

  lemma SubmitKeepsWork(s: Sys, t: string, worker: string, steps: int, metrics: Metrics, now: int)
    requires WorkSound(s)
    ensures WorkSound(DoSubmit(s, t, worker, steps, metrics, now))
  {
    if RecordSubmission(s.w.db, t, worker, steps, metrics, now).Ok? {
      var n := DoSubmit(s, t, worker, steps, metrics, now);
      SubmitKeeps(s.w.db, t, worker, steps, metrics, now);
      hide LeaseSound;
      forall u | u in n.gates ensures GateSound(n, u) {
        if u != t { assert GateSound(s, u); }
      }
    }
  }

  /** A verdict that accepts needs a plausible step count behind it. */
  lemma VerdictKeeps(db: Db, t: string, accepted: bool)
    requires LeaseSound(db)
    requires accepted && t in db.subs && t in db.tasks ==> PlausibleSteps(db.subs[t].steps, db.tasks[t].heartbeat)
    ensures LeaseSound(RecordVerdict(db, t, accepted))
  {
    hide PlausibleSteps;
    var n := RecordVerdict(db, t, accepted);
    forall u | u in n.tasks ensures TaskSound(n, u) {
      assert TaskSound(db, u);
    }
    forall u | u in n.subs ensures SubSound(n, u) {
      assert SubSound(db, u);
    }
  }

  lemma VerdictKeepsGates(s: Sys, t: string, accepted: bool, gates: map<string, Gate>, n: Sys)
    requires WorkSound(s) && n.w.db == RecordVerdict(s.w.db, t, accepted) && LeaseSound(n.w.db)
    requires forall u :: u in n.gates ==> u in s.gates && n.gates[u] == s.gates[u]
    ensures WorkSound(n)
  {
    hide LeaseSound, PlausibleSteps;
    forall u | u in n.gates ensures GateSound(n, u) {
      assert GateSound(s, u);
    }
  }

  lemma GateWriteKeeps(s: Sys, t: string)
    requires WorkSound(s)
    ensures WorkSound(DoGateWrite(s, t))
  {
    hide PlausibleSteps;
    if t in s.gates && s.gates[t].Decided? {
      assert GateSound(s, t);
      VerdictKeeps(s.w.db, t, s.gates[t].accepted);
      VerdictKeepsGates(s, t, s.gates[t].accepted, s.gates, DoGateWrite(s, t));
    }
  }

  lemma GateReadKeeps(s: Sys, t: string, io: bool)
    requires WorkSound(s)
    ensures WorkSound(DoGateRead(s, t, io))
  {
    hide LeaseSound, CheckStructural, PlausibleSteps;
    var n := DoGateRead(s, t, io);
    if n != s {
      assert GateSound(s, t);
      forall u | u in n.gates ensures GateSound(n, u) {
        if u != t {
          assert GateSound(s, u);
        } else if n.gates[t] == Decided(true) {
          GateVerdictPlausible(s.w, t, Expected(s.w, t).value, io);
        }
      }
    }
  }

  lemma GateVerdictPlausible(w: World, t: string, expected: Manifest, io: bool)
    requires t in w.db.subs && t in w.db.tasks && GateVerdict(w, t, expected, io).Accepted?
    ensures PlausibleSteps(w.db.subs[t].steps, w.db.tasks[t].heartbeat)
  {
    hide CheckStructural, PlausibleSteps;
    var sub := w.db.subs[t];
    GateIsExact(w.store[sub.artifact], expected, sub.steps, w.db.tasks[t].heartbeat);
  }

  /** What a gating request decides: acceptance exactly when the artifact can be had, has the tensors of
      its round's base, all finite, and comes with a plausible step count; and nothing when that base does
      not load. */
  lemma GateReadDecides(s: Sys, t: string, io: bool)
    requires t in s.gates && s.gates[t] == Received && t in s.w.db.subs && t in s.w.db.tasks && s.w.db.tasks[t].round in s.w.db.rounds
    ensures var sub, base := s.w.db.subs[t], Fetch(s.w.store, s.w.db.rounds[s.w.db.tasks[t].round].base);
      DoGateRead(s, t, io).gates ==
        if base.None? then s.gates - {t}
        else s.gates[t := Decided(
          && io && sub.artifact in s.w.store && Usable(s.w.store[sub.artifact], ManifestOf(base.value))
          && PlausibleSteps(sub.steps, s.w.db.tasks[t].heartbeat))]
  {
  }

  // ---- the steps of a close -------------------------------------------------------------------------

  /** What a close's step does to the tables. */
  datatype Effect = Reads | Reverdicts(task: string) | MovesRound | Commits

  ghost predicate HasEffect(db: Db, n: Db, e: Effect, pc: Pc) {
    match e
    case Reads => n == db
    case Reverdicts(t) => n == RecordVerdict(db, t, false)
    case MovesRound => n.tasks == db.tasks && n.subs == db.subs && NoneCloses(db, n)
    case Commits => pc.Committing? && n == CommitClose(db, pc.job.id, pc.result)
  }

  function EffectOf(pc: Pc): Effect {
    match pc
    case Fetching(_, _, todo, _) => if todo == [] then Reads else Reverdicts(todo[0].task)
    case Judging(_, _, pending, _) => if pending == [] then Reads else Reverdicts(pending[0].kept.task)
    case NamingMomentum(_) => MovesRound
    case Advancing(_, _) => MovesRound
    case Unwinding(_) => MovesRound
    case Committing(_, _) => Commits
    case _ => Reads
  }

  lemma StepEffect(w: World, pc: Pc, c: Choice, cfg: Config)
    requires CanStep(w, pc, c)
    ensures var n := Step(w, pc, c, cfg).0; n.db == w.db || HasEffect(w.db, n.db, EffectOf(pc), pc)
  {
    hide CombineKept, Verdicts, IsQueryOrder, Entries, Fetch, SaveAdapter, Works, CommitClose, RecordVerdict, NoneCloses,
      OpenRound, FinishRun, ReleaseClose, NameMomentum, TimingOf;
    RoundsMove(w.db, c.now, pc);
  }

  /** What the round-moving steps of a close do to rounds and runs closes nothing. */
  lemma RoundsMove(db: Db, now: int, pc: Pc)
    ensures pc.NamingMomentum? ==> HasEffect(db, NameMomentum(db, pc.job.id.run), MovesRound, pc)
    ensures pc.Unwinding? ==> HasEffect(db, ReleaseClose(db, pc.id), MovesRound, pc)
    ensures pc.Advancing? ==> HasEffect(db, FinishRun(db, pc.job.id.run), MovesRound, pc)
    ensures pc.Advancing? ==>
      var next := OpenRound(db, RoundId(pc.job.id.run, pc.job.id.idx + 1), pc.published, TimingOf(pc.job.round), now);
      next.Ok? ==> HasEffect(db, next.value, MovesRound, pc)
  {
    hide TimingOf;
  }

  lemma EffectKeeps(db: Db, n: Db, e: Effect, pc: Pc)
    requires LeaseSound(db) && HasEffect(db, n, e, pc)
    ensures LeaseSound(n)
  {
    hide LeaseSound, CommitClose, RecordVerdict, NoneCloses, TasksMove, ClosingEndsLeases;
    match e
    case Reads =>
    case Reverdicts(t) => VerdictKeeps(db, t, false);
    case MovesRound => RoundsMoveOn(db, n);
    case Commits =>
      CommitEndsLeases(db, pc.job.id, pc.result);
      TasksMoveOn(db, n);
  }

  lemma EffectKeepsGates(s: Sys, n: Sys, e: Effect, pc: Pc)
    requires WorkSound(s) && HasEffect(s.w.db, n.w.db, e, pc) && n.gates == s.gates && LeaseSound(n.w.db)
    ensures WorkSound(n)
  {
    hide CommitClose, RecordVerdict, NoneCloses, TasksMove, LeaseSound, GateSound;
    match e
    case Reads => GatesFollow(s, n);
    case Reverdicts(t) => VerdictKeepsGates(s, t, false, s.gates, n);
    case MovesRound => GatesFollow(s, n);
    case Commits =>
      CommitEndsLeases(s.w.db, pc.job.id, pc.result);
      GatesAfterMove(s, n);
  }

  lemma StepCloseKeepsWork(s: Sys, p: nat, c: Choice, cfg: Config)
    requires WorkSound(s)
    ensures WorkSound(DoStepClose(s, p, c, cfg))
  {
    hide Step, EffectOf, HasEffect, LeaseSound, GateSound, IsQueryOrder;
    if p in s.closers && CanStep(s.w, s.closers[p], c) {
      var pc, n := s.closers[p], DoStepClose(s, p, c, cfg);
      StepEffect(s.w, pc, c, cfg);
      if n.w.db != s.w.db {
        EffectKeeps(s.w.db, n.w.db, EffectOf(pc), pc);
        EffectKeepsGates(s, n, EffectOf(pc), pc);
      } else {
        GatesFollow(s, n);
      }
    }
  }

  // ---- every step ------------------------------------------------------------------------------------

  lemma MoveKeepsWork(s: Sys, n: Sys)
    requires WorkSound(s) && TasksMove(s.w.db, n.w.db) && ClosingEndsLeases(s.w.db, n.w.db) && n.gates == s.gates
    ensures WorkSound(n)
  {
    hide TasksMove, ClosingEndsLeases, LeaseSound, GateSound;
    TasksMoveOn(s.w.db, n.w.db);
    GatesAfterMove(s, n);
  }

  lemma RoundsKeepWork(s: Sys, n: Sys)
    requires WorkSound(s) && n.w.db.tasks == s.w.db.tasks && n.w.db.subs == s.w.db.subs && NoneCloses(s.w.db, n.w.db)
    requires forall t :: t in n.gates ==> t in s.gates && n.gates[t] == s.gates[t]
    ensures WorkSound(n)
  {
    hide NoneCloses, LeaseSound, GateSound;
    RoundsMoveOn(s.w.db, n.w.db);
    GatesFollow(s, n);
  }

  ghost predicate OnTasks(a: Action) {
    a.Expire? || a.ClaimWork? || a.Beat? || a.GiveUp? || a.Submit? || a.GateWrite? || a.GateRead? || a.StepClose?
  }

  lemma OtherActionFrame(s: Sys, a: Action, cfg: Config)
    requires !OnTasks(a)
    ensures var n := Apply(s, a, cfg);
      && n.w.db.tasks == s.w.db.tasks && n.w.db.subs == s.w.db.subs && NoneCloses(s.w.db, n.w.db)
      && (forall t :: t in n.gates ==> t in s.gates && n.gates[t] == s.gates[t])
  {
    hide GcCandidates, WellFormedAdapter, Finite, ArtifactOf, ShouldRestart, RoundOf;
  }

  /** Every step of the system keeps leases and submissions in order. */
  lemma ActionKeepsWork(s: Sys, a: Action, cfg: Config)
    requires WorkSound(s)
    ensures WorkSound(Apply(s, a, cfg))
  {
    hide WorkSound, ClaimTask, Heartbeat, Abandon, ExpireLeases, TasksMove, ClosingEndsLeases, NoneCloses,
      DoSubmit, DoGateRead, DoGateWrite, DoStepClose;
    match a
    case Expire(now) =>
      ExpireMoves(s.w.db, now);
      MoveKeepsWork(s, Apply(s, a, cfg));
    case ClaimWork(claim) => ClaimKeepsWork(s, claim);
    case Beat(t, worker, steps, now, lease) =>
      if Heartbeat(s.w.db, t, worker, steps, now, lease).Ok? {
        BeatMoves(s.w.db, t, worker, steps, now, lease);
        MoveKeepsWork(s, Apply(s, a, cfg));
      }
    case GiveUp(t, worker) =>
      AbandonMoves(s.w.db, t, worker);
      MoveKeepsWork(s, Apply(s, a, cfg));
    case Submit(t, worker, steps, metrics, now) => SubmitKeepsWork(s, t, worker, steps, metrics, now);
    case GateRead(t, io) => GateReadKeeps(s, t, io);
    case GateWrite(t) => GateWriteKeeps(s, t);
    case StepClose(p, c) => StepCloseKeepsWork(s, p, c, cfg);
    case _ => OtherActionKeepsWork(s, a, cfg);
  }

  lemma OtherActionKeepsWork(s: Sys, a: Action, cfg: Config)
    requires WorkSound(s) && !OnTasks(a)
    ensures WorkSound(Apply(s, a, cfg))
  {
    hide WorkSound, Apply, NoneCloses;
    OtherActionFrame(s, a, cfg);
    RoundsKeepWork(s, Apply(s, a, cfg));
  }

  /** Leases and submissions in every reachable state: one live lease per worker per round, a
      submission exactly for submitted tasks, no live lease on a closed round, and no acceptance
      without a plausible step count. */
  lemma {:induction false} EveryRunKeepsLeases(actions: seq<Action>, cfg: Config)
    ensures WorkSound(After(actions, cfg))
  {
    hide Apply;
    if actions != [] {
      EveryRunKeepsLeases(actions[..|actions| - 1], cfg);
      ActionKeepsWork(After(actions[..|actions| - 1], cfg), actions[|actions| - 1], cfg);
    }
  }

  // ---- heartbeats only grow ----------------------------------------------------------------------------

  ghost predicate ReportKept(db: Db, n: Db, t: string) {
    && (t in db.tasks ==> t in n.tasks)
    && (t in db.tasks && db.tasks[t].heartbeat.Some? ==>
          n.tasks[t].heartbeat.Some? && n.tasks[t].heartbeat.value >= db.tasks[t].heartbeat.value)
  }

  lemma CloseKeepsReports(s: Sys, p: nat, c: Choice, cfg: Config, t: string)
    ensures ReportKept(s.w.db, DoStepClose(s, p, c, cfg).w.db, t)
  {
    hide Step, IsQueryOrder, NoneCloses;
    if p in s.closers && CanStep(s.w, s.closers[p], c) {
      StepEffect(s.w, s.closers[p], c, cfg);
    }
  }

  lemma ReportsGrow(s: Sys, a: Action, cfg: Config, t: string)
    ensures ReportKept(s.w.db, Apply(s, a, cfg).w.db, t)
  {
    if a.StepClose? {
      hide DoStepClose;
      CloseKeepsReports(s, a.p, a.choice, cfg, t);
    } else if OnTasks(a) {
      TaskReportsGrow(s, a, cfg, t);
    } else {
      hide Apply;
      OtherActionFrame(s, a, cfg);
    }
  }

  lemma TaskReportsGrow(s: Sys, a: Action, cfg: Config, t: string)
    requires OnTasks(a) && !a.StepClose?
    ensures ReportKept(s.w.db, Apply(s, a, cfg).w.db, t)
  {
    if a.ClaimWork? {
      ClaimKeepsReports(s.w.db, a.claim, t);
      hide ClaimTask, ReportKept;
    } else {
      OtherReportsGrow(s, a, cfg, t);
      hide Apply;
    }
  }

  lemma ClaimKeepsReports(db: Db, c: Claim, t: string)
    ensures ReportKept(db, ClaimTask(db, c), t)
  {
    hide Picked, Trained, HoldsSome;
  }

  lemma OtherReportsGrow(s: Sys, a: Action, cfg: Config, t: string)
    requires OnTasks(a) && !a.StepClose? && !a.ClaimWork?
    ensures ReportKept(s.w.db, Apply(s, a, cfg).w.db, t)
  {
    hide ExpireLeases, Heartbeat, Abandon, RecordSubmission, RecordVerdict, GateVerdict, Expected, ReportKept;
    ReportsStand(s.w.db, t);
    match a {
      case Expire(now) => ExpireKeepsReports(s.w.db, now, t);
      case Beat(task, worker, steps, now, lease) => BeatKeepsReports(s.w.db, task, worker, steps, now, lease, t);
      case GiveUp(task, worker) => AbandonKeepsReports(s.w.db, task, worker, t);
      case Submit(task, worker, steps, metrics, now) => SubmitKeepsReports(s.w.db, task, worker, steps, metrics, now, t);
      case GateWrite(task) =>
        if task in s.gates && s.gates[task].Decided? { VerdictKeepsReports(s.w.db, task, s.gates[task].accepted, t); }
      case _ =>
    }
  }

  lemma ReportsStand(db: Db, t: string)
    ensures ReportKept(db, db, t)
  {
  }

  lemma ExpireKeepsReports(db: Db, now: int, t: string)
    ensures ReportKept(db, ExpireLeases(db, now), t)
  {
  }

  lemma BeatKeepsReports(db: Db, task: string, worker: string, steps: int, now: int, lease: int, t: string)
    ensures Heartbeat(db, task, worker, steps, now, lease).Ok? ==> ReportKept(db, Heartbeat(db, task, worker, steps, now, lease).value, t)
  {
  }

  lemma AbandonKeepsReports(db: Db, task: string, worker: string, t: string)
    ensures ReportKept(db, Abandon(db, task, worker), t)
  {
  }

  lemma SubmitKeepsReports(db: Db, task: string, worker: string, steps: int, metrics: Metrics, now: int, t: string)
    ensures var n := RecordSubmission(db, task, worker, steps, metrics, now); n.Ok? ==> ReportKept(db, n.value, t)
  {
    hide ArtifactOf;
  }

  lemma VerdictKeepsReports(db: Db, task: string, accepted: bool, t: string)
    ensures ReportKept(db, RecordVerdict(db, task, accepted), t)
  {
  }

  lemma {:induction false} ReportStays(actions: seq<Action>, n: nat, cfg: Config, t: string)
    requires n <= |actions|
    ensures ReportKept(After(actions[..n], cfg).w.db, After(actions, cfg).w.db, t)
  {
    hide Apply;
    var last := |actions| - 1;
    if n == |actions| {
      assert actions[..n] == actions;
    } else {
      assert actions[..last][..n] == actions[..n];
      ReportStays(actions[..last], n, cfg, t);
      ReportsGrow(After(actions[..last], cfg), actions[last], cfg, t);
    }
  }

  /** No worker is credited with fewer steps than it ever reported: in every run, an accepted
      submission counts at least the figure of every heartbeat its task was granted. */
  lemma {:induction false} AcceptedCoversHeartbeats(
    actions: seq<Action>, n: nat, cfg: Config, t: string, worker: string, steps: int, now: int, lease: int)
    requires n < |actions| && actions[n] == Beat(t, worker, steps, now, lease)
    requires Heartbeat(After(actions[..n], cfg).w.db, t, worker, steps, now, lease).Ok?
    ensures var db := After(actions, cfg).w.db;
      t in db.subs && db.subs[t].accepted == Some(true) ==> db.subs[t].steps >= steps
  {
    hide Apply, TaskSound, OneLease;
    var db := After(actions, cfg).w.db;
    var mid := After(actions[..n + 1], cfg);
    assert actions[..n + 1][..n] == actions[..n];
    BeatRecords(After(actions[..n], cfg), t, worker, steps, now, lease, cfg);
    ReportStays(actions, n + 1, cfg, t);
    EveryRunKeepsLeases(actions, cfg);
    assert t in db.subs ==> SubSound(db, t);
  }

  lemma BeatRecords(s: Sys, t: string, worker: string, steps: int, now: int, lease: int, cfg: Config)
    requires Heartbeat(s.w.db, t, worker, steps, now, lease).Ok?
    ensures var n := Apply(s, Beat(t, worker, steps, now, lease), cfg).w.db;
      t in n.tasks && n.tasks[t].heartbeat.Some? && n.tasks[t].heartbeat.value >= steps
  {
  }
}
