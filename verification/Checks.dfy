/** The runtime diagnostics, as statements about every reachable state. */
module Checks {
  import opened Wrappers
  import opened Tensors
  import opened ObjectKeys
  import opened Tables
  import opened Rounds
  import opened Closer
  import opened System
  import opened CloseSafety
  import opened LeaseSafety
  import opened Stranding

  /** A worker with two live leases in one round. */
  ghost predicate DoubleLease(db: Db) {
    exists t, u :: t in db.tasks && u in db.tasks && t != u && db.tasks[t].status == Leased && db.tasks[u].status == Leased
      && db.tasks[t].worker.Some? && db.tasks[t].worker == db.tasks[u].worker && db.tasks[t].round == db.tasks[u].round
  }

  /** A submission whose task is neither submitted nor expired. */
  ghost predicate OrphanSubmission(db: Db) {
    exists t :: t in db.subs && t in db.tasks && db.tasks[t].status != Submitted && db.tasks[t].status != Expired
  }

  /** An active run whose current round does not exist. */
  ghost predicate DanglingCurrent(db: Db, run: string) {
    RunActive(db, run) && CurrentId(db, run) !in db.rounds
  }

  /** Before the last, a round without a result. */
  ghost predicate BrokenLink(db: Db, id: RoundId) {
    id in db.rounds && RoundId(id.run, id.idx + 1) in db.rounds && db.rounds[id].result != Some(db.rounds[RoundId(id.run, id.idx + 1)].base)
  }

  // ---- the run points at a real round ------------------------------------------------------

  /** A run without its current round is one whose creation has not reached its last step. */
  ghost predicate PointsAtRound(s: Sys) {
    forall run :: run in s.w.db.runs ==>
      CurrentId(s.w.db, run) in s.w.db.rounds || (run in s.creations && s.creations[run] == RunInserted)
  }

  /** Rounds stay, and each run's `current` still names a round if it did. */
  ghost predicate CurrentKept(db: Db, n: Db) {
    && n.runs.Keys == db.runs.Keys && db.rounds.Keys <= n.rounds.Keys
    && forall run :: run in db.runs ==> n.runs[run].current == db.runs[run].current || CurrentId(n, run) in n.rounds
  }

  lemma LoudStepKeepsCurrent(w: World, pc: Pc, c: Choice, cfg: Config)
    requires !QuietPc(pc)
    ensures CurrentKept(w.db, Step(w, pc, c, cfg).0.db)
  {
    hide EndedWith, TimingOf;
    if pc.Advancing? {
      AdvanceKeepsCurrent(w, pc, c);
      hide Advance;
    }
  }

  lemma AdvanceKeepsCurrent(w: World, pc: Pc, c: Choice)
    requires pc.Advancing?
    ensures CurrentKept(w.db, Advance(w, pc, c.now).0.db)
  {
    hide TimingOf;
  }

  lemma StepKeepsCurrent(w: World, pc: Pc, c: Choice, cfg: Config)
    requires CanStep(w, pc, c)
    ensures CurrentKept(w.db, Step(w, pc, c, cfg).0.db)
  {
    if !QuietPc(pc) {
      hide Step, CurrentKept;
      LoudStepKeepsCurrent(w, pc, c, cfg);
    } else if HasJob(pc) {
      hide Step;
      JobStep(w, pc, c, cfg);
    } else {
      hide IsQueryOrder, Entries;
    }
  }

  lemma ActionKeepsCurrent(s: Sys, a: Action, cfg: Config)
    requires Sound(s) && PointsAtRound(s)
    ensures PointsAtRound(Apply(s, a, cfg))
  {
    hide Apply, Sound, CurrentKept;
    if TaskAction(a) {
      TaskActionFrame(s, a, cfg);
    } else if StoreAction(a) {
      StoreActionFrame(s, a, cfg);
    } else {
      BystandersOnly(a);
      OtherKeepsCurrent(s, a, cfg);
    }
  }

  lemma OtherKeepsCurrent(s: Sys, a: Action, cfg: Config)
    requires Sound(s) && PointsAtRound(s)
    requires a.AddRun? || a.OpenFirst? || a.Restart? || a.StartClose? || a.StepClose? || a.FailClose? || a.CrashClose?
    ensures PointsAtRound(Apply(s, a, cfg))
  {
    hide Chain, ClosersSound, Step, IsQueryOrder, Counted, Progress;
    if a.StepClose? && a.p in s.closers && CanStep(s.w, s.closers[a.p], a.choice) {
      StepKeepsCurrent(s.w, s.closers[a.p], a.choice, cfg);
    }
  }

  lemma {:induction false} EveryRunPoints(actions: seq<Action>, cfg: Config)
    ensures PointsAtRound(After(actions, cfg))
  {
    hide Apply, Sound;
    if actions != [] {
      var before := actions[..|actions| - 1];
      EveryRunPoints(before, cfg);
      EveryRunIsSound(before, cfg);
      ActionKeepsCurrent(After(before, cfg), actions[|actions| - 1], cfg);
    }
  }

  /** What the diagnostics look for, in the strength that holds. */
  ghost predicate Healthy(s: Sys) {
    && !DoubleLease(s.w.db) && !OrphanSubmission(s.w.db)
    && (forall t :: t in s.w.db.subs && t in s.w.db.tasks ==> s.w.db.tasks[t].status == Submitted)
    && (forall id :: !BrokenLink(s.w.db, id))
    && (forall run :: DanglingCurrent(s.w.db, run) ==> run in s.creations && s.creations[run] == RunInserted)
  }

  lemma SoundIsHealthy(s: Sys)
    requires Sound(s) && WorkSound(s) && PointsAtRound(s)
    ensures Healthy(s)
  {
    hide ClosersSound, CreationsSound, RunSound;
    var db := s.w.db;
    forall t | t in db.subs && t in db.tasks ensures db.tasks[t].status == Submitted {
      assert TaskSound(db, t);
    }
    forall id: RoundId ensures !BrokenLink(db, id) {
      if id in db.rounds && RoundId(id.run, id.idx + 1) in db.rounds {
        assert RoundSound(db, id) && RoundSound(db, RoundId(id.run, id.idx + 1));
      }
    }
  }

  /** In every reachable state no worker holds two leases in a round, no submission is an orphan
      (its task is always still submitted, not merely submitted or expired), no link of the chain
      is broken, and a run points at a missing round only while it is being created. */
  lemma {:induction false} ChecksHold(actions: seq<Action>, cfg: Config)
    ensures Healthy(After(actions, cfg))
  {
    hide After, Sound, WorkSound, PointsAtRound, Healthy;
    EveryRunIsSound(actions, cfg);
    EveryRunKeepsLeases(actions, cfg);
    EveryRunPoints(actions, cfg);
    SoundIsHealthy(After(actions, cfg));
  }

  // ---- leases past their expiry ------------------------------------------------------------

  predicate LongOverdue(t: Task, now: int, grace: int) {
    t.status == Leased && t.leaseExpires.Some? && now - t.leaseExpires.value > grace * SECOND
  }

  /** A lease more than the grace period past its expiry. */
  ghost predicate StuckLease(db: Db, now: int, grace: int) {
    exists t :: t in db.tasks && LongOverdue(db.tasks[t], now, grace)
  }

  /** What the diagnostic reports after leases were reclaimed at some moment: exactly the leases that
      have run out since, more than the grace period ago. */
  lemma StuckLeaseExactlyWhen(db: Db, at: int, now: int, grace: int)
    requires LeaseSound(db)
    ensures StuckLease(ExpireLeases(db, at), now, grace) <==>
      exists t :: t in db.tasks && LongOverdue(db.tasks[t], now, grace) && db.tasks[t].leaseExpires.value >= at
  {
    var n := ExpireLeases(db, at);
    if t :| t in db.tasks && LongOverdue(db.tasks[t], now, grace) && db.tasks[t].leaseExpires.value >= at {
      assert LongOverdue(n.tasks[t], now, grace);
    }
    if t :| t in n.tasks && LongOverdue(n.tasks[t], now, grace) {
      assert LongOverdue(db.tasks[t], now, grace) && db.tasks[t].leaseExpires.value >= at;
    }
  }

  /** No live lease runs out before this moment. */
  ghost predicate LeasesLast(db: Db, at: int) {
    forall t :: t in db.tasks && db.tasks[t].status == Leased && db.tasks[t].leaseExpires.Some? ==> db.tasks[t].leaseExpires.value >= at
  }

  /** Leases given or extended from this moment on. */
  predicate OnTime(a: Action, at: int) {
    && (a.ClaimWork? ==> a.claim.now >= at && a.claim.lease >= 0)
    && (a.Beat? ==> a.now >= at && a.lease >= 0)
  }

  lemma ExpireLasts(db: Db, at: int)
    ensures LeasesLast(ExpireLeases(db, at), at)
  {
  }

  lemma TaskActionLasts(s: Sys, a: Action, cfg: Config, at: int)
    requires LeasesLast(s.w.db, at) && OnTime(a, at) && OnTasks(a) && !a.StepClose? && !a.ClaimWork?
    ensures LeasesLast(Apply(s, a, cfg).w.db, at)
  {
    hide GateVerdict, Expected, ArtifactOf, Further;
  }

  lemma ClaimLasts(db: Db, c: Claim, at: int)
    requires LeasesLast(db, at) && c.now >= at && c.lease >= 0
    ensures LeasesLast(ClaimTask(db, c), at)
  {
    hide Picked, Trained, HoldsSome;
  }

  lemma CloseLasts(s: Sys, p: nat, c: Choice, cfg: Config, at: int)
    requires LeasesLast(s.w.db, at)
    ensures LeasesLast(DoStepClose(s, p, c, cfg).w.db, at)
  {
    hide Step, IsQueryOrder, NoneCloses;
    if p in s.closers && CanStep(s.w, s.closers[p], c) {
      StepEffect(s.w, s.closers[p], c, cfg);
    }
  }

  lemma ActionLasts(s: Sys, a: Action, cfg: Config, at: int)
    requires LeasesLast(s.w.db, at) && OnTime(a, at)
    ensures LeasesLast(Apply(s, a, cfg).w.db, at)
  {
    hide LeasesLast, DoStepClose, ClaimTask, OnTasks;
    if a.StepClose? {
      CloseLasts(s, a.p, a.choice, cfg, at);
    } else if a.ClaimWork? {
      ClaimLasts(s.w.db, a.claim, at);
    } else if OnTasks(a) {
      TaskActionLasts(s, a, cfg, at);
    } else {
      hide Apply;
      OtherActionFrame(s, a, cfg);
      SameTasksLast(s.w.db, Apply(s, a, cfg).w.db, at);
    }
  }

  lemma SameTasksLast(db: Db, n: Db, at: int)
    requires LeasesLast(db, at) && n.tasks == db.tasks
    ensures LeasesLast(n, at)
  {
  }

  lemma {:induction false} LeasesLastOnward(s: Sys, more: seq<Action>, cfg: Config, at: int)
    requires LeasesLast(s.w.db, at) && forall i :: 0 <= i < |more| ==> OnTime(more[i], at)
    ensures LeasesLast(Onward(s, more, cfg).w.db, at)
  {
    hide Apply, LeasesLast;
    if more != [] {
      LeasesLastOnward(s, more[..|more| - 1], cfg, at);
      ActionLasts(Onward(s, more[..|more| - 1], cfg), more[|more| - 1], cfg, at);
    }
  }

  /** Whatever happens after leases were reclaimed, no lease is reported as stuck until the grace
      period has passed without their being reclaimed again. */
  lemma {:induction false} ReclaimedLeasesAreNotStuck(s: Sys, at: int, more: seq<Action>, cfg: Config, now: int, grace: int)
    requires (forall i :: 0 <= i < |more| ==> OnTime(more[i], at)) && now <= at + grace * SECOND
    ensures !StuckLease(Onward(Apply(s, Expire(at), cfg), more, cfg).w.db, now, grace)
  {
    hide Apply, ExpireLeases;
    ExpireLasts(s.w.db, at);
    assert Apply(s, Expire(at), cfg).w.db == ExpireLeases(s.w.db, at) by { ApplyExpire(s, at, cfg); }
    LeasesLastOnward(Apply(s, Expire(at), cfg), more, cfg, at);
  }

  lemma ApplyExpire(s: Sys, at: int, cfg: Config)
    ensures Apply(s, Expire(at), cfg).w.db == ExpireLeases(s.w.db, at)
  {
  }

  // ---- rounds being closed for long ----------------------------------------------------------

  /** A round being closed that was opened more than the grace period ago. */
  ghost predicate StuckClose(db: Db, id: RoundId, now: int, grace: int) {
    RoundIs(db, id, Closing) && Elapsed(db.rounds[id], now) > grace * SECOND
  }

  /** A wedged round is reported for ever, from the grace period after its opening on. */
  lemma {:induction false} WedgedIsReported(s: Sys, actions: seq<Action>, cfg: Config, id: RoundId, now: int, grace: int)
    requires Sound(s) && Wedged(s, id)
    ensures StuckClose(Onward(s, actions, cfg).w.db, id, now, grace) <==> now > s.w.db.rounds[id].openedAt + grace * SECOND
  {
    hide Sound, Onward;
    WedgedForEver(s, actions, cfg, id);
  }

  /** But so is a healthy close: the diagnostic goes by when the round was opened, not by how long it
      has been closing. A close that has only just been claimed is reported exactly when its round is
      older than the grace period, which it is whenever the close rule asked for it and both time
      bounds exceed the grace period. */
  lemma FreshCloseIsReportedExactlyWhen(s: Sys, p: nat, id: RoundId, now: int, grace: int)
    requires p !in s.closers && RoundIs(s.w.db, id, Open)
    ensures StuckClose(DoStartClose(s, p, id).w.db, id, now, grace) <==> Elapsed(s.w.db.rounds[id], now) > grace * SECOND
    ensures ShouldClose(s.w.db, id, now) && s.w.db.rounds[id].minSec > grace && s.w.db.rounds[id].maxSec > grace ==>
      StuckClose(DoStartClose(s, p, id).w.db, id, now, grace)
  {
    hide Counted, Progress;
  }
}
