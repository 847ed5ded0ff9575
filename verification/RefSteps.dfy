/** Every step of the system keeps references sound. */
module RefSteps {
  import opened Wrappers
  import opened Tensors
  import opened OuterStep
  import opened Contributions
  import opened ObjectKeys
  import opened Tables
  import opened Rounds
  import opened Closer
  import opened System
  import opened CloseSafety
  import opened LeaseSafety
  import opened RefSafety

  /** Workers upload before they submit, runs have a known combine mode, and seeds have a tensor. */
  ghost predicate TidyAction(s: Sys, a: Action) {
    && (a.PutSeed? ==> a.seed != map[])
    && (a.Upload? ==> a.task !in s.w.db.subs)
    && (a.AddRun? ==> KnownMode(a.row.mode))
  }

  ghost predicate AllSound(s: Sys, tidy: bool) {
    Sound(s) && WorkSound(s) && RefsSound(s, tidy)
  }

  // ---- steps over an unchanged store ---------------------------------------------------

  /** A step that moves no closer. */
  lemma ClosersWait(s: Sys, n: Sys, tidy: bool)
    requires RefsSound(s, tidy) && RowsStay(s.w.db, n.w.db) && NamesStay(s.w.db, n.w.db)
    requires n.w.store == s.w.store && n.doomed == s.doomed && n.creations.Keys <= s.creations.Keys && GatesOk(s, n)
    requires forall q :: q in n.closers ==> q in s.closers && n.closers[q] == s.closers[q]
    ensures RefsSound(n, tidy)
  {
    hide RoundsPart, RunsPart, SeedsPart, SubsPart, GatesPart, DoomedPart, RowsStay, NamesStay, PcRefs, GatesOk;
    if 0 in n.closers {
      PcRowsStay(s.w.db, n.w.db, s.w.store, s.closers[0], tidy);
    }
    QuietTables(s, n, 0, tidy);
  }

  ghost predicate QuietAction(a: Action) {
    a.Expire? || a.ClaimWork? || a.Beat? || a.GiveUp? || a.Submit? || a.Restart? || a.CrashClose? || a.GateCrash?
  }

  lemma SubsAreTasks(db: Db)
    requires LeaseSound(db)
    ensures db.subs.Keys <= db.tasks.Keys
  {
    forall t | t in db.subs ensures t in db.tasks {
      assert SubSound(db, t);
    }
  }

  lemma GatedAreTasks(s: Sys)
    requires WorkSound(s)
    ensures s.gates.Keys <= s.w.db.tasks.Keys
  {
    forall t | t in s.gates ensures t in s.w.db.tasks {
      assert GateSound(s, t);
    }
  }

  /** What references need of a step that only moves rows along. */
  ghost predicate QuietMove(s: Sys, n: Sys) {
    && RowsStay(s.w.db, n.w.db) && NamesStay(s.w.db, n.w.db)
    && n.w.store == s.w.store && n.doomed == s.doomed && n.creations == s.creations && GatesOk(s, n)
    && (forall q :: q in n.closers ==> q in s.closers && n.closers[q] == s.closers[q])
  }

  ghost predicate TasksKnown(s: Sys) {
    s.w.db.subs.Keys <= s.w.db.tasks.Keys && s.gates.Keys <= s.w.db.tasks.Keys
  }

  lemma ClaimFrame(s: Sys, c: Claim)
    requires TasksKnown(s)
    ensures QuietMove(s, WithDb(s, ClaimTask(s.w.db, c)))
  {
    hide Picked, Trained, HoldsSome, Workable;
  }

  lemma SubmitRows(db: Db, t: string, worker: string, steps: int, metrics: Metrics, now: int)
    requires RecordSubmission(db, t, worker, steps, metrics, now).Ok? && db.subs.Keys <= db.tasks.Keys
    ensures var n := RecordSubmission(db, t, worker, steps, metrics, now).value; RowsStay(db, n) && NamesStay(db, n) && t in n.tasks
  {
    hide ArtifactOf;
  }

  lemma SubmitFrame(s: Sys, t: string, worker: string, steps: int, metrics: Metrics, now: int)
    requires TasksKnown(s)
    ensures QuietMove(s, DoSubmit(s, t, worker, steps, metrics, now))
  {
    hide RecordSubmission;
    if RecordSubmission(s.w.db, t, worker, steps, metrics, now).Ok? {
      SubmitRows(s.w.db, t, worker, steps, metrics, now);
      SubmittedKeepsTasks(s.w.db, t, worker, steps, metrics, now);
      hide NamesStay;
    }
  }

  lemma SubmittedKeepsTasks(db: Db, t: string, worker: string, steps: int, metrics: Metrics, now: int)
    requires RecordSubmission(db, t, worker, steps, metrics, now).Ok?
    ensures RecordSubmission(db, t, worker, steps, metrics, now).value.tasks.Keys == db.tasks.Keys
  {
  }

  /** Tasks move along and nothing else does. */
  lemma MovedQuietly(s: Sys, n: Sys)
    requires TasksKnown(s) && TasksMove(s.w.db, n.w.db) && n.w.db.runs == s.w.db.runs && n.w.db.rounds == s.w.db.rounds
    requires n == s.(w := n.w) && n.w.store == s.w.store
    ensures QuietMove(s, n)
  {
    assert forall t :: t in s.w.db.tasks ==> TaskMoves(s.w.db.tasks[t], n.w.db.tasks[t]);
  }

  lemma RestartFrame(s: Sys, id: RoundId, now: int)
    requires TasksKnown(s)
    ensures QuietMove(s, WithDb(s, ReopenEmptyRound(s.w.db, id, now)))
  {
    hide Progress, Counted;
  }

  lemma DropFrame(s: Sys, a: Action, cfg: Config)
    requires (a.CrashClose? || a.GateCrash?) && TasksKnown(s)
    ensures QuietMove(s, Apply(s, a, cfg))
  {
  }

  lemma OtherQuietFrame(s: Sys, a: Action, cfg: Config)
    requires QuietAction(a) && !a.ClaimWork? && !a.Submit? && TasksKnown(s)
    ensures QuietMove(s, Apply(s, a, cfg))
  {
    hide QuietMove, TasksKnown, TasksMove, ExpireLeases, Abandon, Heartbeat, ReopenEmptyRound, ClosingEndsLeases;
    match a
    case Restart(id, now) => RestartFrame(s, id, now);
    case Expire(now) =>
      ExpireMoves(s.w.db, now);
      TaskActionFrame(s, a, cfg);
      MovedQuietly(s, Apply(s, a, cfg));
    case GiveUp(t, worker) =>
      AbandonMoves(s.w.db, t, worker);
      TaskActionFrame(s, a, cfg);
      MovedQuietly(s, Apply(s, a, cfg));
    case Beat(t, worker, steps, now, lease) =>
      TaskActionFrame(s, a, cfg);
      if Heartbeat(s.w.db, t, worker, steps, now, lease).Ok? {
        BeatMoves(s.w.db, t, worker, steps, now, lease);
        MovedQuietly(s, Apply(s, a, cfg));
      } else {
        NothingMoves(s);
      }
    case _ => DropFrame(s, a, cfg);
  }

  lemma NothingMoves(s: Sys)
    requires TasksKnown(s)
    ensures QuietMove(s, s)
  {
  }

  lemma QuietFrame(s: Sys, a: Action, cfg: Config)
    requires QuietAction(a) && TasksKnown(s)
    ensures QuietMove(s, Apply(s, a, cfg))
  {
    hide QuietMove, ClaimTask, DoSubmit;
    if a.ClaimWork? {
      ClaimFrame(s, a.claim);
    } else if a.Submit? {
      SubmitFrame(s, a.task, a.worker, a.steps, a.metrics, a.now);
    } else {
      OtherQuietFrame(s, a, cfg);
    }
  }

  lemma QuietKeeps(s: Sys, a: Action, cfg: Config, tidy: bool)
    requires AllSound(s, tidy) && QuietAction(a)
    ensures RefsSound(Apply(s, a, cfg), tidy)
  {
    hide RefsSound, Sound, Apply, RowsStay, NamesStay, GatesOk, LeaseSound, GateSound;
    SubsAreTasks(s.w.db);
    GatedAreTasks(s);
    QuietFrame(s, a, cfg);
    ClosersWait(s, Apply(s, a, cfg), tidy);
  }

  lemma StartCloseRefs(s: Sys, p: nat, id: RoundId, tidy: bool)
    requires AllSound(s, tidy)
    ensures RefsSound(DoStartClose(s, p, id), tidy)
  {
    hide RefsSound, Sound, LeaseSound, GateSound;
    SubsAreTasks(s.w.db);
    GatedAreTasks(s);
    var n := DoStartClose(s, p, id);
    if n != s { QuietTables(s, n, p, tidy); }
  }

  lemma FailCloseRefs(s: Sys, p: nat, tidy: bool)
    requires AllSound(s, tidy)
    ensures RefsSound(DoFailClose(s, p), tidy)
  {
    hide RefsSound, Sound, LeaseSound, GateSound;
    SubsAreTasks(s.w.db);
    GatedAreTasks(s);
    var n := DoFailClose(s, p);
    if n != s { QuietTables(s, n, p, tidy); }
  }

  // ---- gating ----------------------------------------------------------------------------

  lemma ExpectedIsSeed(s: Sys, t: string)
    requires AllSound(s, true) && t in s.w.db.tasks && Expected(s.w, t).Some?
    ensures var run := s.w.db.tasks[t].round.run; HasSeed(s.w.store, run) && Expected(s.w, t).value == ManifestOf(SeedOf(s.w.store, run))
  {
    hide LeaseSound, GatesPart, ClosersPart, SubsPart, ClosersSound;
    assert RoundSound(s.w.db, s.w.db.tasks[t].round);
    assert RoundRefs(s.w.db, s.w.store, s.w.db.tasks[t].round, true);
  }

  lemma AcceptedIsGood(s: Sys, t: string, io: bool)
    requires AllSound(s, true) && t in s.w.db.tasks && t in s.w.db.subs && Expected(s.w, t).Some?
    requires GateVerdict(s.w, t, Expected(s.w, t).value, io).Accepted?
    ensures GoodArtifact(s.w.store, s.w.db.tasks[t].round.run, ArtifactOf(s.w.db, t))
  {
    hide RefsSound, Sound, CheckStructural, Expected, PlausibleSteps, Usable, OneLease;
    ExpectedIsSeed(s, t);
    assert SubSound(s.w.db, t);
    var sub := s.w.db.subs[t];
    GateIsExact(s.w.store[sub.artifact], Expected(s.w, t).value, sub.steps, s.w.db.tasks[t].heartbeat);
  }

  lemma GateReadRefs(s: Sys, t: string, io: bool, tidy: bool)
    requires AllSound(s, tidy)
    ensures RefsSound(DoGateRead(s, t, io), tidy)
  {
    hide Sound, WorkSound, RoundsPart, RunsPart, SubsPart, PcRefs, GateVerdict, Expected, GoodArtifact;
    var n := DoGateRead(s, t, io);
    if n != s && tidy {
      forall u | u in n.gates ensures GateRefs(n, u) {
        if u != t {
          assert GateRefs(s, u);
        } else if n.gates[t] == Decided(true) {
          AcceptedIsGood(s, t, io);
        }
      }
    }
    ClosersSame(s, n, tidy);
  }

  lemma ClosersSame(s: Sys, n: Sys, tidy: bool)
    requires ClosersPart(s, tidy) && n.w == s.w && n.closers == s.closers
    ensures ClosersPart(n, tidy)
  {
    hide PcRefs;
  }

  /** The step from a verdict to the row. */
  lemma VerdictRefs(s: Sys, n: Sys, t: string, accepted: bool, tidy: bool)
    requires RefsSound(s, tidy) && n.w.store == s.w.store && n.w.db == RecordVerdict(s.w.db, t, accepted)
    requires n.doomed == s.doomed && n.creations == s.creations && n.closers == s.closers
    requires forall u :: u in n.gates ==> u in s.gates && n.gates[u] == s.gates[u]
    requires tidy && accepted && t in s.w.db.tasks ==> GoodArtifact(s.w.store, s.w.db.tasks[t].round.run, ArtifactOf(s.w.db, t))
    ensures RefsSound(n, tidy)
  {
    hide GoodArtifact, GoodBase, StoredMomentumGood, PcRefs;
    VerdictRoundsRuns(s.w.db, s.w.store, t, accepted, tidy);
    if tidy {
      forall u | u in n.w.db.subs ensures SubRefs(n.w.db, n.w.store, u) {
        assert SubRefs(s.w.db, s.w.store, u);
      }
      forall u | u in n.gates ensures GateRefs(n, u) {
        assert GateRefs(s, u);
      }
    }
    forall p | p in n.closers ensures PcRefs(n.w.db, n.w.store, n.closers[p], tidy) {
      VerdictPc(s.w.db, s.w.store, t, accepted, s.closers[p], tidy);
    }
  }

  lemma VerdictRoundsRuns(db: Db, store: Store, t: string, accepted: bool, tidy: bool)
    requires RoundsPart(db, store, tidy) && RunsPart(db, store, tidy)
    ensures RoundsPart(RecordVerdict(db, t, accepted), store, tidy) && RunsPart(RecordVerdict(db, t, accepted), store, tidy)
  {
    hide RoundsPart, RunsPart;
    NamesKeep(db, RecordVerdict(db, t, accepted), store, tidy);
  }

  lemma VerdictPc(db: Db, store: Store, t: string, accepted: bool, pc: Pc, tidy: bool)
    requires PcRefs(db, store, pc, tidy)
    ensures PcRefs(RecordVerdict(db, t, accepted), store, pc, tidy)
  {
    hide GoodArtifact, GoodWork, GoodBase, HasBase, GoodAdapter;
    if tidy && (pc.Loading? || pc.Fetching?) {
      forall i | 0 <= i < |pc.todo| ensures EntryGood(RecordVerdict(db, t, accepted), store, pc.job.id.run, pc.todo[i]) {
        assert EntryGood(db, store, pc.job.id.run, pc.todo[i]);
      }
    }
  }

  lemma GateWriteRefs(s: Sys, t: string, tidy: bool)
    requires AllSound(s, tidy)
    ensures RefsSound(DoGateWrite(s, t), tidy)
  {
    hide Sound, WorkSound, RoundsPart, RunsPart, SubsPart, PcRefs, GoodArtifact, ClosersPart, DoomedPart, SeedsPart, RecordVerdict;
    if t in s.gates && s.gates[t].Decided? {
      if tidy { assert GateRefs(s, t); }
      VerdictRefs(s, DoGateWrite(s, t), t, s.gates[t].accepted, tidy);
    }
  }

  // ---- creating runs -------------------------------------------------------------------------

  lemma AddRunRefs(s: Sys, run: string, row: Run, tidy: bool)
    requires AllSound(s, tidy) && (tidy ==> KnownMode(row.mode))
    ensures RefsSound(DoAddRun(s, run, row), tidy)
  {
    hide Sound, GoodBase, StoredMomentumGood, GoodArtifact, PcRefs, LeaseSound, GateSound;
    SubsAreTasks(s.w.db);
    GatedAreTasks(s);
    var n := DoAddRun(s, run, row);
    if n != s {
      forall id | id in n.w.db.rounds ensures RoundRefs(n.w.db, n.w.store, id, tidy) {
        assert RoundRefs(s.w.db, s.w.store, id, tidy);
      }
      forall r | r in n.w.db.runs ensures RunRefs(n.w.db, n.w.store, r, tidy) {
        if r != run { assert RunRefs(s.w.db, s.w.store, r, tidy); }
      }
      if 0 in n.closers { PcRowsStay(s.w.db, n.w.db, s.w.store, s.closers[0], tidy); }
      TablesMove(s, n, 0, tidy);
    }
  }

  lemma OpenNames(db: Db, store: Store, id: RoundId, base: Key, timing: Timing, now: int, tidy: bool)
    requires RoundsPart(db, store, tidy) && RunsPart(db, store, tidy) && GoodBase(store, id.run, id.idx, tidy)
    requires OpenRound(db, id, base, timing, now).Ok?
    ensures var n := OpenRound(db, id, base, timing, now).value; RoundsPart(n, store, tidy) && RunsPart(n, store, tidy)
  {
    hide GoodBase, StoredMomentumGood;
    var n := OpenRound(db, id, base, timing, now).value;
    forall o | o in n.rounds ensures RoundRefs(n, store, o, tidy) {
      if o in db.rounds { assert RoundRefs(db, store, o, tidy); }
    }
    forall r | r in n.runs ensures RunRefs(n, store, r, tidy) {
      assert RunRefs(db, store, r, tidy);
    }
  }

  lemma OpenRows(db: Db, id: RoundId, base: Key, timing: Timing, now: int)
    requires OpenRound(db, id, base, timing, now).Ok? && db.subs.Keys <= db.tasks.Keys
    ensures RowsStay(db, OpenRound(db, id, base, timing, now).value)
  {
  }

  lemma OpenFirstRefs(s: Sys, run: string, timing: Timing, now: int, tidy: bool)
    requires AllSound(s, tidy)
    ensures RefsSound(DoOpenFirst(s, run, timing, now), tidy)
  {
    hide Sound, GoodBase, RoundsPart, RunsPart, SubsPart, GatesPart, DoomedPart, PcRefs, LeaseSound, GateSound, RowsStay;
    SubsAreTasks(s.w.db);
    GatedAreTasks(s);
    var n := DoOpenFirst(s, run, timing, now);
    if n.w != s.w {
      var id := RoundId(run, 0);
      OpenNames(s.w.db, s.w.store, id, BaseKey(run, 0), timing, now, tidy);
      OpenRows(s.w.db, id, BaseKey(run, 0), timing, now);
      if 0 in n.closers { PcRowsStay(s.w.db, n.w.db, s.w.store, s.closers[0], tidy); }
      TablesMove(s, n, 0, tidy);
    } else {
      ClosersSame(s, n, tidy);
      if tidy { GatesSame(s, n); }
      DoomedStay(s, n);
    }
  }

  // ---- submissions come and go in the store -----------------------------------------------------

  /** The store changes at one submission key only, and not under a submission on record. */
  ghost predicate SubmissionWrite(s: Sys, n: Sys, k: Key, tidy: bool) {
    && k.SubmissionKey? && n.w.db == s.w.db && n.creations == s.creations && n.gates == s.gates && n.closers == s.closers
    && (forall key :: key != k ==> SameAt(s.w.store, n.w.store, key))
    && (tidy && k in n.w.store ==> k.task !in s.w.db.subs)
  }

  lemma SubmissionPc(s: Sys, n: Sys, k: Key, p: nat, tidy: bool)
    requires SubmissionWrite(s, n, k, tidy) && p in s.closers && PcRefs(s.w.db, s.w.store, s.closers[p], tidy)
    ensures PcRefs(n.w.db, n.w.store, n.closers[p], tidy)
  {
    hide GoodArtifact, GoodWork, GoodBase, HasBase, GoodAdapter, StoredMomentumGood, SameAt, KeptGood, PendingGood, GoodMomentum;
    var pc := s.closers[p];
    if pc.Loading? || pc.Fetching? || pc.Judging? || pc.Combining? {
      if tidy {
        forall i | 0 <= i < |TodoOf(pc)| && TodoOf(pc)[i].artifact in n.w.store
          ensures SameAt(s.w.store, n.w.store, TodoOf(pc)[i].artifact)
        {
          assert EntryGood(s.w.db, s.w.store, pc.job.id.run, TodoOf(pc)[i]);
        }
      }
      EarlyPcFollows(s.w.db, s.w.store, n.w.store, pc, tidy);
    } else if HasJob(pc) {
      LatePcFollows(s.w.db, s.w.store, n.w.store, pc, tidy);
    }
  }

  lemma SubmissionNames(s: Sys, n: Sys, k: Key, tidy: bool)
    requires SubmissionWrite(s, n, k, tidy) && RoundsPart(s.w.db, s.w.store, tidy) && RunsPart(s.w.db, s.w.store, tidy)
    ensures RoundsPart(n.w.db, n.w.store, tidy) && RunsPart(n.w.db, n.w.store, tidy)
  {
    hide GoodBase, SameAt, StoredMomentumGood;
    forall id | id in n.w.db.rounds ensures RoundRefs(n.w.db, n.w.store, id, tidy) {
      assert RoundRefs(s.w.db, s.w.store, id, tidy);
      BaseFollows(s.w.store, n.w.store, id.run, id.idx, tidy);
      if n.w.db.rounds[id].result.Some? { BaseFollows(s.w.store, n.w.store, id.run, id.idx + 1, tidy); }
    }
    forall run | run in n.w.db.runs ensures RunRefs(n.w.db, n.w.store, run, tidy) {
      assert RunRefs(s.w.db, s.w.store, run, tidy);
      if n.w.db.runs[run].momentum.Some? { MomentumFollows(s.w.store, n.w.store, run, tidy); }
    }
  }

  lemma SubmissionRows(s: Sys, n: Sys, k: Key)
    requires SubmissionWrite(s, n, k, true) && SubsPart(s.w.db, s.w.store) && GatesPart(s) && WorkSound(s)
    ensures SubsPart(n.w.db, n.w.store) && GatesPart(n)
  {
    hide GoodArtifact, SameAt, LeaseSound;
    forall t | t in n.w.db.subs ensures SubRefs(n.w.db, n.w.store, t) {
      assert SubRefs(s.w.db, s.w.store, t);
      if n.w.db.subs[t].accepted == Some(true) {
        ArtifactFollows(s.w.store, n.w.store, s.w.db.tasks[t].round.run, ArtifactOf(s.w.db, t));
      }
    }
    forall t | t in n.gates ensures GateRefs(n, t) {
      assert GateRefs(s, t) && GateSound(s, t);
      if n.gates[t] == Decided(true) {
        ArtifactFollows(s.w.store, n.w.store, s.w.db.tasks[t].round.run, ArtifactOf(s.w.db, t));
      }
    }
  }

  lemma SubmissionWriteRefs(s: Sys, n: Sys, k: Key, tidy: bool)
    requires AllSound(s, tidy) && SubmissionWrite(s, n, k, tidy) && n.doomed <= s.doomed
    ensures RefsSound(n, tidy)
  {
    hide Sound, WorkSound, RoundsPart, RunsPart, SubsPart, GatesPart, PcRefs, GoodBase, SameAt;
    SubmissionNames(s, n, k, tidy);
    if tidy { SubmissionRows(s, n, k); }
    forall run | run in n.creations ensures GoodBase(n.w.store, run, 0, tidy) {
      BaseFollows(s.w.store, n.w.store, run, 0, tidy);
    }
    forall p | p in n.closers ensures PcRefs(n.w.db, n.w.store, n.closers[p], tidy) {
      SubmissionPc(s, n, k, p, tidy);
    }
  }

  lemma UploadRefs(s: Sys, t: string, blob: Blob, tidy: bool)
    requires AllSound(s, tidy) && (tidy ==> t !in s.w.db.subs)
    ensures RefsSound(DoUpload(s, t, blob), tidy)
  {
    hide Sound, WorkSound, RefsSound;
    if t in s.w.db.tasks {
      SubmissionWriteRefs(s, DoUpload(s, t, blob), ArtifactOf(s.w.db, t), tidy);
    }
  }

  lemma DeleteRefs(s: Sys, key: Key, tidy: bool)
    requires AllSound(s, tidy)
    ensures RefsSound(DoDelete(s, key), tidy)
  {
    hide Sound, WorkSound, RoundsPart, RunsPart, SubsPart, GatesPart, ClosersPart, SeedsPart;
    if key in s.doomed {
      assert DoomedRefs(s.w.db, key);
      SubmissionWriteRefs(s, DoDelete(s, key), key, tidy);
    }
  }

  lemma PlanGcRefs(s: Sys, run: string, keep: nat, tidy: bool)
    requires AllSound(s, tidy)
    ensures RefsSound(s.(doomed := s.doomed + GcCandidates(s.w, run, keep)), tidy)
  {
    hide Sound, WorkSound, RoundsPart, RunsPart, SubsPart, PcRefs, GateRefs, Protected;
    var n := s.(doomed := s.doomed + GcCandidates(s.w, run, keep));
    forall k | k in n.doomed ensures DoomedRefs(n.w.db, k) {
      if k in s.doomed {
        assert DoomedRefs(s.w.db, k);
      } else {
        StaleIsClosed(s.w.db, run, keep, k.idx);
      }
    }
    ClosersSame(s, n, tidy);
    if tidy { GatesSame(s, n); }
  }

  lemma GatesSame(s: Sys, n: Sys)
    requires GatesPart(s) && n.w == s.w && n.gates == s.gates
    ensures GatesPart(n)
  {
    forall t | t in n.gates ensures GateRefs(n, t) {
      assert GateRefs(s, t);
    }
  }

  lemma StaleIsClosed(db: Db, run: string, keep: nat, idx: nat)
    requires idx in Stale(db, run, keep)
    ensures RoundIs(db, RoundId(run, idx), Closed)
  {
  }
}
