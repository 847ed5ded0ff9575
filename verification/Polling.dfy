/** Evaluating the close rule on a poll: what it closes, what that publishes, and what it leaves. */
module Polling {
  import opened Wrappers
  import opened Tensors
  import opened NormGate
  import opened OuterStep
  import opened Contributions
  import opened ObjectKeys
  import opened Tables
  import opened Rounds
  import opened Closer
  import opened System
  import opened CloseRun
  import opened Leftovers
  import opened Attempts
  import opened Retry

  // ---- one poll -----------------------------------------------------------------------------

  /** A poll that nothing disturbs: close if the rule says so, else restart an empty round. */
  ghost function MaybeClose(w: World, run: string, c: Choice, cfg: Config): World {
    if !RunActive(w.db, run) then w
    else
      var id := CurrentId(w.db, run);
      if ShouldClose(w.db, id, c.now) then CloseAll(w, id, c, cfg)
      else w.(db := ReopenEmptyRound(w.db, id, c.now))
  }

  /** Whether the poll raises: its close does. */
  ghost predicate PollRaises(w: World, run: string, c: Choice, cfg: Config) {
    RunActive(w.db, run) && ShouldClose(w.db, CurrentId(w.db, run), c.now) && CloseRaises(w, CurrentId(w.db, run), c, cfg)
  }

  /** Past its backstop and still open. */
  predicate OverdueRound(db: Db, id: RoundId, now: int) {
    RoundIs(db, id, Open) && Elapsed(db.rounds[id], now) >= db.rounds[id].maxSec * SECOND
  }

  lemma NothingCounted(subs: map<string, Submission>)
    ensures StepsOf(subs, {}) == 0
  {
  }

  /** A close needs counted work, and the smaller of the two time bounds to have passed. */
  lemma CloseNeedsWork(db: Db, id: RoundId, now: int)
    requires ShouldClose(db, id, now) && db.rounds[id].targetSteps >= 1
    ensures Counted(db, id) != {}
    ensures Elapsed(db.rounds[id], now) >= db.rounds[id].minSec * SECOND || Elapsed(db.rounds[id], now) >= db.rounds[id].maxSec * SECOND
  {
    NothingCounted(db.subs);
  }

  /** An overdue round is either closed or restarted, never left: it closes if it has counted
      work, and if it has none its clock starts again. */
  lemma OverdueIsHandled(db: Db, id: RoundId, now: int)
    requires OverdueRound(db, id, now) && db.rounds[id].targetSteps >= 1
    ensures ShouldClose(db, id, now) <==> Counted(db, id) != {}
    ensures ShouldRestart(db, id, now) <==> Counted(db, id) == {}
  {
  }

  lemma RestartBeatsBackstop(db: Db, id: RoundId, now: int)
    requires ShouldRestart(db, id, now) && db.rounds[id].maxSec > 0
    ensures !OverdueRound(ReopenEmptyRound(db, id, now), id, now)
  {
  }

  /** Whether a poll leaves its round overdue: exactly when the round was overdue, had counted work,
      and its close has not what it needs. */
  lemma OverdueSurvivesExactlyWhen(w: World, run: string, c: Choice, cfg: Config)
    requires RunActive(w.db, run) && CurrentId(w.db, run) in w.db.rounds && IsQueryOrder(w.db, CurrentId(w.db, run), c.order) && c.io
    requires var r := w.db.rounds[CurrentId(w.db, run)]; r.targetSteps >= 1 && r.maxSec > 0
    ensures AllAccepted(w.db, c.order)
    ensures var id := CurrentId(w.db, run);
      OverdueRound(MaybeClose(w, run, c, cfg).db, id, c.now) <==>
        OverdueRound(w.db, id, c.now) && Counted(w.db, id) != {} && !CanClose(w, id, c.order, cfg)
  {
    hide Counted, Progress, IsQueryOrder, CloseAll, CanClose;
    var id := CurrentId(w.db, run);
    QueryAccepted(w.db, id, c.order);
    if OverdueRound(w.db, id, c.now) { OverdueIsHandled(w.db, id, c.now); }
    if ShouldClose(w.db, id, c.now) {
      GoesThroughExactlyWhen(w, id, c, cfg);
      CloseNeedsWork(w.db, id, c.now);
    } else if ShouldRestart(w.db, id, c.now) {
      RestartBeatsBackstop(w.db, id, c.now);
    }
  }

  // ---- what a close publishes --------------------------------------------------------------------

  /** An accepted submission whose artifact still loads and which gate 4 does not condemn among
      those that do. */
  ghost predicate Passes(w: World, order: seq<string>, cfg: Config, t: string)
    requires AllAccepted(w.db, order)
  {
    var cohort := Cohort(w, order);
    exists i :: 0 <= i < |cohort| && cohort[i].task == t &&
      (|cohort| < 3 || (SharedNames(Adapters(Works(cohort))) && !Condemned(Adapters(Works(cohort)), cfg.norm, cfg.normK, i)))
  }

  /** Who passes is who survives. */
  lemma PassersSurvive(w: World, order: seq<string>, cfg: Config, t: string)
    requires AllAccepted(w.db, order) && Judgements(Cohort(w, order), cfg).Some?
    ensures Passes(w, order, cfg, t) <==> t in Tasks(Survivors(Cohort(w, order), cfg))
  {
    hide Condemned, SharedNames, Arrived, Works, Passed;
    var cohort := Cohort(w, order);
    var judged := Judgements(cohort, cfg).value;
    PassedMembers(judged);
    if Passes(w, order, cfg, t) {
      var i :| 0 <= i < |cohort| && cohort[i].task == t &&
        (|cohort| < 3 || (SharedNames(Adapters(Works(cohort))) && !Condemned(Adapters(Works(cohort)), cfg.norm, cfg.normK, i)));
      assert judged[i].verdict.Accepted? && judged[i].kept == cohort[i];
    }
    if t in Tasks(Survivors(cohort, cfg)) {
      var k :| k in Passed(judged) && k.task == t;
      var i: nat :| i < |judged| && judged[i].verdict.Accepted? && judged[i].kept == k;
      assert cohort[i].task == t;
    }
  }

  lemma {:induction false} PassedMembers(judged: seq<Judged>)
    ensures forall k :: k in Passed(judged) <==> exists i: nat :: i < |judged| && judged[i].verdict.Accepted? && judged[i].kept == k
  {
    if judged != [] {
      PassedMembers(Upto(judged));
      var n := |judged| - 1;
      assert forall i: nat :: i < n ==> Upto(judged)[i] == judged[i];
      forall k ensures k in Passed(judged) <==> exists i: nat :: i < |judged| && judged[i].verdict.Accepted? && judged[i].kept == k {
        if i: nat :| i < |judged| && judged[i].verdict.Accepted? && judged[i].kept == k {
          if i < n { assert Upto(judged)[i].kept == k; }
        }
        if k in Passed(Upto(judged)) {
          var i: nat :| i < n && Upto(judged)[i].verdict.Accepted? && Upto(judged)[i].kept == k;
          assert judged[i].kept == k;
        }
      }
    }
  }

  /** The metrics of a submission can be folded into the throughput estimates. */
  predicate Readable(w: World, t: string) {
    t in w.db.subs && !w.db.subs[t].metrics.Unreadable?
  }

  ghost predicate AllReadable(w: World, order: seq<string>, cfg: Config)
    requires AllAccepted(w.db, order)
  {
    forall t :: Passes(w, order, cfg, t) ==> Readable(w, t)
  }

  lemma CohortMetrics(w: World, order: seq<string>)
    requires AllAccepted(w.db, order)
    ensures forall k :: k in Cohort(w, order) ==> k.task in w.db.subs && k.metrics == w.db.subs[k.task].metrics
  {
    hide Fetch, Arrived;
    var todo := Entries(w.db, order);
    ArrivedTasks(w.store, todo);
    forall e | e in todo ensures e.task in w.db.subs && e.metrics == w.db.subs[e.task].metrics {
      var i :| 0 <= i < |todo| && todo[i] == e;
      assert order[i] in order;
    }
  }

  /** The fold goes through exactly when everybody who passes has readable metrics. */
  lemma FoldsExactlyWhen(w: World, id: RoundId, order: seq<string>, cfg: Config)
    requires AllAccepted(w.db, order) && IsQueryOrder(w.db, id, order) && Judgements(Cohort(w, order), cfg).Some?
    ensures Foldable(Rates(Survivors(Cohort(w, order), cfg))) <==> AllReadable(w, order, cfg)
    ensures Survivors(Cohort(w, order), cfg) != [] <==> exists t :: Passes(w, order, cfg, t)
  {
    hide Judgements, Cohort, Survivors, Sentenced, Passes, IsQueryOrder, StillOf;
    var cohort, kept := Cohort(w, order), Survivors(Cohort(w, order), cfg);
    CohortTasks(w, id, order);
    CohortMetrics(w, order);
    SurvivorsAreStill(cohort, cfg);
    StillMembers(cohort, Sentenced(cohort, cfg));
    forall t ensures Passes(w, order, cfg, t) <==> t in Tasks(kept) {
      PassersSurvive(w, order, cfg, t);
    }
    forall k | k in kept ensures Readable(w, k.task) <==> !k.metrics.Unreadable? {}
    RatesOf(kept);
    if kept != [] { assert kept[0] in kept && Passes(w, order, cfg, kept[0].task); }
  }

  lemma RatesOf(kept: seq<Kept>)
    ensures Foldable(Rates(kept)) <==> forall k :: k in kept ==> !k.metrics.Unreadable?
  {
    forall m | m in Rates(kept) ensures exists k :: k in kept && k.metrics == m {
      var i :| 0 <= i < |kept| && Rates(kept)[i] == m;
      assert kept[i] in kept;
    }
    forall k | k in kept ensures k.metrics in Rates(kept) {
      var i :| 0 <= i < |kept| && kept[i] == k;
      assert Rates(kept)[i] == k.metrics;
    }
  }

  /** What a result leads to: the next round is open on it, from now on and with this round's target and
      time bounds, or the run is done. */
  ghost predicate Continues(w: World, n: World, id: RoundId, now: int)
    requires id.run in w.db.runs && id in w.db.rounds
  {
    var next, round := RoundId(id.run, id.idx + 1), w.db.rounds[id];
    if next.idx < w.db.runs[id.run].target then
      && id.run in n.db.runs && CurrentId(n.db, id.run) == next && next in n.db.rounds
      && n.db.rounds[next] == Round(ResultKey(id), Open, round.targetSteps, round.minSec, round.maxSec, now, None)
    else id.run in n.db.runs && n.db.runs[id.run].status == Done
  }

  /** The close works from this row's target and time bounds. */
  ghost predicate SameBounds(job: Job, round: Round) {
    job.round.targetSteps == round.targetSteps && job.round.minSec == round.minSec && job.round.maxSec == round.maxSec
  }

  /** What unreadable metrics leave: the run where it was, and no next round. */
  ghost predicate StaysBehind(w: World, n: World, id: RoundId)
    requires id.run in w.db.runs
  {
    && id.run in n.db.runs && RoundId(id.run, id.idx + 1) !in n.db.rounds
    && n.db.runs[id.run] == w.db.runs[id.run].(momentum := n.db.runs[id.run].momentum)
  }

  lemma MovedOnContinues(w: World, job: Job, o: Outcome, now: int, store: Store)
    requires job.id in w.db.rounds && job.id.run in w.db.runs && RoundId(job.id.run, job.id.idx + 1) !in w.db.rounds
    requires job.run.target == w.db.runs[job.id.run].target && SameBounds(job, w.db.rounds[job.id])
    ensures var n := World(MovedOn(w.db, job, o, now), store);
      && RoundIs(n.db, job.id, Closed) && n.db.rounds[job.id].result == Some(ResultKey(job.id))
      && (Foldable(job.rates) ==> Continues(w, n, job.id, now))
      && (!Foldable(job.rates) ==> StaysBehind(w, n, job.id))
  {
    hide TimingOf, Foldable, Committed, Continues, StaysBehind;
    CommittedRows(w.db, job, o);
    AdvanceContinues(w, Committed(w.db, job, o), job, now, store);
  }

  lemma CommittedRows(db: Db, job: Job, o: Outcome)
    requires job.id in db.rounds && job.id.run in db.runs
    ensures var n := Committed(db, job, o);
      && RoundIs(n, job.id, Closed) && n.rounds[job.id].result == Some(ResultKey(job.id)) && n.rounds.Keys == db.rounds.Keys
      && job.id.run in n.runs && n.runs[job.id.run] == db.runs[job.id.run].(momentum := n.runs[job.id.run].momentum)
  {
    hide EndedWith;
  }

  lemma AdvanceContinues(w: World, closed: Db, job: Job, now: int, store: Store)
    requires RoundIs(closed, job.id, Closed) && RoundId(job.id.run, job.id.idx + 1) !in closed.rounds
    requires job.id.run in w.db.runs && job.run.target == w.db.runs[job.id.run].target
    requires job.id in w.db.rounds && SameBounds(job, w.db.rounds[job.id]) && job.id.run in closed.runs
    requires closed.runs[job.id.run] == w.db.runs[job.id.run].(momentum := closed.runs[job.id.run].momentum)
    ensures var n := World(AdvancedFrom(closed, job, now), store);
      && job.id in n.db.rounds && n.db.rounds[job.id] == closed.rounds[job.id]
      && (Foldable(job.rates) ==> Continues(w, n, job.id, now))
      && (!Foldable(job.rates) ==> StaysBehind(w, n, job.id))
  {
    hide Foldable;
  }

  /** The results of settling. */
  lemma SettlePublishes(w: World, job: Job, base: Adapter, kept: seq<Kept>, now: int, cfg: Config)
    requires job.id in w.db.rounds && job.id.run in w.db.runs && RoundId(job.id.run, job.id.idx + 1) !in w.db.rounds
    requires job.run.target == w.db.runs[job.id.run].target && SameBounds(job, w.db.rounds[job.id])
    requires kept == [] || CombineKept(w.store, job, base, kept, true, cfg).Some?
    ensures var n, id := Settle(w, job, base, kept, now, cfg), job.id;
      && id in n.db.rounds
      && (kept == [] ==> n.db.rounds[id].result.None? && n.db.runs == w.db.runs && n.store == w.store)
      && (kept != [] ==> n.db.rounds[id].result == Some(ResultKey(id)))
      && (kept != [] && Foldable(Rates(kept)) ==> Continues(w, n, id, now))
      && (kept != [] && !Foldable(Rates(kept)) ==> StaysBehind(w, n, id))
  {
    hide CombineKept, MovedOn, Foldable, Continues, StaysBehind;
    if kept != [] {
      var j, o := WithRates(job, kept), CombineKept(w.store, job, base, kept, true, cfg).value;
      MovedOnContinues(w, j, o, now, WithOutcome(w.store, j, o));
    }
  }

  lemma OtherRows(w: World, v: World, n: World, id: RoundId, now: int)
    requires id.run in w.db.runs && v.db.runs == w.db.runs && id in w.db.rounds && id in v.db.rounds
    requires v.db.rounds[id] == w.db.rounds[id].(status := v.db.rounds[id].status)
    ensures Continues(v, n, id, now) ==> Continues(w, n, id, now)
    ensures StaysBehind(v, n, id) ==> StaysBehind(w, n, id)
  {
  }

  /** What a close that goes through to its commit publishes. It has a result exactly when some accepted
      submission's artifact loads and gate 4 does not condemn it. If then everybody who passes has
      readable metrics, the next round opens on the result or the run is done; if not, the run stays
      behind at a closed round with a result. Without a result neither the runs nor the store change:
      the run still points at the round just closed. */
  lemma ClosePublishesExactlyWhen(w: World, id: RoundId, c: Choice, cfg: Config)
    requires RoundIs(w.db, id, Open) && id.run in w.db.runs && IsQueryOrder(w.db, id, c.order) && c.io
    requires RoundIs(CloseAll(w, id, c, cfg).db, id, Closed) && RoundId(id.run, id.idx + 1) !in w.db.rounds
    ensures AllAccepted(w.db, c.order)
    ensures var n := CloseAll(w, id, c, cfg);
      && (n.db.rounds[id].result.Some? <==> exists t :: Passes(w, c.order, cfg, t))
      && (n.db.rounds[id].result.Some? ==> n.db.rounds[id].result == Some(ResultKey(id)))
      && (n.db.rounds[id].result.Some? && AllReadable(w, c.order, cfg) ==> Continues(w, n, id, c.now))
      && (n.db.rounds[id].result.Some? && !AllReadable(w, c.order, cfg) ==> StaysBehind(w, n, id))
      && (n.db.rounds[id].result.None? ==> n.db.runs == w.db.runs && n.store == w.store)
  {
    hide IsQueryOrder, CloseAll, Judgements, Cohort, Passes, Survivors, Settle, Gone, Entries, Reject, CombineKept, Fetch, Sentenced,
      Foldable, AllReadable, Continues, StaysBehind, Rates;
    GoesThroughExactlyWhen(w, id, c, cfg);
    CloseAllIs(w, id, c, cfg);
    FoldsExactlyWhen(w, id, c.order, cfg);
    var base, cohort, gone, job := BaseOf(w, id).value, Cohort(w, c.order), Gone(w.store, Entries(w.db, c.order)), JobOf(w.db, id);
    RejectedTogether(w, id, base, cohort, gone, w.store, job, w.db.runs, c.now, cfg);
    RejectingMeans(w, id, gone, w.db.runs, w.store);
    RejectingMeans(w, id, gone + Sentenced(cohort, cfg), w.db.runs, w.store);
    RejectKeepsRuns(Claiming(w, id).db, gone + Sentenced(cohort, cfg));
    var v := World(Rejecting(w, id, gone + Sentenced(cohort, cfg)), w.store);
    SettlePublishes(v, job, base, Survivors(cohort, cfg), c.now, cfg);
    OtherRows(w, v, CloseAll(w, id, c, cfg), id, c.now);
  }

  /** The store after a close that publishes. */
  lemma ClosePuts(w: World, id: RoundId, c: Choice, cfg: Config)
    requires RoundIs(w.db, id, Open) && id.run in w.db.runs && IsQueryOrder(w.db, id, c.order) && c.io
    requires AllAccepted(w.db, c.order) && CanClose(w, id, c.order, cfg) && Survivors(Cohort(w, c.order), cfg) != []
    ensures var kept := Survivors(Cohort(w, c.order), cfg);
      var o := CombineKept(w.store, JobOf(w.db, id), BaseOf(w, id).value, kept, true, cfg);
      o.Some? && CloseAll(w, id, c, cfg).store == WithOutcome(w.store, WithRates(JobOf(w.db, id), kept), o.value)
  {
    hide IsQueryOrder, CloseAll, Judgements, Cohort, Survivors, MovedOn, Gone, Entries, Reject, CombineKept, Fetch, Sentenced;
    CloseAllIs(w, id, c, cfg);
    RejectedTogether(w, id, BaseOf(w, id).value, Cohort(w, c.order), Gone(w.store, Entries(w.db, c.order)), w.store, JobOf(w.db, id),
      w.db.runs, c.now, cfg);
    RejectKeepsRuns(Claiming(w, id).db, Gone(w.store, Entries(w.db, c.order)));
    RejectKeepsRuns(Claiming(w, id).db, Gone(w.store, Entries(w.db, c.order)) + Sentenced(Cohort(w, c.order), cfg));
  }

  lemma SettleRaisesExactlyWhen(w: World, job: Job, base: Adapter, kept: seq<Kept>, now: int, cfg: Config)
    requires job.id in w.db.rounds && job.id.run in w.db.runs && RoundId(job.id.run, job.id.idx + 1) !in w.db.rounds
    ensures SettleRaises(w, job, base, kept, now, cfg) <==>
      kept != [] && (CombineKept(w.store, job, base, kept, true, cfg).None? || !Foldable(Rates(kept)))
  {
    hide CombineKept, EndedWith, TimingOf, Foldable, Rates;
  }

  /** A close raises exactly when it has not what it needs, or somebody who passes has metrics that
      cannot be read. */
  lemma CloseRaisesExactlyWhen(w: World, id: RoundId, c: Choice, cfg: Config)
    requires RoundIs(w.db, id, Open) && id.run in w.db.runs && IsQueryOrder(w.db, id, c.order) && c.io
    requires RoundId(id.run, id.idx + 1) !in w.db.rounds
    ensures AllAccepted(w.db, c.order)
    ensures CloseRaises(w, id, c, cfg) <==> !CanClose(w, id, c.order, cfg) || !AllReadable(w, c.order, cfg)
  {
    hide IsQueryOrder, CloseRaises, Judgements, Cohort, Passes, Survivors, SettleRaises, Gone, Entries, Reject, CombineKept, Fetch, Sentenced,
      Foldable, AllReadable, Rates;
    QueryAccepted(w.db, id, c.order);
    CloseAllIs(w, id, c, cfg);
    var cohort, gone, job := Cohort(w, c.order), Gone(w.store, Entries(w.db, c.order)), JobOf(w.db, id);
    RejectingMeans(w, id, gone, w.db.runs, w.store);
    if BaseOf(w, id).Some? && Judgements(cohort, cfg).Some? {
      FoldsExactlyWhen(w, id, c.order, cfg);
      RejectMore(Claiming(w, id).db, gone, Sentenced(cohort, cfg));
      RejectKeepsRuns(Claiming(w, id).db, gone + Sentenced(cohort, cfg));
      JudgeRaisesMeans(w, id, job, BaseOf(w, id).value, cohort, gone, c.now, cfg);
      var v := World(Rejecting(w, id, gone + Sentenced(cohort, cfg)), w.store);
      SettleRaisesExactlyWhen(v, job, BaseOf(w, id).value, Survivors(cohort, cfg), c.now, cfg);
      if Survivors(cohort, cfg) == [] { NobodyUnreadable(w, c.order, cfg); }
    }
  }

  lemma NobodyUnreadable(w: World, order: seq<string>, cfg: Config)
    requires AllAccepted(w.db, order) && !(exists t :: Passes(w, order, cfg, t))
    ensures AllReadable(w, order, cfg)
  {
    hide Passes;
  }

  lemma JudgeRaisesMeans(w: World, id: RoundId, job: Job, base: Adapter, kept: seq<Kept>, ts: set<string>, now: int, cfg: Config)
    requires RoundIs(w.db, id, Open) && Judgements(kept, cfg).Some?
    ensures JudgeRaises(World(Rejecting(w, id, ts), w.store), job, base, kept, now, cfg)
         == SettleRaises(World(Rejecting(w, id, ts + Sentenced(kept, cfg)), w.store), job, base, Survivors(kept, cfg), now, cfg)
  {
    hide Judgements, SettleRaises;
    RejectMore(Claiming(w, id).db, ts, Sentenced(kept, cfg));
  }

  /** A close that finds nothing accepted commits without a result and touches nothing else: not the
      runs, not the store, not a verdict. */
  lemma NothingAcceptedNothingPublished(w: World, id: RoundId, c: Choice, cfg: Config)
    requires RoundIs(w.db, id, Open) && id.run in w.db.runs && c.order == [] && c.io && IsQueryOrder(w.db, id, [])
    requires Fetch(w.store, w.db.rounds[id].base).Some?
    ensures CloseAll(w, id, c, cfg) == w.(db := CommitClose(Claiming(w, id).db, id, None))
  {
    hide IsQueryOrder, CloseAll, Fetch, Reject, CommitClose;
    CloseAllIs(w, id, c, cfg);
    NobodyJudged(cfg);
    RejectNone(Claiming(w, id).db);
    assert Gone(w.store, Entries(w.db, [])) == {} && Failed([]) == {};
  }

  // ---- what the close rule counts that a close does not publish -----------------------------------

  /** Submissions of a round that have not been gated. */
  ghost function Ungated(db: Db, id: RoundId): set<string> {
    set t | t in db.subs && t in db.tasks && db.tasks[t].round == id && db.subs[t].accepted.None?
  }

  /** With nothing accepted the close rule goes by ungated work alone, which no close publishes. */
  lemma UngatedWorkCloses(db: Db, id: RoundId, now: int)
    requires IsQueryOrder(db, id, [])
    ensures ShouldClose(db, id, now) <==>
      && RoundIs(db, id, Open)
      && (var r := db.rounds[id];
          || (StepsOf(db.subs, Ungated(db, id)) >= r.targetSteps && Elapsed(r, now) >= r.minSec * SECOND)
          || (Elapsed(r, now) >= r.maxSec * SECOND && Ungated(db, id) != {}))
    ensures forall w: World, cfg, t :: w.db == db ==> !Passes(w, [], cfg, t)
  {
    hide StepsOf, IsQueryOrder, Ungated, Counted;
    CountedIsUngated(db, id, []);
  }

  lemma CountedIsUngated(db: Db, id: RoundId, order: seq<string>)
    requires IsQueryOrder(db, id, order) && order == []
    ensures Counted(db, id) == Ungated(db, id)
  {
    forall t | t in Counted(db, id) ensures t in Ungated(db, id) {
      assert t !in order;
      ThreeVerdicts(db.subs[t].accepted);
    }
  }

  lemma ThreeVerdicts(accepted: Option<bool>)
    ensures accepted.None? || accepted == Some(true) || accepted == Some(false)
  {
    match accepted
    case None =>
    case Some(b) => if b {} else {}
  }

  // ---- asking for work ---------------------------------------------------------------------------

  /** A request for work over its candidate runs, in order: poll the run, then ask it for a lease,
      and stop at the first run that has an answer or whose poll raises. None while there is none. */
  ghost function Asked(w: World, claims: seq<Claim>, orders: seq<seq<string>>, cfg: Config): (World, Option<Result<ClaimOutcome, Error>>)
    requires |orders| == |claims|
  {
    if claims == [] then (w, None)
    else
      var before := Asked(w, Upto(claims), Upto(orders), cfg);
      if before.1.Some? then before
      else
        var c := Last(claims);
        var choice := Choice(Last(orders), true, c.now);
        var polled := MaybeClose(before.0, c.run, choice, cfg);
        var answer := ClaimAnswer(polled.db, c);
        if PollRaises(before.0, c.run, choice, cfg) then (polled, Some(Err(CloseFailed)))
        else (polled.(db := ClaimTask(polled.db, c)), if GoesOn(answer) then None else Some(answer))
  }

  /** Nothing to hand out, or not to this worker: the next run is asked. */
  predicate GoesOn(answer: Result<ClaimOutcome, Error>) {
    answer == Ok(NoWork) || answer == Err(NotEligible)
  }

  /** Once a run has answered, the rest are not asked. */
  lemma {:induction false} AskedStops(w: World, claims: seq<Claim>, orders: seq<seq<string>>, n: nat, cfg: Config)
    requires |orders| == |claims| && n <= |claims| && Asked(w, claims[..n], orders[..n], cfg).1.Some?
    ensures Asked(w, claims, orders, cfg) == Asked(w, claims[..n], orders[..n], cfg)
    decreases |claims|
  {
    hide MaybeClose, ClaimAnswer, ClaimTask;
    if n == |claims| {
      assert claims[..n] == claims && orders[..n] == orders;
    } else {
      assert Upto(claims)[..n] == claims[..n] && Upto(orders)[..n] == orders[..n];
      AskedStops(w, Upto(claims), Upto(orders), n, cfg);
    }
  }

  lemma StepKeepsTasks(w: World, pc: Pc, c: Choice, cfg: Config)
    requires CanStep(w, pc, c)
    ensures Step(w, pc, c, cfg).0.db.tasks.Keys == w.db.tasks.Keys
  {
    hide CombineKept, Verdicts, IsQueryOrder, Entries, Fetch, SaveAdapter, Works, RecordVerdict, EndedWith;
    if pc.Fetching? || pc.Judging? {
      VerdictsKeepTasks(w.db);
    }
  }

  lemma VerdictsKeepTasks(db: Db)
    ensures forall t, accepted :: RecordVerdict(db, t, accepted).tasks == db.tasks
  {
  }

  lemma {:induction false} FinishKeepsTasks(w: World, pc: Pc, c: Choice, cfg: Config)
    ensures Finish(w, pc, c, cfg).0.db.tasks.Keys == w.db.tasks.Keys
    decreases StepsLeft(pc, |c.order|)
  {
    hide Step, IsQueryOrder;
    if !pc.Ended? && CanStep(w, pc, c) {
      StepGoesOn(w, pc, c, cfg);
      StepKeepsTasks(w, pc, c, cfg);
      FinishKeepsTasks(Step(w, pc, c, cfg).0, Step(w, pc, c, cfg).1, c, cfg);
    }
  }

  lemma PollKeepsTasks(w: World, run: string, c: Choice, cfg: Config)
    ensures MaybeClose(w, run, c, cfg).db.tasks.Keys == w.db.tasks.Keys
  {
    hide Finish, Progress, Counted;
    if RunActive(w.db, run) && RoundIs(w.db, CurrentId(w.db, run), Open) {
      FinishKeepsTasks(Claiming(w, CurrentId(w.db, run)), Claimed(CurrentId(w.db, run)), c, cfg);
    }
  }

  /** However many runs are asked, one request leases at most one fresh task, and exactly one when it
      says so. */
  lemma {:induction false} OneLeasePerRequest(w: World, claims: seq<Claim>, orders: seq<seq<string>>, cfg: Config)
    requires |orders| == |claims|
    ensures var n := Asked(w, claims, orders, cfg);
      if n.1 == Some(Ok(Fresh)) then exists c :: c in claims && c.task !in w.db.tasks && n.0.db.tasks.Keys == w.db.tasks.Keys + {c.task}
      else n.0.db.tasks.Keys == w.db.tasks.Keys
    decreases |claims|
  {
    hide MaybeClose, ClaimAnswer, ClaimTask;
    if claims != [] {
      OneLeasePerRequest(w, Upto(claims), Upto(orders), cfg);
      assert forall c :: c in Upto(claims) ==> c in claims;
      var before, c := Asked(w, Upto(claims), Upto(orders), cfg), Last(claims);
      assert c in claims;
      if before.1.None? {
        var choice := Choice(Last(orders), true, c.now);
        PollKeepsTasks(before.0, c.run, choice, cfg);
        ClaimAddsOne(MaybeClose(before.0, c.run, choice, cfg).db, c);
      }
    }
  }

  lemma ClaimAddsOne(db: Db, c: Claim)
    ensures if ClaimAnswer(db, c) == Ok(Fresh) then c.task !in db.tasks && ClaimTask(db, c).tasks.Keys == db.tasks.Keys + {c.task}
      else ClaimTask(db, c).tasks.Keys == db.tasks.Keys
  {
    hide Picked, Trained, HoldsSome;
  }
}
