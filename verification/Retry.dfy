/** Failing and retrying a close: exactly when the second attempt ends where an uninterrupted close
    would have. */
module Retry {
  import opened Wrappers
  import RealSeqs
  import opened Tensors
  import opened NormGate
  import opened OuterStep
  import opened Contributions
  import opened Momentum
  import opened ObjectKeys
  import opened Tables
  import opened Rounds
  import opened Closer
  import opened System
  import opened CloseRun
  import opened Leftovers
  import opened Attempts
  import opened RefSafety

  // ---- the reopened round ----------------------------------------------------------------

  lemma ReopenedRows(w: World, id: RoundId, turned: set<string>, runs: map<string, Run>)
    requires RoundIs(w.db, id, Open)
    ensures ReleaseClose(Rejecting(w, id, turned).(runs := runs), id) == Reject(w.db, turned).(runs := runs)
  {
    assert ReleaseClose(Rejecting(w, id, turned).(runs := runs), id).rounds == w.db.rounds;
  }

  /** What an attempt has put: at most the round's result and, in a run with momentum, the momentum. */
  lemma PutOnly(w: World, id: RoundId, order: seq<string>, turned: set<string>, io: bool, cfg: Config, now: World, pc: Pc)
    requires InPlace(w.db, id) && (forall t :: t in order ==> t in w.db.subs)
    requires Underway(w, id, order, turned, io, cfg, now, pc) && BeforeCommit(pc)
    ensures forall k :: k != ResultKey(id) && k != MomentumKey(id.run) ==> SameAt(w.store, now.store, k)
    ensures w.db.runs[id.run].beta == 0.0 ==> SameAt(w.store, now.store, MomentumKey(id.run)) && now.db.runs == w.db.runs
    ensures now.db.runs == w.db.runs || now.db.runs == NameMomentum(w.db, id.run).runs
  {
    hide Reject, Rejecting, CombineKept, InHand, SaveAdapter, Fetch;
    var base := BaseOf(w, id);
    if base.Some? { MomentumFollowsBeta(w.store, JobOf(w.db, id), base.value, InHand(w, order, turned), io, cfg); }
  }

  /** An attempt given up before its commit leaves leftovers and nothing else. */
  lemma ReopenedIsLeftover(w: World, id: RoundId, order: seq<string>, turned: set<string>, io: bool, cfg: Config, now: World, pc: Pc)
    requires InPlace(w.db, id) && (forall t :: t in order ==> t in w.db.subs)
    requires Underway(w, id, order, turned, io, cfg, now, pc) && BeforeCommit(pc)
    ensures Leftover(w, id, order, turned, Reopened(now, id))
  {
    hide Reject, Rejecting, Stage, HasNamed, SameAt, NameMomentum, ReleaseClose;
    PutOnly(w, id, order, turned, io, cfg, now, pc);
    ReopenedRows(w, id, turned, now.db.runs);
    RejectKeepsRuns(w.db, turned);
  }

  /** What the run's momentum is when a close starts. */
  ghost function MomentumAt(w: World, id: RoundId): Option<Adapter>
    requires id.run in w.db.runs
  {
    StoredMomentum(w.store, w.db.runs[id.run], true)
  }

  /** The attempt has put momentum under the key that the run's row names by now. */
  ghost predicate MomentumSeen(w: World, id: RoundId, pc: Pc)
    requires id.run in w.db.runs
  {
    && w.db.runs[id.run].beta != 0.0
    && ((pc.NamingMomentum? && w.db.runs[id.run].momentum.Some?) || (pc.Committing? && pc.result.Some?))
  }

  /** Which momentum the next attempt reads: the one the failed attempt put, once the run's row
      names it, and before that the one the failed attempt read. */
  lemma RetryReadsMomentum(w: World, id: RoundId, order: seq<string>, turned: set<string>, io: bool, cfg: Config, now: World, pc: Pc)
    requires InPlace(w.db, id) && (forall t :: t in order ==> t in w.db.subs)
    requires Underway(w, id, order, turned, io, cfg, now, pc) && BeforeCommit(pc)
    ensures id.run in Reopened(now, id).db.runs
    ensures MomentumSeen(w, id, pc) ==>
      Made(w, id, order, turned, io, cfg).Some? && MomentumAt(Reopened(now, id), id) == Made(w, id, order, turned, io, cfg).value.momentum
    ensures !MomentumSeen(w, id, pc) ==> MomentumAt(Reopened(now, id), id) == MomentumAt(w, id)
  {
    hide Reject, Rejecting, CombineKept, InHand, SaveAdapter, LoadAdapter;
    ReopenedRows(w, id, turned, now.db.runs);
    RejectKeepsRuns(w.db, turned);
    if Made(w, id, order, turned, io, cfg).Some? {
      MadeMomentum(w, id, order, turned, io, cfg);
    }
  }

  /** What an attempt puts as momentum loads again. */
  lemma MadeMomentum(w: World, id: RoundId, order: seq<string>, turned: set<string>, io: bool, cfg: Config)
    requires RoundIs(w.db, id, Open) && id.run in w.db.runs && forall t :: t in order ==> t in w.db.subs
    requires Made(w, id, order, turned, io, cfg).Some?
    ensures BaseOf(w, id).Some?
    ensures var m := Made(w, id, order, turned, io, cfg).value.momentum;
      && (m.Some? <==> w.db.runs[id.run].beta != 0.0)
      && (m.Some? ==> LoadAdapter(SaveAdapter(m.value)) == m && m.value.Keys == BaseOf(w, id).value.Keys)
  {
    hide InHand, Published, StoredMomentum, SaveAdapter, LoadAdapter;
    var job, base, held := JobOf(w.db, id), BaseOf(w, id).value, InHand(w, order, turned);
    MomentumFollowsBeta(w.store, job, base, held, io, cfg);
    if w.db.runs[id.run].beta != 0.0 {
      FetchedIsWellFormed(w.store, w.db.rounds[id].base);
      PublishedMomentum(base, Works(held), cfg.cap, job.run.mode, job.run.lr, job.run.beta, StoredMomentum(w.store, job.run, io));
    }
  }

  lemma FetchedIsWellFormed(store: Store, key: Key)
    ensures Fetch(store, key).Some? ==> WellFormedAdapter(Fetch(store, key).value)
  {
  }

  // ---- what it takes to publish the same --------------------------------------------------------

  /** Where an outer step starts from. */
  ghost function StartAt(w: World, id: RoundId, base: Adapter): Adapter
    requires id.run in w.db.runs
  {
    StartMomentum(base, w.db.runs[id.run].beta, MomentumAt(w, id))
  }

  /** The surviving work cannot tell the momentum found in v from the one found in w. */
  ghost predicate MomentumAgrees(w: World, v: World, id: RoundId, base: Adapter, kept: seq<Kept>, cfg: Config)
    requires id.run in w.db.runs && id.run in v.db.runs
  {
    w.db.runs[id.run].beta == 0.0 || WorkAgrees(base, Works(kept), cfg.cap, StartAt(w, id, base), StartAt(v, id, base))
  }

  lemma MomentumIdle(
    base: Adapter, work: seq<Contribution>, cap: Option<real>, mode: string, lr: real, a: Option<Adapter>, b: Option<Adapter>)
    ensures Published(base, work, cap, mode, lr, 0.0, a) == Published(base, work, cap, mode, lr, 0.0, b)
  {
  }

  lemma AgreesWithItself(base: Adapter, work: seq<Contribution>, cap: Option<real>, m: Adapter)
    requires SharesOf(work, cap).Some?
    ensures WorkAgrees(base, work, cap, m, m)
  {
    hide Adapters, WeightsOf;
  }

  /** A second combine publishes the same exactly when the momenta agree. */
  lemma SameCombineExactlyWhen(
    w: World, id: RoundId, order: seq<string>, turned: set<string>, io: bool, cfg: Config, now: World, pc: Pc, kept: seq<Kept>)
    requires InPlace(w.db, id) && (forall t :: t in order ==> t in w.db.subs) && BaseOf(w, id).Some?
    requires Underway(w, id, order, turned, io, cfg, now, pc) && BeforeCommit(pc)
    requires CombineKept(w.store, JobOf(w.db, id), BaseOf(w, id).value, kept, true, cfg).Some?
    ensures var v, base := Reopened(now, id), BaseOf(w, id).value;
      && RoundIs(v.db, id, Open) && id.run in v.db.runs
      && (CombineKept(v.store, JobOf(v.db, id), base, kept, true, cfg) == CombineKept(w.store, JobOf(w.db, id), base, kept, true, cfg)
          <==> MomentumAgrees(w, v, id, base, kept, cfg))
  {
    hide Underway, Reject, Leftover, InHand, Made, Published, StoredMomentum, WorkAgrees, SameAt, Fetch, StartMomentum;
    var v, base, run := Reopened(now, id), BaseOf(w, id).value, w.db.runs[id.run];
    ReopenedIsLeftover(w, id, order, turned, io, cfg, now, pc);
    JobsAgree(w, id, order, turned, v);
    RetryReadsMomentum(w, id, order, turned, io, cfg, now, pc);
    PublishedMeansShares(base, Works(kept), cfg.cap, run.mode, run.lr, run.beta, MomentumAt(w, id));
    FetchedIsWellFormed(w.store, w.db.rounds[id].base);
    if run.beta == 0.0 {
      MomentumIdle(base, Works(kept), cfg.cap, run.mode, run.lr, MomentumAt(w, id), MomentumAt(v, id));
    } else if MomentumSeen(w, id, pc) {
      MadeMomentum(w, id, order, turned, io, cfg);
      MomentumLoads(w, id);
      var m := MomentumAt(v, id).value;
      PublishedAgainExactlyWhen(base, Works(kept), cfg.cap, run.mode, run.lr, run.beta, MomentumAt(w, id), m);
      StartsFrom(base, run.beta, m);
    } else {
      AgreesWithItself(base, Works(kept), cfg.cap, StartAt(w, id, base));
    }
  }

  lemma StartsFrom(base: Adapter, beta: real, m: Adapter)
    requires beta != 0.0
    ensures StartMomentum(base, beta, Some(m)) == m
  {
  }

  lemma MomentumLoads(w: World, id: RoundId)
    requires id.run in w.db.runs
    ensures MomentumAt(w, id).Some? ==> WellFormedAdapter(MomentumAt(w, id).value)
  {
  }

  lemma PublishedMeansShares(
    base: Adapter, work: seq<Contribution>, cap: Option<real>, mode: string, lr: real, beta: real, momentum: Option<Adapter>)
    requires Published(base, work, cap, mode, lr, beta, momentum).Some?
    ensures SharesOf(work, cap).Some?
  {
  }

  // ---- exactly when a retry ends where it should ---------------------------------------------------

  /** What a close needs: a base that loads, a cohort gate 4 can judge and, if anybody survives gate
      4, work that combines. */
  ghost predicate CanClose(w: World, id: RoundId, order: seq<string>, cfg: Config)
    requires RoundIs(w.db, id, Open) && id.run in w.db.runs && forall t :: t in order ==> t in w.db.subs
  {
    && BaseOf(w, id).Some? && Judgements(Cohort(w, order), cfg).Some?
    && (var survivors := Survivors(Cohort(w, order), cfg);
        survivors == [] || CombineKept(w.store, JobOf(w.db, id), BaseOf(w, id).value, survivors, true, cfg).Some?)
  }

  /** An undisturbed close goes through exactly when it has what it needs; otherwise the round is
      open again, its row as it was. */
  lemma GoesThroughExactlyWhen(w: World, id: RoundId, c: Choice, cfg: Config)
    requires RoundIs(w.db, id, Open) && id.run in w.db.runs && IsQueryOrder(w.db, id, c.order) && c.io
    ensures AllAccepted(w.db, c.order)
    ensures RoundIs(CloseAll(w, id, c, cfg).db, id, Closed) <==> CanClose(w, id, c.order, cfg)
    ensures !CanClose(w, id, c.order, cfg) ==> CloseAll(w, id, c, cfg).db.rounds == w.db.rounds
  {
    hide Judgements, Gone, Entries, Cohort, IsQueryOrder, CloseAll, Settle, Reject, Fetch, Survivors, CombineKept, Sentenced;
    assert AllAccepted(w.db, c.order) by { QueryAccepted(w.db, id, c.order); }
    CloseAllIs(w, id, c, cfg);
    var gone, cohort, job := Gone(w.store, Entries(w.db, c.order)), Cohort(w, c.order), JobOf(w.db, id);
    RejectingMeans(w, id, gone, w.db.runs, w.store);
    if BaseOf(w, id).Some? && Judgements(cohort, cfg).Some? {
      RejectedTogether(w, id, BaseOf(w, id).value, cohort, gone, w.store, job, w.db.runs, c.now, cfg);
      var rejected := Rejecting(w, id, gone + Sentenced(cohort, cfg));
      RejectingMeans(w, id, gone + Sentenced(cohort, cfg), w.db.runs, w.store);
      SettleCloses(World(rejected, w.store), job, BaseOf(w, id).value, Survivors(cohort, cfg), c.now, cfg);
      SettleReleases(World(rejected, w.store), job, BaseOf(w, id).value, Survivors(cohort, cfg), c.now, cfg);
      ReopenedRows(w, id, gone + Sentenced(cohort, cfg), w.db.runs);
      RejectKeepsRuns(w.db, gone + Sentenced(cohort, cfg));
    }
    ReopenedRows(w, id, gone, w.db.runs);
    RejectKeepsRuns(w.db, gone);
  }

  lemma SettleReleases(w: World, job: Job, base: Adapter, kept: seq<Kept>, now: int, cfg: Config)
    ensures kept != [] && CombineKept(w.store, job, base, kept, true, cfg).None? ==>
      Settle(w, job, base, kept, now, cfg) == w.(db := ReleaseClose(w.db, job.id))
  {
    hide CombineKept;
  }

  lemma QueryAccepted(db: Db, id: RoundId, order: seq<string>)
    requires IsQueryOrder(db, id, order)
    ensures AllAccepted(db, order)
  {
  }

  /** The second close ends where the first would have: the same rows, the same objects. */
  ghost predicate EndsAlike(w: World, v: World, id: RoundId, c: Choice, cfg: Config) {
    CloseAll(v, id, Again(v.db, c), cfg) == CloseAll(w, id, c, cfg)
  }

  /** Gate 4 on what is left of the cohort agrees with gate 4 on all of it. */
  ghost predicate CohortAgrees(w: World, v: World, order: seq<string>, cfg: Config)
    requires AllAccepted(w.db, order) && AllAccepted(v.db, Still(v.db, order))
  {
    GateAgrees(Cohort(w, order), Cohort(v, Still(v.db, order)), cfg)
  }

  /** What was found in the store leads to the same result: it is untouched if nobody survives, and
      otherwise its momentum is one the survivors' work cannot tell from the original. */
  ghost predicate StoreAgrees(w: World, v: World, id: RoundId, order: seq<string>, cfg: Config)
    requires id.run in w.db.runs && id.run in v.db.runs && AllAccepted(w.db, order)
  {
    && BaseOf(w, id).Some? && Judgements(Cohort(w, order), cfg).Some?
    && (var survivors := Survivors(Cohort(w, order), cfg);
        if survivors == [] then v.store == w.store && v.db.runs == w.db.runs
        else MomentumAgrees(w, v, id, BaseOf(w, id).value, survivors, cfg))
  }

  lemma RetryFrom(
    w: World, id: RoundId, c: Choice, turned: set<string>, io: bool, cfg: Config, now: World, pc: Pc)
    requires InPlace(w.db, id) && IsQueryOrder(w.db, id, c.order) && c.io && (forall t :: t in c.order ==> t in w.db.subs)
    requires Underway(w, id, c.order, turned, io, cfg, now, pc) && BeforeCommit(pc)
    requires RoundIs(CloseAll(w, id, c, cfg).db, id, Closed)
    ensures var v := Reopened(now, id);
      && id.run in v.db.runs && AllAccepted(w.db, c.order) && AllAccepted(v.db, Still(v.db, c.order))
      && Cohort(v, Still(v.db, c.order)) == StillOf(Cohort(w, c.order), turned)
      && (EndsAlike(w, v, id, c, cfg) <==> CohortAgrees(w, v, c.order, cfg) && StoreAgrees(w, v, id, c.order, cfg))
  {
    hide Underway, Reject, Leftover, IsQueryOrder, CloseAll, Judgements, Survivors, GateAgrees, Cohort, Still, StillOf, Fetch, CombineKept,
      MomentumAgrees, InPlace, Reopened, JobOf;
    var v := Reopened(now, id);
    ReopenedIsLeftover(w, id, c.order, turned, io, cfg, now, pc);
    InPlaceMeans(w.db, id);
    LeftoverCohort(w, id, c.order, turned, v);
    JobsAgree(w, id, c.order, turned, v);
    LeftoverExactlyWhen(w, id, c, cfg, turned, v);
    GoesThroughExactlyWhen(w, id, c, cfg);
    var survivors := Survivors(Cohort(w, c.order), cfg);
    if survivors != [] { SameCombineExactlyWhen(w, id, c.order, turned, io, cfg, now, pc, survivors); }
  }

  lemma InPlaceMeans(db: Db, id: RoundId)
    requires InPlace(db, id)
    ensures RoundIs(db, id, Open) && id.run in db.runs
  {
  }

  /** Fail and retry. Cut a close off anywhere before its commit, whatever the store failed to
      answer until then, and reopen the round. If the uninterrupted close goes through, the retried
      one ends in the very same rows and objects if and only if gate 4 on what is left of the cohort
      agrees with gate 4 on all of it, and the momentum the retry finds is one the work cannot tell
      from the original. */
  lemma {:induction false} RetryExactlyWhen(w: World, id: RoundId, c: Choice, answers: seq<bool>, cfg: Config)
    requires InPlace(w.db, id) && IsQueryOrder(w.db, id, c.order) && c.io
    requires BeforeCommit(Attempt(w, id, c.order, answers, cfg).1)
    requires RoundIs(CloseAll(w, id, c, cfg).db, id, Closed)
    ensures var v := Reopened(Attempt(w, id, c.order, answers, cfg).0, id);
      && id.run in v.db.runs && AllAccepted(w.db, c.order) && AllAccepted(v.db, Still(v.db, c.order))
      && (EndsAlike(w, v, id, c, cfg) <==> CohortAgrees(w, v, c.order, cfg) && StoreAgrees(w, v, id, c.order, cfg))
  {
    hide Underway, IsQueryOrder, CloseAll, InPlace, Attempt, Reopened, EndsAlike, CohortAgrees, StoreAgrees, Still;
    InPlaceMeans(w.db, id);
    var a := Attempt(w, id, c.order, answers, cfg);
    var turned, io := AttemptUnderway(w, id, c.order, answers, cfg);
    RetryFrom(w, id, c, turned, io, cfg, a.0, a.1);
  }

  // ---- retries of steady attempts ---------------------------------------------------------------------

  predicate PastGate(pc: Pc) {
    pc.Combining? || pc.Publishing? || pc.SavingMomentum? || pc.NamingMomentum? || pc.Committing?
  }

  /** Adapter i stands out in no tensor. */
  ghost predicate FitsIn(adapters: seq<Adapter>, cfg: Config, i: nat)
    requires SharedNames(adapters) && i < |adapters|
  {
    forall name :: name in adapters[0] ==>
      var norms := NormsOf(name, adapters, cfg.norm);
      RealSeqs.Median(norms) == 0.0 || norms[i] <= cfg.normK * RealSeqs.Median(norms)
  }

  /** Nobody stands out of a real cohort. */
  ghost predicate NobodyStandsOut(kept: seq<Kept>, cfg: Config) {
    var adapters := Adapters(Works(kept));
    |kept| < 3 || (SharedNames(adapters) && forall i :: 0 <= i < |adapters| ==> FitsIn(adapters, cfg, i))
  }

  lemma AcceptedFitsIn(adapters: seq<Adapter>, cfg: Config, i: nat)
    requires SharedNames(adapters) && i < |adapters| && |adapters| >= 3
    ensures VerdictOf(adapters, cfg.norm, cfg.normK, i).Accepted? <==> FitsIn(adapters, cfg, i)
  {
    hide NormsOf, RealSeqs.Median;
    if !FitsIn(adapters, cfg, i) {
      var name :| name in adapters[0] && Outlier(NormsOf(name, adapters, cfg.norm), i, cfg.normK);
    }
  }

  /** Gate 4 keeps a whole cohort exactly when nobody in it stands out. */
  lemma KeepsAllExactlyWhen(kept: seq<Kept>, cfg: Config)
    ensures (Judgements(kept, cfg).Some? && Sentenced(kept, cfg) == {}) <==> NobodyStandsOut(kept, cfg)
  {
    hide FitsIn, VerdictOf, SharedNames, Works;
    var adapters := Adapters(Works(kept));
    if Judgements(kept, cfg).Some? {
      var judged := Judgements(kept, cfg).value;
      NoneFailed(judged);
      if |kept| >= 3 {
        forall i | 0 <= i < |kept| ensures judged[i].verdict.Accepted? <==> FitsIn(adapters, cfg, i) {
          AcceptedFitsIn(adapters, cfg, i);
        }
      }
    }
  }

  lemma NoneFailed(judged: seq<Judged>)
    ensures Failed(judged) == {} <==> forall i :: 0 <= i < |judged| ==> judged[i].verdict.Accepted?
  {
    forall i | 0 <= i < |judged| && !judged[i].verdict.Accepted? ensures judged[i].kept.task in Failed(judged) {
      assert judged[i] in judged;
    }
  }

  /** Past gate 4, a steady attempt leaves exactly the survivors, and the retry agrees on the cohort
      exactly when none of them stands out among the survivors. */
  lemma SurvivorsLeft(w: World, id: RoundId, order: seq<string>, turned: set<string>, cfg: Config, pc: Pc)
    requires IsQueryOrder(w.db, id, order) && (forall t :: t in order ==> t in w.db.subs)
    requires Steady(w, order, turned, cfg, pc) && PastGate(pc)
    ensures Judgements(Cohort(w, order), cfg).Some?
    ensures StillOf(Cohort(w, order), turned) == Survivors(Cohort(w, order), cfg)
    ensures GateAgrees(Cohort(w, order), Survivors(Cohort(w, order), cfg), cfg) <==> NobodyStandsOut(Survivors(Cohort(w, order), cfg), cfg)
    ensures GateAgrees(Cohort(w, order), Survivors(Cohort(w, order), cfg), cfg) ==>
      Survivors(Survivors(Cohort(w, order), cfg), cfg) == Survivors(Cohort(w, order), cfg)
  {
    hide Judgements, Cohort, StillOf, Gone, Entries, IsQueryOrder, Arrived, NobodyStandsOut;
    var cohort := Cohort(w, order);
    CohortTasks(w, id, order);
    assert Sentenced(cohort, cfg) == Failed(Judgements(cohort, cfg).value);
    hide Sentenced, Survivors;
    SurvivorsAreStill(cohort, cfg);
    forall k | k in cohort ensures k.task in turned <==> k.task in Sentenced(cohort, cfg) {
      assert k.task in Tasks(cohort);
    }
    StillSame(cohort, turned, Sentenced(cohort, cfg));
    var left := Survivors(cohort, cfg);
    StillTasks(cohort, turned);
    StillDistinct(cohort, turned);
    KeepsAllExactlyWhen(left, cfg);
    if Judgements(left, cfg).Some? { SurvivorsAreStill(left, cfg); }
    if GateAgrees(cohort, left, cfg) { SameSurvivors(cohort, turned, cfg); }
  }

  lemma FailedSplits(judged: seq<Judged>, kept: seq<Kept>, d: nat)
    requires d <= |judged| == |kept| && DistinctTasks(kept) && forall i :: 0 <= i < |kept| ==> judged[i].kept == kept[i]
    ensures Failed(judged) == Failed(judged[..d]) + Failed(judged[d..]) && Failed(judged[..d]) !! Failed(judged[d..])
    ensures Failed(judged[..d]) <= Tasks(kept)
  {
    var first, rest := judged[..d], judged[d..];
    assert judged == first + rest;
    assert forall j :: j in judged <==> j in first || j in rest;
    forall t | t in Failed(first) ensures t !in Failed(rest) && t in Tasks(kept) {
      var i :| 0 <= i < d && !first[i].verdict.Accepted? && first[i].kept.task == t;
      assert kept[i] in kept && kept[i].task == t;
      forall k | 0 <= k < |rest| ensures rest[k].kept.task != t {
        assert kept[d + k].task != kept[i].task;
      }
    }
  }

  /** Gate 4 on this cohort rejects exactly these tasks. */
  ghost predicate GateRejects(kept: seq<Kept>, cfg: Config, ts: set<string>) {
    Judgements(kept, cfg).Some? && Sentenced(kept, cfg) == ts
  }

  /** With these verdicts still to write, this is what is left of the cohort. */
  ghost predicate StillToReject(w: World, order: seq<string>, cfg: Config, pending: seq<Judged>, left: seq<Kept>)
    requires forall t :: t in order ==> t in w.db.subs
  {
    var judged := Judgements(Cohort(w, order), cfg);
    && judged.Some? && |pending| <= |judged.value|
    && var d := |judged.value| - |pending|;
       pending == judged.value[d..] && left == StillOf(Cohort(w, order), Failed(judged.value[..d]))
  }

  /** In the middle of gate 4's verdicts, a steady attempt leaves the cohort without those rejected so
      far, and the retry agrees exactly when gate 4 rejects among these the ones it had still to
      reject. */
  lemma MiddleLeft(w: World, id: RoundId, order: seq<string>, turned: set<string>, cfg: Config, pc: Pc)
    requires IsQueryOrder(w.db, id, order) && (forall t :: t in order ==> t in w.db.subs)
    requires Steady(w, order, turned, cfg, pc) && pc.Judging?
    ensures StillToReject(w, order, cfg, pc.pending, StillOf(Cohort(w, order), turned))
    ensures GateAgrees(Cohort(w, order), StillOf(Cohort(w, order), turned), cfg) <==>
      GateRejects(StillOf(Cohort(w, order), turned), cfg, Failed(pc.pending))
  {
    hide Judgements, Cohort, StillOf, Gone, Entries, IsQueryOrder, Arrived, Failed;
    var cohort, left := Cohort(w, order), StillOf(Cohort(w, order), turned);
    CohortTasks(w, id, order);
    var judged := Judgements(cohort, cfg).value;
    var d := |judged| - |pc.pending|;
    FailedSplits(judged, cohort, d);
    forall k | k in cohort ensures k.task in turned <==> k.task in Failed(judged[..d]) {
      assert k.task in Tasks(cohort);
    }
    StillSame(cohort, turned, Failed(judged[..d]));
    StillTasks(cohort, Failed(judged[..d]));
    StillDistinct(cohort, turned);
    if Judgements(left, cfg).Some? { SurvivorsAreStill(left, cfg); }
  }

  /** Before gate 4 has rejected anybody, what is left is the cohort itself, and gate 4 agrees. */
  lemma CohortLeft(w: World, id: RoundId, order: seq<string>, turned: set<string>, cfg: Config)
    requires IsQueryOrder(w.db, id, order) && (forall t :: t in order ==> t in w.db.subs)
    requires turned <= Gone(w.store, Entries(w.db, order))
    ensures StillOf(Cohort(w, order), turned) == Cohort(w, order)
    ensures Judgements(Cohort(w, order), cfg).Some? ==> GateAgrees(Cohort(w, order), Cohort(w, order), cfg)
  {
    hide Judgements, Cohort, StillOf, Gone, Entries, IsQueryOrder, Arrived, Sentenced;
    var cohort := Cohort(w, order);
    CohortTasks(w, id, order);
    forall i | 0 <= i < |cohort| ensures cohort[i].task !in turned {
      assert cohort[i] in cohort;
      assert cohort[i].task in Tasks(cohort);
    }
    StillAll(cohort, turned);
  }

  /** The attempt's momentum, once seen, rests: the work moves no cell of what the round started from. */
  ghost predicate MomentumRests(w: World, id: RoundId, kept: seq<Kept>, cfg: Config)
    requires id.run in w.db.runs
  {
    BaseOf(w, id).Some? &&
      WorkAtRest(BaseOf(w, id).value, Works(kept), cfg.cap, w.db.runs[id.run].beta, StartAt(w, id, BaseOf(w, id).value))
  }

  /** With gate 4 in agreement, the store agrees exactly when the momentum was not yet seen, or rests. */
  lemma SteadyStore(w: World, id: RoundId, c: Choice, turned: set<string>, cfg: Config, now: World, pc: Pc)
    requires InPlace(w.db, id) && IsQueryOrder(w.db, id, c.order) && c.io && (forall t :: t in c.order ==> t in w.db.subs)
    requires Underway(w, id, c.order, turned, true, cfg, now, pc) && BeforeCommit(pc) && Steady(w, c.order, turned, cfg, pc)
    requires RoundIs(CloseAll(w, id, c, cfg).db, id, Closed) && AllAccepted(w.db, c.order)
    requires GateAgrees(Cohort(w, c.order), StillOf(Cohort(w, c.order), turned), cfg)
    ensures id.run in Reopened(now, id).db.runs
    ensures StoreAgrees(w, Reopened(now, id), id, c.order, cfg) <==>
      !MomentumSeen(w, id, pc) || MomentumRests(w, id, StillOf(Cohort(w, c.order), turned), cfg)
  {
    hide Steady, Underway, IsQueryOrder, CloseAll, Judgements, Survivors, GateAgrees, Cohort, StillOf, CombineKept,
      MomentumAgrees, Reopened, JobOf, Made, InPlace, Fetch;
    var v, cohort := Reopened(now, id), Cohort(w, c.order);
    InPlaceMeans(w.db, id);
    GoesThroughExactlyWhen(w, id, c, cfg);
    RetryReadsMomentum(w, id, c.order, turned, true, cfg, now, pc);
    ReopenedObjects(w, id, c.order, turned, true, cfg, now, pc);
    var base, survivors := BaseOf(w, id).value, Survivors(cohort, cfg);
    if PastGate(pc) {
      SurvivorsLeft(w, id, c.order, turned, cfg, pc);
      InHandIsStill(w, c.order, turned);
    }
    if survivors != [] { SteadyMomentum(w, id, c.order, turned, cfg, now, pc, survivors); }
  }

  lemma SteadyMomentum(
    w: World, id: RoundId, order: seq<string>, turned: set<string>, cfg: Config, now: World, pc: Pc, survivors: seq<Kept>)
    requires InPlace(w.db, id) && (forall t :: t in order ==> t in w.db.subs)
    requires Underway(w, id, order, turned, true, cfg, now, pc) && BeforeCommit(pc) && BaseOf(w, id).Some?
    requires CombineKept(w.store, JobOf(w.db, id), BaseOf(w, id).value, survivors, true, cfg).Some?
    requires MomentumSeen(w, id, pc) ==> InHand(w, order, turned) == survivors
    ensures id.run in Reopened(now, id).db.runs
    ensures MomentumAgrees(w, Reopened(now, id), id, BaseOf(w, id).value, survivors, cfg) <==>
      !MomentumSeen(w, id, pc) || MomentumRests(w, id, survivors, cfg)
  {
    hide Underway, CombineKept, MomentumAgrees, Reopened, JobOf, Made, InPlace, Fetch, InHand, MomentumRests, MomentumAt;
    var v, base := Reopened(now, id), BaseOf(w, id).value;
    InPlaceMeans(w.db, id);
    RetryReadsMomentum(w, id, order, turned, true, cfg, now, pc);
    ReopenedObjects(w, id, order, turned, true, cfg, now, pc);
    SurvivorsShares(w, id, base, survivors, cfg);
    if MomentumSeen(w, id, pc) {
      MadeRests(w, id, order, turned, cfg);
      SeenAgrees(w, v, id, order, turned, cfg, base, survivors);
    } else {
      UnseenAgrees(w, v, id, base, survivors, cfg);
    }
  }

  lemma InHandIsStill(w: World, order: seq<string>, turned: set<string>)
    requires forall t :: t in order ==> t in w.db.subs
    ensures InHand(w, order, turned) == StillOf(Cohort(w, order), turned)
  {
    ArrivedUnturned(w.store, Entries(w.db, order), turned);
  }

  /** Whoever has put something held some work. */
  lemma ReopenedObjects(w: World, id: RoundId, order: seq<string>, turned: set<string>, io: bool, cfg: Config, now: World, pc: Pc)
    requires InPlace(w.db, id) && (forall t :: t in order ==> t in w.db.subs)
    requires Underway(w, id, order, turned, io, cfg, now, pc) && BeforeCommit(pc)
    ensures (Reopened(now, id).store == w.store && Reopened(now, id).db.runs == w.db.runs)
      || (PastGate(pc) && InHand(w, order, turned) != [] && Made(w, id, order, turned, io, cfg).Some?)
    ensures MomentumSeen(w, id, pc) ==> PastGate(pc) && InHand(w, order, turned) != []
    ensures id.run in Reopened(now, id).db.runs && Reopened(now, id).db.runs[id.run].beta == w.db.runs[id.run].beta
  {
    hide Reject, InHand, CombineKept, SaveAdapter, Fetch;
    RejectKeepsRuns(Claiming(w, id).db, turned);
  }

  lemma SurvivorsShares(w: World, id: RoundId, base: Adapter, kept: seq<Kept>, cfg: Config)
    requires RoundIs(w.db, id, Open) && id.run in w.db.runs
    requires CombineKept(w.store, JobOf(w.db, id), base, kept, true, cfg).Some?
    ensures SharesOf(Works(kept), cfg.cap).Some?
  {
    hide SharesOf, Works;
  }

  lemma MadeRests(w: World, id: RoundId, order: seq<string>, turned: set<string>, cfg: Config)
    requires RoundIs(w.db, id, Open) && id.run in w.db.runs && forall t :: t in order ==> t in w.db.subs
    requires Made(w, id, order, turned, true, cfg).Some? && w.db.runs[id.run].beta != 0.0
    ensures BaseOf(w, id).Some?
    ensures var base, m := BaseOf(w, id).value, Made(w, id, order, turned, true, cfg).value.momentum;
      && m.Some?
      && (WorkAgrees(base, Works(InHand(w, order, turned)), cfg.cap, StartAt(w, id, base), m.value)
          <==> MomentumRests(w, id, InHand(w, order, turned), cfg))
  {
    hide InHand, Published, StoredMomentum, SaveAdapter, LoadAdapter, WorkAgrees, WorkAtRest, StartMomentum;
    var job, base, held := JobOf(w.db, id), BaseOf(w, id).value, InHand(w, order, turned);
    FetchedIsWellFormed(w.store, w.db.rounds[id].base);
    PublishedMomentum(base, Works(held), cfg.cap, job.run.mode, job.run.lr, job.run.beta, StoredMomentum(w.store, job.run, true));
  }

  lemma SeenAgrees(w: World, v: World, id: RoundId, order: seq<string>, turned: set<string>, cfg: Config, base: Adapter, kept: seq<Kept>)
    requires RoundIs(w.db, id, Open) && id.run in w.db.runs && id.run in v.db.runs && forall t :: t in order ==> t in w.db.subs
    requires Made(w, id, order, turned, true, cfg).Some? && w.db.runs[id.run].beta != 0.0
    requires var m := Made(w, id, order, turned, true, cfg).value.momentum; m.Some? && MomentumAt(v, id) == m
    requires v.db.runs[id.run].beta == w.db.runs[id.run].beta
    ensures MomentumAgrees(w, v, id, base, kept, cfg) <==>
      WorkAgrees(base, Works(kept), cfg.cap, StartAt(w, id, base), Made(w, id, order, turned, true, cfg).value.momentum.value)
  {
    hide Made, WorkAgrees, MomentumAt;
  }

  lemma UnseenAgrees(w: World, v: World, id: RoundId, base: Adapter, kept: seq<Kept>, cfg: Config)
    requires id.run in w.db.runs && id.run in v.db.runs && MomentumAt(v, id) == MomentumAt(w, id)
    requires v.db.runs[id.run].beta == w.db.runs[id.run].beta && SharesOf(Works(kept), cfg.cap).Some?
    ensures MomentumAgrees(w, v, id, base, kept, cfg)
  {
    hide WorkAgrees, MomentumAt, SharesOf;
    if w.db.runs[id.run].beta != 0.0 { AgreesWithItself(base, Works(kept), cfg.cap, StartAt(w, id, base)); }
  }

  /** Fail and retry, with a store that answered until the attempt failed. Up to gate 4 a retry ends
      where the uninterrupted close does. Later it does so if and only if gate 4 on what is left
      agrees with gate 4 on the whole cohort and, if the attempt had put momentum that the run's row
      names by now, that momentum rests: on every cell of every tensor, the base less the weighted
      mean is (1 - beta) times the momentum the round started from. */
  lemma {:induction false} SteadyRetryExactlyWhen(w: World, id: RoundId, c: Choice, answers: seq<bool>, cfg: Config)
    requires InPlace(w.db, id) && IsQueryOrder(w.db, id, c.order) && c.io
    requires (forall i :: 0 <= i < |answers| ==> answers[i]) && BeforeCommit(Attempt(w, id, c.order, answers, cfg).1)
    requires RoundIs(CloseAll(w, id, c, cfg).db, id, Closed)
    ensures var a := Attempt(w, id, c.order, answers, cfg);
      var v := Reopened(a.0, id);
      && AllAccepted(w.db, c.order) && AllAccepted(v.db, Still(v.db, c.order))
      && (EndsAlike(w, v, id, c, cfg) <==>
            && CohortAgrees(w, v, c.order, cfg)
            && (!MomentumSeen(w, id, a.1) || MomentumRests(w, id, Cohort(v, Still(v.db, c.order)), cfg)))
  {
    hide Underway, Steady, IsQueryOrder, CloseAll, InPlace, Attempt, Reopened, EndsAlike, StoreAgrees, Still, Cohort, StillOf,
      GateAgrees, MomentumRests, MomentumSeen;
    InPlaceMeans(w.db, id);
    var a := Attempt(w, id, c.order, answers, cfg);
    var turned := AttemptSteady(w, id, c.order, answers, cfg);
    RetryFrom(w, id, c, turned, true, cfg, a.0, a.1);
    if GateAgrees(Cohort(w, c.order), StillOf(Cohort(w, c.order), turned), cfg) {
      SteadyStore(w, id, c, turned, cfg, a.0, a.1);
    }
  }

  /** Which cohort the retried gate judges, and when it agrees. An attempt that failed before gate 4
      leaves the cohort as it was, and gate 4 agrees. One that failed in the middle of its verdicts
      leaves the cohort without those rejected so far, and gate 4 agrees exactly when it now rejects
      those it had still to reject. One that failed after it leaves exactly the survivors, and gate 4
      agrees exactly when none of them stands out among the survivors. */
  lemma {:induction false} RetryJudgesSurvivors(w: World, id: RoundId, order: seq<string>, answers: seq<bool>, cfg: Config)
    requires InPlace(w.db, id) && IsQueryOrder(w.db, id, order)
    requires (forall i :: 0 <= i < |answers| ==> answers[i]) && BeforeCommit(Attempt(w, id, order, answers, cfg).1)
    ensures var a := Attempt(w, id, order, answers, cfg);
      var v := Reopened(a.0, id);
      && AllAccepted(w.db, order) && AllAccepted(v.db, Still(v.db, order))
      && (a.1.Claimed? || a.1.Loading? || a.1.Fetching? ==>
            && Cohort(v, Still(v.db, order)) == Cohort(w, order)
            && (Judgements(Cohort(w, order), cfg).Some? ==> CohortAgrees(w, v, order, cfg)))
      && (a.1.Judging? ==>
            && StillToReject(w, order, cfg, a.1.pending, Cohort(v, Still(v.db, order)))
            && (CohortAgrees(w, v, order, cfg) <==> GateRejects(Cohort(v, Still(v.db, order)), cfg, Failed(a.1.pending))))
      && (PastGate(a.1) ==>
            && Judgements(Cohort(w, order), cfg).Some?
            && Cohort(v, Still(v.db, order)) == Survivors(Cohort(w, order), cfg)
            && (CohortAgrees(w, v, order, cfg) <==> NobodyStandsOut(Survivors(Cohort(w, order), cfg), cfg)))
  {
    hide Underway, Steady, IsQueryOrder, Attempt, Reopened, Still, Cohort, StillOf, GateAgrees, Judgements, Survivors,
      NobodyStandsOut, Leftover, InPlace, StillToReject, GateRejects, Failed;
    InPlaceMeans(w.db, id);
    var a := Attempt(w, id, order, answers, cfg);
    var turned := AttemptSteady(w, id, order, answers, cfg);
    ReopenedIsLeftover(w, id, order, turned, true, cfg, a.0, a.1);
    LeftoverCohort(w, id, order, turned, Reopened(a.0, id));
    if PastGate(a.1) {
      SurvivorsLeft(w, id, order, turned, cfg, a.1);
    } else if a.1.Judging? {
      MiddleLeft(w, id, order, turned, cfg, a.1);
    } else {
      EarlyTurned(w, id, order, turned, cfg, a.0, a.1);
      CohortLeft(w, id, order, turned, cfg);
    }
  }

  lemma EarlyTurned(w: World, id: RoundId, order: seq<string>, turned: set<string>, cfg: Config, now: World, pc: Pc)
    requires RoundIs(w.db, id, Open) && id.run in w.db.runs && (forall t :: t in order ==> t in w.db.subs)
    requires Underway(w, id, order, turned, true, cfg, now, pc) && Steady(w, order, turned, cfg, pc)
    requires pc.Claimed? || pc.Loading? || pc.Fetching?
    ensures turned <= Gone(w.store, Entries(w.db, order))
  {
    hide Judgements, Made, Fetch;
  }

  // ---- the promise, where it holds ------------------------------------------------------------------------

  lemma SameCohortTurned(w: World, id: RoundId, order: seq<string>, turned: set<string>)
    requires IsQueryOrder(w.db, id, order) && (forall t :: t in order ==> t in w.db.subs) && (forall t :: t in turned ==> t in order)
    requires StillOf(Cohort(w, order), turned) == Cohort(w, order)
    ensures turned <= Gone(w.store, Entries(w.db, order))
  {
    hide Cohort, StillOf, Gone, Entries, IsQueryOrder;
    CohortTasks(w, id, order);
    StillTasks(Cohort(w, order), turned);
  }

  /** Nothing put, nobody rejected by gate 4: the second close does the same all over. */
  lemma RetryFromScratch(w: World, id: RoundId, c: Choice, turned: set<string>, cfg: Config, v: World)
    requires InPlace(w.db, id) && IsQueryOrder(w.db, id, c.order) && c.io && Leftover(w, id, c.order, turned, v)
    requires v.store == w.store && v.db.runs == w.db.runs && (forall t :: t in c.order ==> t in w.db.subs)
    requires turned <= Gone(w.store, Entries(w.db, c.order)) && StillOf(Cohort(w, c.order), turned) == Cohort(w, c.order)
    requires BaseOf(w, id).None? ==> turned == {}
    ensures EndsAlike(w, v, id, c, cfg)
  {
    hide Cohort, StillOf, Gone, Entries, IsQueryOrder, CloseAll, JudgeAndSettle, Still, Reject, Fetch;
    LeftoverQuery(w, id, c.order, turned, v);
    JobsAgree(w, id, c.order, turned, v);
    LeftoverRow(w, id, c.order, turned, v);
    if BaseOf(w, id).None? {
      RejectNone(w.db);
      assert v.db == w.db;
      CloseAllIs(w, id, c, cfg);
      CloseAllIs(v, id, Again(v.db, c), cfg);
    } else {
      BothCloses(w, id, c, cfg, turned, v);
      assert turned + Gone(w.store, Entries(w.db, c.order)) == Gone(w.store, Entries(w.db, c.order));
    }
  }

  lemma LeftoverRow(w: World, id: RoundId, order: seq<string>, turned: set<string>, v: World)
    requires InPlace(w.db, id) && Leftover(w, id, order, turned, v)
    ensures RoundIs(v.db, id, Open) && v.db.rounds[id] == w.db.rounds[id]
    ensures v.db == Reject(w.db, turned).(runs := v.db.runs)
  {
  }

  lemma EarlyBase(w: World, id: RoundId, order: seq<string>, turned: set<string>, io: bool, cfg: Config, now: World, pc: Pc)
    requires RoundIs(w.db, id, Open) && id.run in w.db.runs && (forall t :: t in order ==> t in w.db.subs)
    requires Underway(w, id, order, turned, io, cfg, now, pc) && BeforeCommit(pc)
    ensures BaseOf(w, id).None? ==> turned == {}
    ensures forall t :: t in turned ==> t in order
  {
    hide InHand, Fetch, CombineKept;
  }

  /** A failed attempt may be retried freely until gate 4 has rejected somebody or its momentum is
      seen: the retry then ends exactly where the uninterrupted close ends, whether that goes
      through or not. */
  lemma {:induction false} RetryIsSafe(w: World, id: RoundId, c: Choice, answers: seq<bool>, cfg: Config)
    requires InPlace(w.db, id) && IsQueryOrder(w.db, id, c.order) && c.io
    requires (forall i :: 0 <= i < |answers| ==> answers[i]) && BeforeCommit(Attempt(w, id, c.order, answers, cfg).1)
    ensures var a := Attempt(w, id, c.order, answers, cfg);
      var v := Reopened(a.0, id);
      && AllAccepted(w.db, c.order) && AllAccepted(v.db, Still(v.db, c.order))
      && (Cohort(v, Still(v.db, c.order)) == Cohort(w, c.order) && !MomentumSeen(w, id, a.1) ==> EndsAlike(w, v, id, c, cfg))
  {
    hide Underway, Steady, IsQueryOrder, Attempt, Reopened, Still, Cohort, StillOf, GateAgrees, Judgements, Survivors, NobodyStandsOut,
      Leftover, InPlace, EndsAlike, CloseAll, MomentumSeen, Made, BaseOf, CombineKept;
    InPlaceMeans(w.db, id);
    var a := Attempt(w, id, c.order, answers, cfg);
    var v := Reopened(a.0, id);
    var turned := AttemptSteady(w, id, c.order, answers, cfg);
    ReopenedIsLeftover(w, id, c.order, turned, true, cfg, a.0, a.1);
    LeftoverCohort(w, id, c.order, turned, v);
    if Cohort(v, Still(v.db, c.order)) == Cohort(w, c.order) && !MomentumSeen(w, id, a.1) {
      EarlyBase(w, id, c.order, turned, true, cfg, a.0, a.1);
      SameCohortTurned(w, id, c.order, turned);
      if v.store == w.store && v.db.runs == w.db.runs {
        RetryFromScratch(w, id, c, turned, cfg, v);
      } else {
        ReopenedObjects(w, id, c.order, turned, true, cfg, a.0, a.1);
        RetryAfterPut(w, id, c, answers, turned, cfg);
      }
    }
  }

  lemma {:induction false} RetryAfterPut(w: World, id: RoundId, c: Choice, answers: seq<bool>, turned: set<string>, cfg: Config)
    requires InPlace(w.db, id) && IsQueryOrder(w.db, id, c.order) && c.io && (forall t :: t in c.order ==> t in w.db.subs)
    requires (forall i :: 0 <= i < |answers| ==> answers[i])
    requires var a := Attempt(w, id, c.order, answers, cfg);
      && BeforeCommit(a.1) && PastGate(a.1) && !MomentumSeen(w, id, a.1)
      && Underway(w, id, c.order, turned, true, cfg, a.0, a.1) && Steady(w, c.order, turned, cfg, a.1)
      && AllAccepted(w.db, c.order) && AllAccepted(Reopened(a.0, id).db, Still(Reopened(a.0, id).db, c.order))
      && Cohort(Reopened(a.0, id), Still(Reopened(a.0, id).db, c.order)) == Cohort(w, c.order)
    requires Made(w, id, c.order, turned, true, cfg).Some?
    requires StillOf(Cohort(w, c.order), turned) == Cohort(w, c.order) && turned <= Gone(w.store, Entries(w.db, c.order))
    ensures EndsAlike(w, Reopened(Attempt(w, id, c.order, answers, cfg).0, id), id, c, cfg)
  {
    hide Underway, Steady, IsQueryOrder, Attempt, Reopened, Still, Cohort, StillOf, GateAgrees, Judgements, Survivors, NobodyStandsOut,
      Leftover, InPlace, EndsAlike, CloseAll, MomentumSeen, BaseOf, CombineKept, Gone, Entries;
    InPlaceMeans(w.db, id);
    var a := Attempt(w, id, c.order, answers, cfg);
    SurvivorsLeft(w, id, c.order, turned, cfg, a.1);
    InHandIsStill(w, c.order, turned);
    CohortLeft(w, id, c.order, turned, cfg);
    GoesThroughExactlyWhen(w, id, c, cfg);
    SteadyRetryExactlyWhen(w, id, c, answers, cfg);
  }
}

