/** What a run is created with and never changes: its hyperparameters, and the target and the time
    bounds that every one of its rounds inherits from the first. */
module RunConstants {
  import opened Wrappers
  import opened Tensors
  import opened ObjectKeys
  import opened Tables
  import opened Rounds
  import opened Closer
  import opened System
  import opened CloseSafety

  ghost predicate SameTiming(a: Round, b: Round) {
    a.targetSteps == b.targetSteps && a.minSec == b.minSec && a.maxSec == b.maxSec
  }

  ghost predicate SameTerms(a: Run, b: Run) {
    a.target == b.target && a.mode == b.mode && a.lr == b.lr && a.beta == b.beta && a.numBuckets == b.numBuckets
  }

  /** Nothing changes its terms. */
  ghost predicate TermsKept(db: Db, n: Db) {
    && (forall id :: id in db.rounds ==> id in n.rounds && SameTiming(db.rounds[id], n.rounds[id]))
    && (forall run :: run in db.runs ==> run in n.runs && SameTerms(db.runs[run], n.runs[run]))
  }

  function FirstOf(run: string): RoundId {
    RoundId(run, 0)
  }

  ghost predicate LikeTheFirst(db: Db, id: RoundId) {
    id in db.rounds && FirstOf(id.run) in db.rounds && SameTiming(db.rounds[FirstOf(id.run)], db.rounds[id])
  }

  /** A close works from the terms of its round and run. */
  ghost predicate JobTerms(db: Db, pc: Pc) {
    HasJob(pc) ==>
      && pc.job.id in db.rounds && pc.job.id.run in db.runs
      && SameTiming(pc.job.round, db.rounds[pc.job.id]) && SameTerms(pc.job.run, db.runs[pc.job.id.run])
  }

  ghost predicate TermsSound(s: Sys) {
    && (forall id :: id in s.w.db.rounds ==> LikeTheFirst(s.w.db, id))
    && (forall p :: p in s.closers ==> JobTerms(s.w.db, s.closers[p]))
  }

  /** One step on: the terms hold, and they are the ones from before. */
  ghost predicate TermsStay(s: Sys, n: Sys) {
    TermsSound(n) && TermsKept(s.w.db, n.w.db)
  }

  // ---- one step -------------------------------------------------------------------------

  lemma KeptTerms(s: Sys, n: Sys)
    requires TermsSound(s) && TermsKept(s.w.db, n.w.db)
    requires forall id :: id in n.w.db.rounds && id !in s.w.db.rounds ==> LikeTheFirst(n.w.db, id)
    requires forall p :: p in n.closers ==> (p in s.closers && n.closers[p] == s.closers[p]) || JobTerms(n.w.db, n.closers[p])
    ensures TermsStay(s, n)
  {
    forall id | id in n.w.db.rounds ensures LikeTheFirst(n.w.db, id) {
      if id in s.w.db.rounds { assert LikeTheFirst(s.w.db, id); }
    }
    forall p | p in n.closers ensures JobTerms(n.w.db, n.closers[p]) {
      if p in s.closers && n.closers[p] == s.closers[p] { assert JobTerms(s.w.db, s.closers[p]); }
    }
  }

  lemma CommitTerms(db: Db, id: RoundId, result: Option<Key>)
    ensures TermsKept(db, CommitClose(db, id, result)) && CommitClose(db, id, result).rounds.Keys == db.rounds.Keys
  {
    hide EndedWith;
  }

  lemma NamingTerms(db: Db, run: string)
    ensures TermsKept(db, NameMomentum(db, run)) && NameMomentum(db, run).rounds == db.rounds
  {
  }

  lemma FinishTerms(db: Db, run: string)
    ensures TermsKept(db, FinishRun(db, run)) && FinishRun(db, run).rounds == db.rounds
  {
  }

  lemma ReleaseTerms(db: Db, id: RoundId)
    ensures TermsKept(db, ReleaseClose(db, id)) && ReleaseClose(db, id).rounds.Keys == db.rounds.Keys
  {
  }

  lemma VerdictTerms(db: Db, t: string, accepted: bool)
    ensures TermsKept(db, RecordVerdict(db, t, accepted)) && RecordVerdict(db, t, accepted).rounds == db.rounds
  {
  }

  lemma SameTerm(db: Db)
    ensures TermsKept(db, db)
  {
  }

  lemma OpenTerms(db: Db, id: RoundId, base: Key, timing: Timing, now: int)
    ensures var n := OpenRound(db, id, base, timing, now);
      n.Ok? ==>
        && TermsKept(db, n.value) && n.value.rounds.Keys == db.rounds.Keys + {id}
        && n.value.rounds[id].targetSteps == timing.targetSteps && n.value.rounds[id].minSec == timing.minSec
        && n.value.rounds[id].maxSec == timing.maxSec && n.value.rounds[id].openedAt == now
  {
  }

  /** What the next step of a close does to the terms in the tables. */
  lemma StepTerms(w: World, pc: Pc, c: Choice, cfg: Config)
    requires CanStep(w, pc, c)
    ensures TermsKept(w.db, Step(w, pc, c, cfg).0.db)
    ensures !pc.Advancing? ==> Step(w, pc, c, cfg).0.db.rounds.Keys == w.db.rounds.Keys
  {
    hide CombineKept, Verdicts, IsQueryOrder, Entries, Fetch, SaveAdapter, Works, CommitClose, RecordVerdict, ReleaseClose, NameMomentum,
      FinishRun, OpenRound, Foldable, Rates, TermsKept, Query, Load, Judge, CombineStep, TimingOf;
    SameTerm(w.db);
    match pc {
      case Committing(job, result) => CommitTerms(w.db, job.id, result);
      case Advancing(job, result) =>
        FinishTerms(w.db, job.id.run);
        OpenTerms(w.db, RoundId(job.id.run, job.id.idx + 1), result, TimingOf(job.round), c.now);
      case Fetching(_, _, todo, _) => if todo != [] { VerdictTerms(w.db, todo[0].task, false); }
      case Judging(_, _, pending, _) => if pending != [] { VerdictTerms(w.db, pending[0].kept.task, false); }
      case NamingMomentum(job) => NamingTerms(w.db, job.id.run);
      case Unwinding(id) => ReleaseTerms(w.db, id);
      case _ =>
    }
  }

  /** What the next step of a close works from: the rows it has just read, or what it worked from. */
  lemma StepJob(w: World, pc: Pc, c: Choice, cfg: Config)
    requires CanStep(w, pc, c)
    ensures var n := Step(w, pc, c, cfg).1;
      HasJob(n) ==>
        if pc.Claimed? then
          n.job.id in w.db.rounds && n.job.id.run in w.db.runs && n.job.round == w.db.rounds[n.job.id] && n.job.run == w.db.runs[n.job.id.run]
        else HasJob(pc) && n.job.id == pc.job.id && n.job.round == pc.job.round && n.job.run == pc.job.run
  {
    hide CombineKept, Verdicts, IsQueryOrder, Entries, Fetch, SaveAdapter, Works, CommitClose, RecordVerdict, ReleaseClose, NameMomentum,
      FinishRun, OpenRound, Foldable, Rates, TimingOf;
  }

  lemma JobTermsFollow(db: Db, n: Db, pc: Pc, next: Pc)
    requires TermsKept(db, n) && JobTerms(db, pc)
    requires HasJob(next) ==>
      if pc.Claimed? then
        && next.job.id in db.rounds && next.job.id.run in db.runs && next.job.round == db.rounds[next.job.id]
        && next.job.run == db.runs[next.job.id.run]
      else HasJob(pc) && next.job.id == pc.job.id && next.job.round == pc.job.round && next.job.run == pc.job.run
    ensures JobTerms(n, next)
  {
  }

  lemma AdvanceTerms(w: World, pc: Pc, now: int)
    requires pc.Advancing? && JobTerms(w.db, pc)
    ensures TermsKept(w.db, Advance(w, pc, now).0.db) && !HasJob(Advance(w, pc, now).1)
    ensures forall id :: id in Advance(w, pc, now).0.db.rounds && id !in w.db.rounds ==>
      id.run == pc.job.id.run && SameTiming(Advance(w, pc, now).0.db.rounds[id], w.db.rounds[pc.job.id])
  {
    hide Foldable;
  }

  lemma AdvanceLikeFirst(s: Sys, p: nat, now: int)
    requires TermsSound(s) && Sound(s) && p in s.closers && s.closers[p].Advancing?
    ensures var n := Advance(s.w, s.closers[p], now).0.db;
      forall id :: id in n.rounds && id !in s.w.db.rounds ==> LikeTheFirst(n, id)
  {
    hide Sound, Advance;
    var pc := s.closers[p];
    assert JobTerms(s.w.db, pc);
    AdvanceTerms(s.w, pc, now);
    assert LikeTheFirst(s.w.db, pc.job.id);
  }

  lemma StepCloseTerms(s: Sys, p: nat, c: Choice, cfg: Config)
    requires TermsSound(s) && Sound(s)
    ensures TermsStay(s, DoStepClose(s, p, c, cfg))
  {
    hide Step, TermsKept, JobTerms, LikeTheFirst, IsQueryOrder, Sound;
    SameTerm(s.w.db);
    if p in s.closers && CanStep(s.w, s.closers[p], c) {
      var pc, n := s.closers[p], DoStepClose(s, p, c, cfg);
      StepTerms(s.w, pc, c, cfg);
      StepJob(s.w, pc, c, cfg);
      JobTermsFollow(s.w.db, n.w.db, pc, n.closers[p]);
      if pc.Advancing? {
        AdvanceStep(s.w, pc, c, cfg);
        AdvanceLikeFirst(s, p, c.now);
      }
      KeptTerms(s, n);
    }
  }

  lemma AdvanceStep(w: World, pc: Pc, c: Choice, cfg: Config)
    requires pc.Advancing?
    ensures Step(w, pc, c, cfg) == Advance(w, pc, c.now)
  {
  }

  lemma OpenFirstTerms(s: Sys, run: string, timing: Timing, now: int)
    requires TermsSound(s) && Sound(s)
    ensures TermsStay(s, DoOpenFirst(s, run, timing, now))
  {
    hide TermsKept, JobTerms, OpenRound, Sound;
    var n := DoOpenFirst(s, run, timing, now);
    SameTerm(s.w.db);
    OpenTerms(s.w.db, RoundId(run, 0), BaseKey(run, 0), timing, now);
    KeptTerms(s, n);
  }

  lemma AddRunTerms(s: Sys, run: string, row: Run)
    requires TermsSound(s)
    ensures TermsStay(s, DoAddRun(s, run, row))
  {
    hide JobTerms, LikeTheFirst, FreshBuckets;
    var n := DoAddRun(s, run, row);
    assert n.w.db.rounds == s.w.db.rounds;
    forall id | id in n.w.db.rounds ensures LikeTheFirst(n.w.db, id) {
      assert LikeTheFirst(s.w.db, id);
      SameLikeness(s.w.db, n.w.db, id);
    }
    KeptTerms(s, n);
  }

  lemma SameLikeness(db: Db, n: Db, id: RoundId)
    requires n.rounds == db.rounds && LikeTheFirst(db, id)
    ensures LikeTheFirst(n, id)
  {
  }

  lemma BystanderTerms(s: Sys, a: Action, cfg: Config)
    requires TermsSound(s) && Bystander(a)
    ensures TermsStay(s, Apply(s, a, cfg))
  {
    hide Apply;
    if TaskAction(a) {
      TaskActionFrame(s, a, cfg);
    } else {
      StoreActionFrame(s, a, cfg);
    }
    SameTerm(s.w.db);
    KeptTerms(s, Apply(s, a, cfg));
  }

  ghost predicate OnCloses(a: Action) {
    a.Restart? || a.StartClose? || a.FailClose? || a.CrashClose?
  }

  lemma RestartTerms(db: Db, id: RoundId, now: int)
    ensures TermsKept(db, ReopenEmptyRound(db, id, now)) && ReopenEmptyRound(db, id, now).rounds.Keys == db.rounds.Keys
  {
    hide Progress, Counted;
  }

  lemma ClaimTerms(db: Db, id: RoundId)
    ensures var n := ClaimClose(db, id); n.Some? ==> TermsKept(db, n.value) && n.value.rounds.Keys == db.rounds.Keys
  {
  }

  lemma CloseTerms(s: Sys, a: Action, cfg: Config)
    requires TermsSound(s) && OnCloses(a)
    ensures TermsStay(s, Apply(s, a, cfg))
  {
    hide LikeTheFirst, ReopenEmptyRound, TermsKept, ClaimClose;
    SameTerm(s.w.db);
    if a.Restart? { RestartTerms(s.w.db, a.id, a.now); }
    if a.StartClose? { ClaimTerms(s.w.db, a.id); }
    assert Apply(s, a, cfg).w.db.rounds.Keys == s.w.db.rounds.Keys;
    KeptTerms(s, Apply(s, a, cfg));
  }

  /** Every step of the system keeps the terms. */
  lemma ActionKeepsTerms(s: Sys, a: Action, cfg: Config)
    requires TermsSound(s) && Sound(s)
    ensures TermsStay(s, Apply(s, a, cfg))
  {
    hide TermsSound, TermsKept, Sound, DoStepClose, DoOpenFirst, DoAddRun;
    match a {
      case AddRun(run, row) => AddRunTerms(s, run, row);
      case OpenFirst(run, timing, now) => OpenFirstTerms(s, run, timing, now);
      case StepClose(p, c) => StepCloseTerms(s, p, c, cfg);
      case _ => OtherTerms(s, a, cfg);
    }
  }

  lemma OtherTerms(s: Sys, a: Action, cfg: Config)
    requires TermsSound(s) && !(a.AddRun? || a.OpenFirst? || a.StepClose?)
    ensures TermsStay(s, Apply(s, a, cfg))
  {
    hide Apply, TermsSound, TermsKept;
    if Bystander(a) {
      BystanderTerms(s, a, cfg);
    } else {
      CloseTerms(s, a, cfg);
    }
  }

  /** In every reachable state every round of a run has the target and the two time bounds of its first
      round, and every close works from the terms its round and its run still have. */
  lemma {:induction false} EveryRunKeepsTerms(actions: seq<Action>, cfg: Config)
    ensures TermsSound(After(actions, cfg))
  {
    hide Apply, Sound;
    if actions != [] {
      EveryRunKeepsTerms(actions[..|actions| - 1], cfg);
      EveryRunIsSound(actions[..|actions| - 1], cfg);
      ActionKeepsTerms(After(actions[..|actions| - 1], cfg), actions[|actions| - 1], cfg);
    }
  }

  /** And what a run or a round was given it keeps for ever. */
  lemma {:induction false} TermsForEver(actions: seq<Action>, n: nat, cfg: Config)
    requires n <= |actions|
    ensures TermsKept(After(actions[..n], cfg).w.db, After(actions, cfg).w.db)
    decreases |actions|
  {
    hide Apply, Sound, TermsSound, SameTiming, SameTerms;
    if n == |actions| {
      assert actions[..n] == actions;
      SameTerm(After(actions, cfg).w.db);
    } else {
      var before, last := actions[..|actions| - 1], actions[|actions| - 1];
      assert before[..n] == actions[..n];
      TermsForEver(before, n, cfg);
      EveryRunKeepsTerms(before, cfg);
      EveryRunIsSound(before, cfg);
      ActionKeepsTerms(After(before, cfg), last, cfg);
      TermsChain(After(before[..n], cfg).w.db, After(before, cfg).w.db, After(actions, cfg).w.db);
    }
  }

  lemma TermsChain(a: Db, b: Db, c: Db)
    requires TermsKept(a, b) && TermsKept(b, c)
    ensures TermsKept(a, c)
  {
  }

  /** A run starts with the row it was given, active, in round 0, without momentum, its buckets all
      untrained, and its first round with the target and bounds asked for. */
  lemma RunStartsAsGiven(db: Db, run: string, row: Run, base: Key, timing: Timing, now: int)
    requires run !in db.runs && RoundId(run, 0) !in db.rounds
    ensures var a := InsertRun(db, run, row);
      && a.Ok? && run in a.value.runs && SameTerms(a.value.runs[run], row)
      && a.value.runs[run].status == Active && a.value.runs[run].current == 0 && a.value.runs[run].momentum.None?
      && run in a.value.buckets && |a.value.buckets[run]| == row.numBuckets
      && (forall b :: 0 <= b < row.numBuckets ==> a.value.buckets[run][b].times == 0 && a.value.buckets[run][b].last.None?)
      && var o := OpenRound(a.value, RoundId(run, 0), base, timing, now);
         && o.Ok? && RoundIs(o.value, RoundId(run, 0), Open) && o.value.rounds[RoundId(run, 0)].base == base
         && o.value.rounds[RoundId(run, 0)].targetSteps == timing.targetSteps && o.value.rounds[RoundId(run, 0)].minSec == timing.minSec
         && o.value.rounds[RoundId(run, 0)].maxSec == timing.maxSec && o.value.rounds[RoundId(run, 0)].openedAt == now
  {
  }
}
