/** The adapter chain and the close protocol: what every step keeps, whatever interleaves. */
module CloseSafety {
  import opened Wrappers
  import opened Tensors
  import opened ObjectKeys
  import opened Tables
  import opened Rounds
  import opened Closer
  import opened System

  /** One round's place in its run's chain. */
  ghost predicate RoundSound(db: Db, id: RoundId) {
    && id in db.rounds && id.run in db.runs
    && (var r, run := db.rounds[id], db.runs[id.run];
        && id.idx <= run.current
        && r.base == BaseKey(id.run, id.idx)
        && (r.result.Some? ==> r.status == Closed && r.result == Some(ResultKey(id)))
        && (id.idx < run.current ==> r.status == Closed && r.result.Some?)
        && (id.idx > 0 ==> RoundId(id.run, id.idx - 1) in db.rounds && id.idx < run.target))
  }

  ghost predicate RunSound(db: Db, run: string) {
    && run in db.runs
    && (var r := db.runs[run];
        && (r.momentum.Some? ==> r.momentum == Some(MomentumKey(run)))
        && (r.current > 0 ==> CurrentId(db, run) in db.rounds)
        && (r.status == Done ==> RoundIs(db, CurrentId(db, run), Closed) && r.current + 1 >= r.target))
  }

  /** The chain: rounds 0 .. current, all but the last closed on the base of the next. */
  ghost predicate Chain(db: Db) {
    && (forall id :: id in db.rounds ==> RoundSound(db, id))
    && (forall run :: run in db.runs ==> RunSound(db, run))
  }

  /** The rows a close read are still true where it relies on them. */
  ghost predicate JobSound(db: Db, job: Job) {
    && job.id in db.rounds && job.id.run in db.runs
    && job.round.base == BaseKey(job.id.run, job.id.idx)
    && job.run.target == db.runs[job.id.run].target
    && job.run.mode == db.runs[job.id.run].mode
    && (job.run.momentum.Some? ==>
          job.run.momentum == Some(MomentumKey(job.id.run)) && db.runs[job.id.run].momentum == job.run.momentum)
  }

  ghost predicate HasJob(pc: Pc) {
    !pc.Claimed? && !pc.Unwinding? && !pc.Ended?
  }

  ghost predicate PcSound(db: Db, pc: Pc) {
    match RoundOf(pc)
    case None => true
    case Some(id) =>
      && id in db.rounds && db.rounds[id].status != Open
      && (BeforeCommit(pc) ==> db.rounds[id].status == Closing)
      && (HasJob(pc) ==> JobSound(db, pc.job))
      && (pc.Committing? && pc.result.Some? ==> pc.result == Some(ResultKey(id)))
      && (pc.Advancing? ==>
            && db.rounds[id].status == Closed && db.rounds[id].result == Some(pc.published)
            && RunActive(db, id.run) && db.runs[id.run].current == id.idx)
  }

  /** No two callers are ever closing the same round. */
  ghost predicate Exclusive(closers: map<nat, Pc>) {
    forall p, q :: p in closers && q in closers && p != q && RoundOf(closers[p]).Some? ==> RoundOf(closers[p]) != RoundOf(closers[q])
  }

  ghost predicate ClosersSound(s: Sys) {
    && (forall p :: p in s.closers ==> PcSound(s.w.db, s.closers[p]))
    && Exclusive(s.closers)
  }

  ghost predicate CreationsSound(s: Sys) {
    forall run :: run in s.creations && s.creations[run] == RunInserted ==>
      run in s.w.db.runs && s.w.db.runs[run].current == 0 && forall id :: id in s.w.db.rounds ==> id.run != run
  }

  ghost predicate Sound(s: Sys) {
    Chain(s.w.db) && ClosersSound(s) && CreationsSound(s)
  }

  // ---- steps that leave runs and rounds alone -----------------------------------------

  lemma SameRounds(s: Sys, n: Sys)
    requires Sound(s) && n.w.db.runs == s.w.db.runs && n.w.db.rounds == s.w.db.rounds
    requires n.closers == s.closers && n.creations == s.creations
    ensures Sound(n)
  {
    forall id | id in n.w.db.rounds ensures RoundSound(n.w.db, id) {
      assert RoundSound(s.w.db, id);
    }
    forall run | run in n.w.db.runs ensures RunSound(n.w.db, run) {
      assert RunSound(s.w.db, run);
    }
    forall p | p in n.closers ensures PcSound(n.w.db, n.closers[p]) {
      assert PcSound(s.w.db, s.closers[p]);
    }
  }

  // ---- one round changes, keeping its base -----------------------------------------------

  /** Updates of one round that keep the chain: nothing but its status, clock and result. */
  ghost predicate RoundMoves(r: Round, n: Round, id: RoundId) {
    && n.base == r.base
    && (r.status == Closed ==> n == r)
    && (n.result.Some? ==> n.status == Closed && n.result == Some(ResultKey(id)))
    && (r.status != Closed ==> n.status == Closed || n.result.None?)
  }

  lemma RoundUpdateKeepsChain(db: Db, id: RoundId, n: Round)
    requires Chain(db) && id in db.rounds && RoundMoves(db.rounds[id], n, id)
    ensures Chain(db.(rounds := db.rounds[id := n]))
  {
    var after := db.(rounds := db.rounds[id := n]);
    assert RoundSound(db, id);
    forall o | o in after.rounds ensures RoundSound(after, o) {
      assert RoundSound(db, o);
    }
    forall run | run in after.runs ensures RunSound(after, run) {
      assert RunSound(db, run);
    }
  }

  lemma OthersSound(db: Db, after: Db, pc: Pc, id: RoundId)
    requires PcSound(db, pc) && RoundOf(pc) != Some(id)
    requires after.runs == db.runs && after.rounds.Keys == db.rounds.Keys
    requires forall o :: o in db.rounds && o != id ==> after.rounds[o] == db.rounds[o]
    ensures PcSound(after, pc)
  {
  }

  lemma ChainFollows(db: Db, after: Db)
    requires Chain(db) && after.runs == db.runs && after.rounds == db.rounds
    ensures Chain(after)
  {
    forall id | id in after.rounds ensures RoundSound(after, id) {
      assert RoundSound(db, id);
    }
    forall run | run in after.runs ensures RunSound(after, run) {
      assert RunSound(db, run);
    }
  }

  // ---- creating runs and opening rounds ----------------------------------------------------

  lemma AddRunKeeps(s: Sys, run: string, row: Run)
    requires Sound(s)
    ensures Sound(DoAddRun(s, run, row))
  {
    hide RoundSound, RunSound, PcSound;
    var n := DoAddRun(s, run, row);
    if n != s {
      var db := s.w.db;
      forall id | id in db.rounds ensures RoundSound(n.w.db, id) && id.run != run {
        InsertKeepsRound(db, run, row, id);
      }
      forall r | r in n.w.db.runs ensures RunSound(n.w.db, r) {
        InsertKeepsRun(db, run, row, r);
      }
      forall p | p in n.closers ensures PcSound(n.w.db, n.closers[p]) {
        InsertKeepsPc(db, run, row, n.closers[p]);
      }
    }
  }

  lemma InsertKeepsRound(db: Db, run: string, row: Run, id: RoundId)
    requires InsertRun(db, run, row).Ok? && RoundSound(db, id)
    ensures RoundSound(InsertRun(db, run, row).value, id) && id.run != run
  {
  }

  lemma InsertKeepsRun(db: Db, run: string, row: Run, r: string)
    requires InsertRun(db, run, row).Ok? && (r == run || RunSound(db, r))
    ensures RunSound(InsertRun(db, run, row).value, r)
  {
  }

  lemma InsertKeepsPc(db: Db, run: string, row: Run, pc: Pc)
    requires InsertRun(db, run, row).Ok? && PcSound(db, pc)
    ensures PcSound(InsertRun(db, run, row).value, pc)
  {
  }

  /** Where a round may be opened: the first one of a run without rounds, or the one after a
      closed current round. */
  ghost predicate MayOpen(db: Db, id: RoundId) {
    && id !in db.rounds && id.run in db.runs
    && (var run := db.runs[id.run];
        || (id.idx == 0 && run.current == 0)
        || (id.idx == run.current + 1 && id.idx < run.target && run.status == Active
            && RoundIs(db, CurrentId(db, id.run), Closed) && db.rounds[CurrentId(db, id.run)].result.Some?))
  }

  lemma OpenKeepsRound(db: Db, id: RoundId, timing: Timing, now: int, o: RoundId)
    requires Chain(db) && MayOpen(db, id)
    requires var r := OpenRound(db, id, BaseKey(id.run, id.idx), timing, now); r.Ok? && o in r.value.rounds
    ensures RoundSound(OpenRound(db, id, BaseKey(id.run, id.idx), timing, now).value, o)
  {
    if o != id { assert RoundSound(db, o); }
    assert RunSound(db, id.run);
  }

  lemma OpenKeepsRun(db: Db, id: RoundId, timing: Timing, now: int, run: string)
    requires Chain(db) && MayOpen(db, id)
    requires var r := OpenRound(db, id, BaseKey(id.run, id.idx), timing, now); r.Ok? && run in r.value.runs
    ensures RunSound(OpenRound(db, id, BaseKey(id.run, id.idx), timing, now).value, run)
  {
    assert RunSound(db, run);
  }

  lemma OpenKeepsChain(db: Db, id: RoundId, timing: Timing, now: int)
    requires Chain(db) && MayOpen(db, id)
    ensures OpenRound(db, id, BaseKey(id.run, id.idx), timing, now).Ok?
    ensures Chain(OpenRound(db, id, BaseKey(id.run, id.idx), timing, now).value)
  {
    var after := OpenRound(db, id, BaseKey(id.run, id.idx), timing, now).value;
    forall o | o in after.rounds ensures RoundSound(after, o) {
      OpenKeepsRound(db, id, timing, now, o);
    }
    forall run | run in after.runs ensures RunSound(after, run) {
      OpenKeepsRun(db, id, timing, now, run);
    }
  }

  lemma OpenOthers(db: Db, id: RoundId, timing: Timing, now: int, pc: Pc)
    requires MayOpen(db, id) && PcSound(db, pc)
    requires RoundOf(pc).Some? && RoundOf(pc).value.run == id.run ==> !pc.Advancing?
    ensures PcSound(OpenRound(db, id, BaseKey(id.run, id.idx), timing, now).value, pc)
  {
  }

  lemma FirstHasNoCloser(s: Sys, run: string, p: nat)
    requires Sound(s) && run in s.w.db.runs && s.w.db.runs[run].current == 0 && RoundId(run, 0) !in s.w.db.rounds
    requires p in s.closers && RoundOf(s.closers[p]).Some?
    ensures RoundOf(s.closers[p]).value.run != run
  {
    var id := RoundOf(s.closers[p]).value;
    assert PcSound(s.w.db, s.closers[p]);
    assert RoundSound(s.w.db, id);
  }

  lemma OpenFirstKeeps(s: Sys, run: string, timing: Timing, now: int)
    requires Sound(s)
    ensures Sound(DoOpenFirst(s, run, timing, now))
  {
    hide RoundSound, RunSound, PcSound;
    var n := DoOpenFirst(s, run, timing, now);
    var first := RoundId(run, 0);
    if n != s && first !in s.w.db.rounds {
      OpenKeepsChain(s.w.db, first, timing, now);
      forall p | p in n.closers ensures PcSound(n.w.db, n.closers[p]) {
        if RoundOf(s.closers[p]).Some? { FirstHasNoCloser(s, run, p); }
        OpenOthers(s.w.db, first, timing, now, s.closers[p]);
      }
    }
  }

  // ---- closing --------------------------------------------------------------------------------

  lemma ClaimedRound(db: Db, id: RoundId)
    requires Chain(db) && RoundIs(db, id, Open)
    ensures RoundMoves(db.rounds[id], db.rounds[id].(status := Closing), id)
    ensures PcSound(ClaimClose(db, id).value, Claimed(id))
  {
    assert RoundSound(db, id);
  }

  lemma NobodyClosesOpen(s: Sys, id: RoundId, q: nat)
    requires ClosersSound(s) && RoundIs(s.w.db, id, Open) && q in s.closers
    ensures RoundOf(s.closers[q]) != Some(id)
  {
    assert PcSound(s.w.db, s.closers[q]);
  }

  lemma StartCloseKeeps(s: Sys, p: nat, id: RoundId)
    requires Sound(s)
    ensures Sound(DoStartClose(s, p, id))
  {
    hide RoundSound, RunSound, PcSound, RoundMoves;
    var n := DoStartClose(s, p, id);
    if n != s {
      ClaimedRound(s.w.db, id);
      RoundUpdateKeepsChain(s.w.db, id, s.w.db.rounds[id].(status := Closing));
      forall q | q in s.closers ensures RoundOf(s.closers[q]) != Some(id) && PcSound(n.w.db, s.closers[q]) {
        NobodyClosesOpen(s, id, q);
        OthersSound(s.w.db, n.w.db, s.closers[q], id);
      }
    }
  }

  /** Replacing one closer's place keeps exclusivity while it stays on its round. */
  lemma SameRoundExclusive(closers: map<nat, Pc>, p: nat, pc: Pc)
    requires Exclusive(closers) && p in closers
    requires RoundOf(pc).Some? ==> RoundOf(pc) == RoundOf(closers[p])
    ensures Exclusive(closers[p := pc])
  {
  }

  /** A close that changes no run and no round. */
  lemma QuietStep(s: Sys, p: nat, n: Sys, pc: Pc)
    requires Sound(s) && p in s.closers && PcSound(n.w.db, pc)
    requires n.w.db.runs == s.w.db.runs && n.w.db.rounds == s.w.db.rounds
    requires n.closers == s.closers[p := pc] && n.creations == s.creations
    requires RoundOf(pc).Some? ==> RoundOf(pc) == RoundOf(s.closers[p])
    ensures Sound(n)
  {
    var mid := n.(closers := s.closers);
    SameRounds(s, mid);
    SameRoundExclusive(s.closers, p, pc);
  }

  /** A close that changes its own round. */
  lemma OwnRoundStep(s: Sys, p: nat, n: Sys, pc: Pc, id: RoundId, r: Round)
    requires Sound(s) && p in s.closers && RoundOf(s.closers[p]) == Some(id) && id in s.w.db.rounds
    requires n.w.db.runs == s.w.db.runs && n.w.db.rounds == s.w.db.rounds[id := r]
    requires RoundMoves(s.w.db.rounds[id], r, id) && PcSound(n.w.db, pc)
    requires n.closers == s.closers[p := pc] && n.creations == s.creations
    requires RoundOf(pc).Some? ==> RoundOf(pc) == RoundOf(s.closers[p])
    ensures Sound(n)
  {
    hide RoundSound, RunSound, PcSound, RoundMoves;
    RoundUpdateKeepsChain(s.w.db, id, r);
    ChainFollows(s.w.db.(rounds := s.w.db.rounds[id := r]), n.w.db);
    SameRoundExclusive(s.closers, p, pc);
    forall q | q in n.closers ensures PcSound(n.w.db, n.closers[q]) {
      if q != p { OthersSound(s.w.db, n.w.db, s.closers[q], id); }
    }
  }

  lemma CommitMoves(db: Db, id: RoundId, result: Option<Key>)
    requires id in db.rounds && db.rounds[id].status == Closing && (result.Some? ==> result == Some(ResultKey(id)))
    ensures var n := CommitClose(db, id, result);
      && n.runs == db.runs && n.rounds == db.rounds[id := db.rounds[id].(status := Closed, result := result)]
      && RoundMoves(db.rounds[id], n.rounds[id], id)
  {
  }

  lemma CommitKeeps(s: Sys, p: nat, pc: Pc)
    requires Sound(s) && p in s.closers && s.closers[p] == pc && pc.Committing?
    ensures var next := Commit(s.w, pc); Sound(s.(w := next.0, closers := s.closers[p := next.1]))
  {
    hide CommitClose, RoundSound, RunSound, PcSound, RoundMoves, CreationsSound;
    var db, id := s.w.db, pc.job.id;
    var next := Commit(s.w, pc);
    CommittingIsClosing(db, pc);
    CommitMoves(db, id, pc.result);
    CommittedPc(db, pc);
    OwnRoundStep(s, p, s.(w := next.0, closers := s.closers[p := next.1]), next.1, id, next.0.db.rounds[id]);
  }

  lemma CommittingIsClosing(db: Db, pc: Pc)
    requires pc.Committing? && PcSound(db, pc)
    ensures RoundIs(db, pc.job.id, Closing) && (pc.result.Some? ==> pc.result == Some(ResultKey(pc.job.id)))
  {
  }

  lemma CommittedPc(db: Db, pc: Pc)
    requires Chain(db) && pc.Committing? && PcSound(db, pc)
    ensures var next := Commit(World(db, map[]), pc); PcSound(next.0.db, next.1)
  {
    var id := pc.job.id;
    assert RoundSound(db, id) && RunSound(db, id.run);
  }

  lemma ReleaseKeeps(s: Sys, p: nat, pc: Pc)
    requires Sound(s) && p in s.closers && s.closers[p] == pc && pc.Unwinding?
    ensures Sound(s.(w := s.w.(db := ReleaseClose(s.w.db, pc.id)), closers := s.closers[p := Ended]))
  {
    hide RoundSound, RunSound, PcSound, RoundMoves, CreationsSound;
    var n := s.(w := s.w.(db := ReleaseClose(s.w.db, pc.id)), closers := s.closers[p := Ended]);
    UnwindingKnown(s.w.db, pc);
    EndedIsSound(n.w.db);
    if s.w.db.rounds[pc.id].status == Closing {
      ReleasedRound(s.w.db, pc.id);
      OwnRoundStep(s, p, n, Ended, pc.id, n.w.db.rounds[pc.id]);
    } else {
      QuietStep(s, p, n, Ended);
    }
  }

  lemma UnwindingKnown(db: Db, pc: Pc)
    requires pc.Unwinding? && PcSound(db, pc)
    ensures pc.id in db.rounds
  {
  }

  lemma ReleasedRound(db: Db, id: RoundId)
    requires Chain(db) && RoundIs(db, id, Closing)
    ensures RoundMoves(db.rounds[id], db.rounds[id].(status := Open), id)
  {
    assert RoundSound(db, id);
  }

  // ---- advancing -----------------------------------------------------------------------------

  lemma AdvancingMayOpen(db: Db, pc: Pc)
    requires Chain(db) && pc.Advancing? && PcSound(db, pc) && pc.job.id.idx + 1 < pc.job.run.target
    ensures MayOpen(db, RoundId(pc.job.id.run, pc.job.id.idx + 1))
    ensures pc.published == BaseKey(pc.job.id.run, pc.job.id.idx + 1)
  {
    var id := pc.job.id;
    var next := RoundId(id.run, id.idx + 1);
    assert RoundSound(db, id);
    assert next in db.rounds ==> RoundSound(db, next);
  }

  lemma OnlyAdvancer(s: Sys, p: nat, q: nat)
    requires Sound(s) && p in s.closers && q in s.closers && p != q
    requires s.closers[p].Advancing? && s.closers[q].Advancing?
    ensures s.closers[p].job.id.run != s.closers[q].job.id.run
  {
    assert PcSound(s.w.db, s.closers[p]) && PcSound(s.w.db, s.closers[q]);
  }

  lemma AdvanceKeeps(s: Sys, p: nat, pc: Pc, now: int)
    requires Sound(s) && p in s.closers && s.closers[p] == pc && pc.Advancing?
    ensures var next := Advance(s.w, pc, now); Sound(s.(w := next.0, closers := s.closers[p := next.1]))
  {
    hide RoundSound, RunSound, PcSound, Foldable;
    if !Foldable(pc.job.rates) {
      FailCloseKeeps(s, p);
    } else if pc.job.id.idx + 1 < pc.job.run.target {
      NextRoundKeeps(s, p, pc, now);
    } else {
      FinishKeeps(s, p, pc, now);
    }
  }

  lemma NextRoundKeeps(s: Sys, p: nat, pc: Pc, now: int)
    requires Sound(s) && p in s.closers && s.closers[p] == pc && pc.Advancing? && pc.job.id.idx + 1 < pc.job.run.target
    requires Foldable(pc.job.rates)
    ensures var next := Advance(s.w, pc, now); Sound(s.(w := next.0, closers := s.closers[p := next.1]))
  {
    hide RoundSound, RunSound, PcSound;
    var db, id := s.w.db, RoundId(pc.job.id.run, pc.job.id.idx + 1);
    AdvancingMayOpen(db, pc);
    OpenKeepsChain(db, id, TimingOf(pc.job.round), now);
    SameRoundExclusive(s.closers, p, Ended);
    var next := Advance(s.w, pc, now);
    var n := s.(w := next.0, closers := s.closers[p := next.1]);
    forall q | q in n.closers ensures PcSound(n.w.db, n.closers[q]) {
      if q == p {
        EndedIsSound(n.w.db);
      } else {
        if s.closers[q].Advancing? { OnlyAdvancer(s, p, q); }
        OpenOthers(db, id, TimingOf(pc.job.round), now, s.closers[q]);
      }
    }
    AdvancingHasRound(s.w.db, pc);
  }

  lemma AdvancingHasRound(db: Db, pc: Pc)
    requires pc.Advancing? && PcSound(db, pc)
    ensures pc.job.id in db.rounds && pc.job.id.run in db.runs
  {
  }

  lemma EndedIsSound(db: Db)
    ensures PcSound(db, Ended)
  {
  }

  lemma FinishKeepsChain(db: Db, pc: Pc)
    requires Chain(db) && pc.Advancing? && PcSound(db, pc) && pc.job.id.idx + 1 >= pc.job.run.target
    ensures Chain(FinishRun(db, pc.job.id.run))
  {
    var after := FinishRun(db, pc.job.id.run);
    forall id | id in after.rounds ensures RoundSound(after, id) {
      assert RoundSound(db, id);
    }
    forall r | r in after.runs ensures RunSound(after, r) {
      assert RunSound(db, r);
    }
  }

  lemma FinishOthers(db: Db, run: string, pc: Pc)
    requires PcSound(db, pc) && run in db.runs && (pc.Advancing? ==> pc.job.id.run != run)
    ensures PcSound(FinishRun(db, run), pc)
  {
  }

  lemma FinishKeeps(s: Sys, p: nat, pc: Pc, now: int)
    requires Sound(s) && p in s.closers && s.closers[p] == pc && pc.Advancing? && pc.job.id.idx + 1 >= pc.job.run.target
    requires Foldable(pc.job.rates)
    ensures var next := Advance(s.w, pc, now); Sound(s.(w := next.0, closers := s.closers[p := next.1]))
  {
    hide RoundSound, RunSound, PcSound;
    var next := Advance(s.w, pc, now);
    var n := s.(w := next.0, closers := s.closers[p := next.1]);
    AdvancingHasRound(s.w.db, pc);
    FinishKeepsChain(s.w.db, pc);
    forall q | q in n.closers ensures PcSound(n.w.db, n.closers[q]) {
      if q == p {
        EndedIsSound(n.w.db);
      } else {
        if s.closers[q].Advancing? { OnlyAdvancer(s, p, q); }
        FinishOthers(s.w.db, pc.job.id.run, s.closers[q]);
      }
    }
    SameRoundExclusive(s.closers, p, Ended);
  }

  // ---- the remaining steps of a close ----------------------------------------------------------

  /** Steps that touch no run and no round: reading, fetching, judging, combining, putting. */
  ghost predicate QuietPc(pc: Pc) {
    !pc.NamingMomentum? && !pc.Committing? && !pc.Advancing? && !pc.Unwinding?
  }

  /** A close that moves on within the same job, before its commit. */
  ghost predicate SameJob(pc: Pc, next: Pc) {
    && HasJob(pc) && BeforeCommit(pc)
    && (next.Unwinding? ==> next.id == pc.job.id)
    && (!next.Unwinding? ==> HasJob(next) && BeforeCommit(next) && next.job == pc.job.(rates := next.job.rates))
    && (next.Committing? && next.result.Some? ==> next.result == Some(ResultKey(pc.job.id)))
  }

  lemma SameJobSound(db: Db, after: Db, pc: Pc, next: Pc)
    requires PcSound(db, pc) && SameJob(pc, next) && after.runs == db.runs && after.rounds == db.rounds
    ensures RoundOf(next) == RoundOf(pc) && PcSound(after, next)
  {
  }

  lemma JobStep(w: World, pc: Pc, c: Choice, cfg: Config)
    requires HasJob(pc) && QuietPc(pc)
    ensures var next := Step(w, pc, c, cfg);
      next.0.db.runs == w.db.runs && next.0.db.rounds == w.db.rounds && SameJob(pc, next.1)
  {
    hide CombineKept, Verdicts, IsQueryOrder, Entries, Fetch, SaveAdapter, Works;
  }

  lemma QuietPcStep(w: World, pc: Pc, c: Choice, cfg: Config)
    requires Chain(w.db) && PcSound(w.db, pc) && QuietPc(pc) && CanStep(w, pc, c)
    ensures var next := Step(w, pc, c, cfg);
      && next.0.db.runs == w.db.runs && next.0.db.rounds == w.db.rounds
      && (RoundOf(next.1).Some? ==> RoundOf(next.1) == RoundOf(pc))
      && PcSound(next.0.db, next.1)
  {
    if pc.Claimed? {
      ClaimedStep(w, pc, c, cfg);
    } else if !pc.Ended? {
      var next := Step(w, pc, c, cfg);
      hide Step, PcSound;
      JobStep(w, pc, c, cfg);
      SameJobSound(w.db, next.0.db, pc, next.1);
    }
  }

  lemma ClaimedStep(w: World, pc: Pc, c: Choice, cfg: Config)
    requires Chain(w.db) && PcSound(w.db, pc) && pc.Claimed? && CanStep(w, pc, c)
    ensures var next := Step(w, pc, c, cfg);
      next.0 == w && RoundOf(next.1) == RoundOf(pc) && PcSound(w.db, next.1)
  {
    hide Entries, PcSound, IsQueryOrder;
    QueriedPc(w, pc, c);
  }

  lemma QueriedPc(w: World, pc: Pc, c: Choice)
    requires Chain(w.db) && PcSound(w.db, pc) && pc.Claimed? && CanStep(w, pc, c)
    ensures PcSound(w.db, Query(w, pc.id, c.order))
  {
    hide Entries;
    assert RoundSound(w.db, pc.id) && RunSound(w.db, pc.id.run);
  }

  lemma NameMomentumKeeps(s: Sys, p: nat, pc: Pc)
    requires Sound(s) && p in s.closers && s.closers[p] == pc && pc.NamingMomentum?
    ensures var db, next := NameMomentum(s.w.db, pc.job.id.run), Committing(pc.job, Some(ResultKey(pc.job.id)));
      Sound(s.(w := s.w.(db := db), closers := s.closers[p := next]))
  {
    hide RoundSound, RunSound, PcSound;
    var db, next := NameMomentum(s.w.db, pc.job.id.run), Committing(pc.job, Some(ResultKey(pc.job.id)));
    var n := s.(w := s.w.(db := db), closers := s.closers[p := next]);
    NamedPc(s.w.db, pc, pc.job.id.run);
    NamedChain(s.w.db, pc.job.id.run);
    forall q | q in n.closers ensures PcSound(db, n.closers[q]) {
      if q != p { NamedPc(s.w.db, s.closers[q], pc.job.id.run); }
    }
    SameRoundExclusive(s.closers, p, next);
  }

  lemma NamedPc(db: Db, pc: Pc, run: string)
    requires PcSound(db, pc)
    ensures PcSound(NameMomentum(db, run), pc)
    ensures pc.NamingMomentum? ==> pc.job.id.run in db.runs && PcSound(NameMomentum(db, run), Committing(pc.job, Some(ResultKey(pc.job.id))))
  {
  }

  lemma NamedChain(db: Db, run: string)
    requires Chain(db) && run in db.runs
    ensures Chain(NameMomentum(db, run))
  {
    var after := NameMomentum(db, run);
    forall id | id in after.rounds ensures RoundSound(after, id) {
      assert RoundSound(db, id);
    }
    forall r | r in after.runs ensures RunSound(after, r) {
      assert RunSound(db, r);
    }
  }

  lemma StepCloseKeeps(s: Sys, p: nat, c: Choice, cfg: Config)
    requires Sound(s)
    ensures Sound(DoStepClose(s, p, c, cfg))
  {
    hide RoundSound, RunSound, PcSound, IsQueryOrder;
    if p in s.closers && CanStep(s.w, s.closers[p], c) {
      var pc := s.closers[p];
      if QuietPc(pc) {
        QuietPcStep(s.w, pc, c, cfg);
        QuietStep(s, p, DoStepClose(s, p, c, cfg), Step(s.w, pc, c, cfg).1);
      } else {
        LoudStepKeeps(s, p, c, cfg);
      }
    }
  }

  lemma LoudStepKeeps(s: Sys, p: nat, c: Choice, cfg: Config)
    requires Sound(s) && p in s.closers && !QuietPc(s.closers[p])
    ensures Sound(DoStepClose(s, p, c, cfg))
  {
    hide Sound, Commit, Advance, ReleaseClose, NameMomentum;
    match s.closers[p]
    case NamingMomentum(_) => NameMomentumKeeps(s, p, s.closers[p]);
    case Committing(_, _) => CommitKeeps(s, p, s.closers[p]);
    case Advancing(_, _) => AdvanceKeeps(s, p, s.closers[p], c.now);
    case Unwinding(_) => ReleaseKeeps(s, p, s.closers[p]);
  }

  lemma FailCloseKeeps(s: Sys, p: nat)
    requires Sound(s)
    ensures Sound(DoFailClose(s, p))
  {
    hide RoundSound, RunSound;
    if p in s.closers && RoundOf(s.closers[p]).Some? {
      assert PcSound(s.w.db, s.closers[p]);
      QuietStep(s, p, DoFailClose(s, p), Unwinding(RoundOf(s.closers[p]).value));
    }
  }

  lemma RestartKeeps(s: Sys, id: RoundId, now: int)
    requires Sound(s)
    ensures Sound(WithDb(s, ReopenEmptyRound(s.w.db, id, now)))
  {
    hide RoundSound, RunSound;
    var n := WithDb(s, ReopenEmptyRound(s.w.db, id, now));
    if ShouldRestart(s.w.db, id, now) {
      RestartedRound(s.w.db, id, now);
      RoundUpdateKeepsChain(s.w.db, id, s.w.db.rounds[id].(openedAt := now));
      forall q | q in n.closers ensures PcSound(n.w.db, n.closers[q]) {
        assert PcSound(s.w.db, s.closers[q]);
        OthersSound(s.w.db, n.w.db, s.closers[q], id);
      }
    }
  }

  lemma RestartedRound(db: Db, id: RoundId, now: int)
    requires Chain(db) && RoundIs(db, id, Open)
    ensures RoundMoves(db.rounds[id], db.rounds[id].(openedAt := now), id)
  {
    assert RoundSound(db, id);
  }

  // ---- every step, every run -----------------------------------------------------------------------

  /** Actions on tasks and submissions, which touch neither runs nor rounds nor any close. */
  ghost predicate TaskAction(a: Action) {
    a.Expire? || a.ClaimWork? || a.Beat? || a.GiveUp? || a.Submit? || a.GateWrite?
  }

  /** Actions on the store and on requests in progress. */
  ghost predicate StoreAction(a: Action) {
    a.PutSeed? || a.Upload? || a.GateRead? || a.GateCrash? || a.PlanGc? || a.Delete?
  }

  ghost predicate Bystander(a: Action) {
    TaskAction(a) || StoreAction(a)
  }

  /** Runs, rounds, closes, creations and the store are as before. */
  ghost predicate OnlyTasks(s: Sys, n: Sys) {
    && n.w.db.runs == s.w.db.runs && n.w.db.rounds == s.w.db.rounds && n.closers == s.closers && n.creations == s.creations
    && n.w.store == s.w.store && n.doomed == s.doomed
  }

  lemma LeaseActionFrame(s: Sys, a: Action, cfg: Config)
    requires a.Expire? || a.ClaimWork? || a.Beat? || a.GiveUp?
    ensures OnlyTasks(s, Apply(s, a, cfg))
  {
    hide Grants, LeasedTask, Overdue, HolderError, Further;
  }

  lemma SubmitActionFrame(s: Sys, a: Action, cfg: Config)
    requires a.Submit? || a.GateWrite?
    ensures OnlyTasks(s, Apply(s, a, cfg))
  {
    hide HolderError, ArtifactOf;
  }

  lemma TaskActionFrame(s: Sys, a: Action, cfg: Config)
    requires TaskAction(a)
    ensures var n := Apply(s, a, cfg);
      && n.w.db.runs == s.w.db.runs && n.w.db.rounds == s.w.db.rounds && n.closers == s.closers && n.creations == s.creations
      && n.w.store == s.w.store && n.doomed == s.doomed
  {
    hide Apply;
    if a.Submit? || a.GateWrite? {
      SubmitActionFrame(s, a, cfg);
    } else {
      LeaseActionFrame(s, a, cfg);
    }
  }

  lemma StoreActionFrame(s: Sys, a: Action, cfg: Config)
    requires StoreAction(a)
    ensures var n := Apply(s, a, cfg);
      && n.w.db == s.w.db && n.closers == s.closers
      && (n.creations == s.creations || (a.PutSeed? && a.run !in s.w.db.runs && n.creations == s.creations[a.run := SeedPut]))
  {
    hide GateVerdict, Expected, GcCandidates, WellFormedAdapter, Finite, ArtifactOf;
  }

  lemma BystanderKeeps(s: Sys, a: Action, cfg: Config)
    requires Sound(s) && Bystander(a)
    ensures Sound(Apply(s, a, cfg))
  {
    hide Apply, RoundSound, RunSound, PcSound;
    var n := Apply(s, a, cfg);
    if TaskAction(a) {
      TaskActionFrame(s, a, cfg);
    } else {
      StoreActionFrame(s, a, cfg);
    }
    SameRounds(s, n.(creations := s.creations));
  }

  lemma CrashKeeps(s: Sys, p: nat)
    requires Sound(s)
    ensures Sound(s.(closers := s.closers - {p}))
  {
    hide RoundSound, RunSound, PcSound;
  }

  /** Every step of the system keeps the chain and the close protocol. */
  lemma ActionKeepsSound(s: Sys, a: Action, cfg: Config)
    requires Sound(s)
    ensures Sound(Apply(s, a, cfg))
  {
    hide Sound, DoAddRun, DoOpenFirst, DoStartClose, DoStepClose, DoFailClose, ReopenEmptyRound, Bystander;
    if Bystander(a) {
      BystanderKeeps(s, a, cfg);
    } else {
      BystandersOnly(a);
      match a
      case AddRun(run, row) => AddRunKeeps(s, run, row);
      case OpenFirst(run, timing, now) => OpenFirstKeeps(s, run, timing, now);
      case Restart(id, now) => RestartKeeps(s, id, now);
      case StartClose(p, id) => StartCloseKeeps(s, p, id);
      case StepClose(p, c) => StepCloseKeeps(s, p, c, cfg);
      case FailClose(p) => FailCloseKeeps(s, p);
      case CrashClose(p) => CrashKeeps(s, p);
      case _ =>
    }
  }

  lemma BystandersOnly(a: Action)
    requires !Bystander(a)
    ensures a.AddRun? || a.OpenFirst? || a.Restart? || a.StartClose? || a.StepClose? || a.FailClose? || a.CrashClose?
  {
  }

  lemma {:induction false} EveryRunIsSound(actions: seq<Action>, cfg: Config)
    ensures Sound(After(actions, cfg))
  {
    if actions == [] {
      assert Sound(Empty());
    } else {
      EveryRunIsSound(actions[..|actions| - 1], cfg);
      ActionKeepsSound(After(actions[..|actions| - 1], cfg), actions[|actions| - 1], cfg);
    }
  }

  lemma {:induction false} EarlierRoundsExist(db: Db, id: RoundId, i: nat)
    requires Chain(db) && id in db.rounds && i <= id.idx
    ensures RoundId(id.run, i) in db.rounds
    decreases id.idx
  {
    if i < id.idx {
      assert RoundSound(db, id);
      EarlierRoundsExist(db, RoundId(id.run, id.idx - 1), i);
    }
  }

  /** A run's rounds: exactly 0 .. current, fewer than the target (or the one first round), each
      closed on the base of the next, only the last perhaps not closed. */
  ghost predicate LinkedRounds(db: Db, run: string)
    requires run in db.runs
  {
    var r := db.runs[run];
    && (forall i: nat :: RoundId(run, i) in db.rounds <==> i <= r.current)
    && (r.current == 0 || r.current < r.target)
    && (forall i: nat :: i < r.current && RoundId(run, i) in db.rounds && RoundId(run, i + 1) in db.rounds ==>
          RoundIs(db, RoundId(run, i), Closed)
          && db.rounds[RoundId(run, i)].result == Some(db.rounds[RoundId(run, i + 1)].base))
  }

  lemma ChainLinks(db: Db, run: string)
    requires Chain(db) && run in db.runs && CurrentId(db, run) in db.rounds
    ensures LinkedRounds(db, run)
  {
    hide Chain, RoundSound;
    var r := db.runs[run];
    forall i: nat ensures RoundId(run, i) in db.rounds <==> i <= r.current {
      RoundsUpToCurrent(db, run, i);
    }
    CurrentBelowTarget(db, run);
    forall i: nat | i < r.current && RoundId(run, i) in db.rounds && RoundId(run, i + 1) in db.rounds
      ensures RoundIs(db, RoundId(run, i), Closed)
      ensures db.rounds[RoundId(run, i)].result == Some(db.rounds[RoundId(run, i + 1)].base)
    {
      OneLink(db, run, i);
    }
  }

  lemma RoundsUpToCurrent(db: Db, run: string, i: nat)
    requires Chain(db) && run in db.runs && CurrentId(db, run) in db.rounds
    ensures RoundId(run, i) in db.rounds <==> i <= db.runs[run].current
  {
    if RoundId(run, i) in db.rounds {
      assert RoundSound(db, RoundId(run, i));
    } else if i <= db.runs[run].current {
      EarlierRoundsExist(db, CurrentId(db, run), i);
    }
  }

  lemma CurrentBelowTarget(db: Db, run: string)
    requires Chain(db) && run in db.runs && CurrentId(db, run) in db.rounds
    ensures db.runs[run].current == 0 || db.runs[run].current < db.runs[run].target
  {
    assert RoundSound(db, CurrentId(db, run));
  }

  lemma OneLink(db: Db, run: string, i: nat)
    requires Chain(db) && run in db.runs && i < db.runs[run].current
    requires RoundId(run, i) in db.rounds && RoundId(run, i + 1) in db.rounds
    ensures RoundIs(db, RoundId(run, i), Closed)
    ensures db.rounds[RoundId(run, i)].result == Some(db.rounds[RoundId(run, i + 1)].base)
  {
    assert RoundSound(db, RoundId(run, i)) && RoundSound(db, RoundId(run, i + 1));
  }

  /** At most one caller holds any round, and a round that a caller is closing is its run's
      current one. */
  ghost predicate OneCloser(s: Sys) {
    && (forall p, q ::
          (p in s.closers && q in s.closers && RoundOf(s.closers[p]).Some? && RoundOf(s.closers[p]) == RoundOf(s.closers[q]))
            ==> p == q)
    && (forall p :: p in s.closers && BeforeCommit(s.closers[p]) ==>
          var id := RoundOf(s.closers[p]).value; RoundIs(s.w.db, id, Closing) && id.run in s.w.db.runs && id == CurrentId(s.w.db, id.run))
  }

  ghost predicate AllLinked(db: Db) {
    forall run :: run in db.runs && CurrentId(db, run) in db.rounds ==> LinkedRounds(db, run)
  }

  lemma SoundHasOneCloser(s: Sys)
    requires Sound(s)
    ensures OneCloser(s)
  {
    hide RunSound, CreationsSound;
    forall p | p in s.closers && BeforeCommit(s.closers[p])
      ensures var id := RoundOf(s.closers[p]).value;
        RoundIs(s.w.db, id, Closing) && id.run in s.w.db.runs && id == CurrentId(s.w.db, id.run)
    {
      assert PcSound(s.w.db, s.closers[p]);
      assert RoundSound(s.w.db, RoundOf(s.closers[p]).value);
    }
  }

  lemma SoundIsLinked(s: Sys)
    requires Sound(s)
    ensures AllLinked(s.w.db)
  {
    hide LinkedRounds, ClosersSound, CreationsSound, Chain;
    forall run | run in s.w.db.runs && CurrentId(s.w.db, run) in s.w.db.rounds ensures LinkedRounds(s.w.db, run) {
      ChainLinks(s.w.db, run);
    }
  }

  /** Close protocol safety: in every state any interleaving can reach, a run's rounds form one
      linked chain, at most one caller holds any round, and a round that a caller is closing is the
      run's current one. */
  lemma {:induction false} CloseProtocolIsSafe(actions: seq<Action>, cfg: Config)
    ensures OneCloser(After(actions, cfg)) && AllLinked(After(actions, cfg).w.db)
  {
    hide After, Sound, OneCloser, AllLinked;
    EveryRunIsSound(actions, cfg);
    SoundHasOneCloser(After(actions, cfg));
    SoundIsLinked(After(actions, cfg));
  }

  // ---- a closed round never changes again --------------------------------------------------------------

  lemma ClosedStaysThroughStep(s: Sys, p: nat, c: Choice, cfg: Config, id: RoundId)
    requires Sound(s) && RoundIs(s.w.db, id, Closed)
    ensures var n := DoStepClose(s, p, c, cfg); RoundIs(n.w.db, id, Closed) && n.w.db.rounds[id] == s.w.db.rounds[id]
  {
    hide IsQueryOrder, Chain;
    if p in s.closers && CanStep(s.w, s.closers[p], c) {
      var pc := s.closers[p];
      assert PcSound(s.w.db, pc);
      if QuietPc(pc) {
        assert Chain(s.w.db);
        QuietPcStep(s.w, pc, c, cfg);
        hide Step;
      } else {
        LoudStepFrame(s.w, pc, c, cfg, id);
      }
    }
  }

  lemma LoudStepFrame(w: World, pc: Pc, c: Choice, cfg: Config, id: RoundId)
    requires !QuietPc(pc) && PcSound(w.db, pc) && RoundIs(w.db, id, Closed)
    ensures var n := Step(w, pc, c, cfg).0; id in n.db.rounds && n.db.rounds[id] == w.db.rounds[id]
  {
  }

  /** Once closed, a round keeps its status, its base and its result for ever: it is closed once. */
  lemma ClosedStays(s: Sys, a: Action, cfg: Config, id: RoundId)
    requires Sound(s) && RoundIs(s.w.db, id, Closed)
    ensures var n := Apply(s, a, cfg); RoundIs(n.w.db, id, Closed) && n.w.db.rounds[id] == s.w.db.rounds[id]
  {
    hide Apply, Sound;
    if TaskAction(a) {
      TaskActionFrame(s, a, cfg);
    } else if StoreAction(a) {
      StoreActionFrame(s, a, cfg);
    } else {
      ClosedStaysOtherwise(s, a, cfg, id);
    }
  }

  lemma ClosedStaysOtherwise(s: Sys, a: Action, cfg: Config, id: RoundId)
    requires Sound(s) && RoundIs(s.w.db, id, Closed) && !Bystander(a)
    ensures var n := Apply(s, a, cfg); RoundIs(n.w.db, id, Closed) && n.w.db.rounds[id] == s.w.db.rounds[id]
  {
    hide Sound, DoStepClose, Bystander, Progress, Counted;
    BystandersOnly(a);
    if a.StepClose? {
      ClosedStaysThroughStep(s, a.p, a.choice, cfg, id);
    }
  }

  lemma {:induction false} ClosedForEver(actions: seq<Action>, n: nat, cfg: Config, id: RoundId)
    requires n <= |actions| && RoundIs(After(actions[..n], cfg).w.db, id, Closed)
    ensures RoundIs(After(actions, cfg).w.db, id, Closed)
    ensures After(actions, cfg).w.db.rounds[id] == After(actions[..n], cfg).w.db.rounds[id]
  {
    hide Apply, Sound;
    var last := |actions| - 1;
    if n == |actions| {
      assert actions[..n] == actions;
    } else {
      assert actions[..last][..n] == actions[..n];
      ClosedForEver(actions[..last], n, cfg, id);
      EveryRunIsSound(actions[..last], cfg);
      ClosedStays(After(actions[..last], cfg), actions[last], cfg, id);
    }
  }
}
