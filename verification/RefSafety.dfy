/** What the tables name is in the store. `tidy` adds what holds when workers upload before they
    submit and every run has a known combine mode: then the objects also fit, so that no
    aggregation of accepted work can fail. */
module RefSafety {
  import opened Wrappers
  import opened Tensors
  import opened OuterStep
  import opened Contributions
  import opened ObjectKeys
  import opened Tables
  import opened Rounds
  import opened Closer
  import opened System
  import opened CloseSafety
  import opened LeaseSafety

  // ---- objects ---------------------------------------------------------------------------

  ghost predicate HasSeed(store: Store, run: string) {
    Fetch(store, BaseKey(run, 0)).Some?
  }

  ghost function SeedOf(store: Store, run: string): Adapter
    requires HasSeed(store, run)
  {
    Fetch(store, BaseKey(run, 0)).value
  }

  /** A base that belongs to its run: the tensors of the run's seed, perhaps stretched, and in a tidy
      run with the seed's manifest. */
  ghost predicate GoodAdapter(store: Store, run: string, a: Adapter, tidy: bool) {
    && HasSeed(store, run) && WellFormedAdapter(a) && Grown(SeedOf(store, run), a)
    && (tidy ==> ManifestOf(a) == ManifestOf(SeedOf(store, run)) && Finite(a) && a != map[])
  }

  ghost predicate GoodBase(store: Store, run: string, idx: nat, tidy: bool) {
    Fetch(store, BaseKey(run, idx)).Some? && GoodAdapter(store, run, Fetch(store, BaseKey(run, idx)).value, tidy)
  }

  ghost predicate GoodMomentum(store: Store, run: string, m: Adapter) {
    HasSeed(store, run) && MomentumFits(m, SeedOf(store, run)) && WellFormedAdapter(m)
  }

  ghost predicate StoredMomentumGood(store: Store, run: string, tidy: bool) {
    && MomentumKey(run) in store
    && (tidy ==> Fetch(store, MomentumKey(run)).Some? && GoodMomentum(store, run, Fetch(store, MomentumKey(run)).value))
  }

  ghost predicate GoodArtifact(store: Store, run: string, key: Key) {
    key in store ==> HasSeed(store, run) && Usable(store[key], ManifestOf(SeedOf(store, run)))
  }

  ghost predicate GoodWork(store: Store, run: string, w: Contribution) {
    HasSeed(store, run) && Fits(w.adapter, SeedOf(store, run)) && w.steps > 0
  }

  // ---- references ------------------------------------------------------------------------

  ghost predicate RoundRefs(db: Db, store: Store, id: RoundId, tidy: bool)
    requires id in db.rounds
  {
    GoodBase(store, id.run, id.idx, tidy) && (db.rounds[id].result.Some? ==> GoodBase(store, id.run, id.idx + 1, tidy))
  }

  ghost predicate RunRefs(db: Db, store: Store, run: string, tidy: bool)
    requires run in db.runs
  {
    && (db.runs[run].momentum.Some? ==> StoredMomentumGood(store, run, tidy))
    && (tidy ==> KnownMode(db.runs[run].mode))
  }

  ghost predicate SubRefs(db: Db, store: Store, t: string)
    requires t in db.subs
  {
    t in db.tasks && (db.subs[t].accepted == Some(true) ==> GoodArtifact(store, db.tasks[t].round.run, ArtifactOf(db, t)))
  }

  ghost predicate GateRefs(s: Sys, t: string)
    requires t in s.gates
  {
    t in s.w.db.tasks && (s.gates[t] == Decided(true) ==> GoodArtifact(s.w.store, s.w.db.tasks[t].round.run, ArtifactOf(s.w.db, t)))
  }

  ghost predicate EntryGood(db: Db, store: Store, run: string, e: Entry) {
    && e.task in db.subs && e.task in db.tasks && e.artifact == ArtifactOf(db, e.task) && e.steps > 0
    && GoodArtifact(store, run, e.artifact)
  }

  ghost predicate TodoGood(db: Db, store: Store, run: string, todo: seq<Entry>) {
    forall i :: 0 <= i < |todo| ==> EntryGood(db, store, run, todo[i])
  }

  ghost predicate KeptGood(store: Store, run: string, kept: seq<Kept>) {
    forall i :: 0 <= i < |kept| ==> GoodWork(store, run, kept[i].work)
  }

  ghost predicate PendingGood(store: Store, run: string, pending: seq<Judged>) {
    forall i :: 0 <= i < |pending| ==> GoodWork(store, run, pending[i].kept.work)
  }

  ghost predicate HasBase(store: Store, job: Job, base: Adapter, tidy: bool) {
    Fetch(store, BaseKey(job.id.run, job.id.idx)) == Some(base) && GoodAdapter(store, job.id.run, base, tidy)
  }

  ghost predicate PcRefs(db: Db, store: Store, pc: Pc, tidy: bool) {
    match pc
    case Claimed(_) => true
    case Unwinding(_) => true
    case Ended => true
    case Loading(job, todo) => tidy ==> TodoGood(db, store, job.id.run, todo)
    case Fetching(job, base, todo, kept) =>
      HasBase(store, job, base, tidy) && (tidy ==> TodoGood(db, store, job.id.run, todo) && KeptGood(store, job.id.run, kept))
    case Judging(job, base, pending, kept) =>
      HasBase(store, job, base, tidy) && (tidy ==> PendingGood(store, job.id.run, pending) && KeptGood(store, job.id.run, kept))
    case Combining(job, base, kept) => HasBase(store, job, base, tidy) && (tidy ==> KeptGood(store, job.id.run, kept))
    case Publishing(job, outcome) =>
      && GoodAdapter(store, job.id.run, outcome.adapter, tidy)
      && (tidy && outcome.momentum.Some? ==> GoodMomentum(store, job.id.run, outcome.momentum.value))
    case SavingMomentum(job, m) =>
      GoodBase(store, job.id.run, job.id.idx + 1, tidy) && (tidy ==> GoodMomentum(store, job.id.run, m))
    case NamingMomentum(job) =>
      GoodBase(store, job.id.run, job.id.idx + 1, tidy) && StoredMomentumGood(store, job.id.run, tidy)
    case Committing(job, result) => result.Some? ==> GoodBase(store, job.id.run, job.id.idx + 1, tidy)
    case Advancing(job, _) => GoodBase(store, job.id.run, job.id.idx + 1, tidy)
  }

  /** Only submissions of closed rounds are ever marked for deletion. */
  ghost predicate DoomedRefs(db: Db, k: Key) {
    k.SubmissionKey? && RoundIs(db, RoundId(k.run, k.idx), Closed)
  }

  ghost predicate RoundsPart(db: Db, store: Store, tidy: bool) {
    forall id :: id in db.rounds ==> RoundRefs(db, store, id, tidy)
  }

  ghost predicate RunsPart(db: Db, store: Store, tidy: bool) {
    forall run :: run in db.runs ==> RunRefs(db, store, run, tidy)
  }

  ghost predicate SeedsPart(s: Sys, tidy: bool) {
    forall run :: run in s.creations ==> GoodBase(s.w.store, run, 0, tidy)
  }

  ghost predicate SubsPart(db: Db, store: Store) {
    forall t :: t in db.subs ==> SubRefs(db, store, t)
  }

  ghost predicate GatesPart(s: Sys) {
    forall t :: t in s.gates ==> GateRefs(s, t)
  }

  ghost predicate ClosersPart(s: Sys, tidy: bool) {
    forall p :: p in s.closers ==> PcRefs(s.w.db, s.w.store, s.closers[p], tidy)
  }

  ghost predicate DoomedPart(s: Sys) {
    forall k :: k in s.doomed ==> DoomedRefs(s.w.db, k)
  }

  ghost predicate RefsSound(s: Sys, tidy: bool) {
    && RoundsPart(s.w.db, s.w.store, tidy) && RunsPart(s.w.db, s.w.store, tidy) && SeedsPart(s, tidy)
    && (tidy ==> SubsPart(s.w.db, s.w.store) && GatesPart(s))
    && ClosersPart(s, tidy) && DoomedPart(s)
  }

  // ---- a write elsewhere changes nothing ---------------------------------------------------

  /** The two stores hold the same under a key. */
  ghost predicate SameAt(store: Store, n: Store, key: Key) {
    (key in store <==> key in n) && (key in store ==> n[key] == store[key])
  }

  lemma SeedFollows(store: Store, n: Store, run: string)
    requires SameAt(store, n, BaseKey(run, 0))
    ensures HasSeed(store, run) <==> HasSeed(n, run)
    ensures HasSeed(store, run) ==> SeedOf(n, run) == SeedOf(store, run)
  {
  }

  lemma BaseFollows(store: Store, n: Store, run: string, idx: nat, tidy: bool)
    requires GoodBase(store, run, idx, tidy) && SameAt(store, n, BaseKey(run, 0)) && SameAt(store, n, BaseKey(run, idx))
    ensures GoodBase(n, run, idx, tidy)
  {
    SeedFollows(store, n, run);
  }

  lemma MomentumFollows(store: Store, n: Store, run: string, tidy: bool)
    requires StoredMomentumGood(store, run, tidy) && SameAt(store, n, BaseKey(run, 0)) && SameAt(store, n, MomentumKey(run))
    ensures StoredMomentumGood(n, run, tidy)
  {
    SeedFollows(store, n, run);
  }

  lemma ArtifactFollows(store: Store, n: Store, run: string, key: Key)
    requires GoodArtifact(store, run, key) && SameAt(store, n, BaseKey(run, 0))
    requires key in n ==> SameAt(store, n, key)
    ensures GoodArtifact(n, run, key)
  {
    SeedFollows(store, n, run);
  }

  /** Keys a close in progress relies on staying as they are. */
  ghost predicate PcKeysSame(store: Store, n: Store, pc: Pc, tidy: bool) {
    HasJob(pc) ==>
      && SameAt(store, n, BaseKey(pc.job.id.run, 0))
      && SameAt(store, n, BaseKey(pc.job.id.run, pc.job.id.idx))
      && (!pc.Publishing? ==> SameAt(store, n, BaseKey(pc.job.id.run, pc.job.id.idx + 1)))
  }

  ghost predicate TodoKeysSame(store: Store, n: Store, todo: seq<Entry>) {
    forall i :: 0 <= i < |todo| && todo[i].artifact in n ==> SameAt(store, n, todo[i].artifact)
  }

  lemma TodoFollows(db: Db, store: Store, n: Store, run: string, todo: seq<Entry>)
    requires TodoGood(db, store, run, todo) && SameAt(store, n, BaseKey(run, 0)) && TodoKeysSame(store, n, todo)
    ensures TodoGood(db, n, run, todo)
  {
    hide GoodArtifact, SameAt;
    forall i | 0 <= i < |todo| ensures EntryGood(db, n, run, todo[i]) {
      assert EntryGood(db, store, run, todo[i]);
      ArtifactFollows(store, n, run, todo[i].artifact);
    }
  }

  lemma WorkFollows(store: Store, n: Store, run: string, w: Contribution)
    requires GoodWork(store, run, w) && SameAt(store, n, BaseKey(run, 0))
    ensures GoodWork(n, run, w)
  {
    SeedFollows(store, n, run);
  }

  lemma KeptFollows(store: Store, n: Store, run: string, kept: seq<Kept>)
    requires KeptGood(store, run, kept) && SameAt(store, n, BaseKey(run, 0))
    ensures KeptGood(n, run, kept)
  {
    hide GoodWork, SameAt;
    forall i | 0 <= i < |kept| ensures GoodWork(n, run, kept[i].work) {
      WorkFollows(store, n, run, kept[i].work);
    }
  }

  lemma PendingFollows(store: Store, n: Store, run: string, pending: seq<Judged>)
    requires PendingGood(store, run, pending) && SameAt(store, n, BaseKey(run, 0))
    ensures PendingGood(n, run, pending)
  {
    hide GoodWork, SameAt;
    forall i | 0 <= i < |pending| ensures GoodWork(n, run, pending[i].kept.work) {
      WorkFollows(store, n, run, pending[i].kept.work);
    }
  }

  function TodoOf(pc: Pc): seq<Entry> {
    if pc.Loading? || pc.Fetching? then pc.todo else []
  }

  lemma EarlyPcFollows(db: Db, store: Store, n: Store, pc: Pc, tidy: bool)
    requires pc.Loading? || pc.Fetching? || pc.Judging? || pc.Combining?
    requires PcRefs(db, store, pc, tidy) && PcKeysSame(store, n, pc, tidy)
    requires tidy ==> TodoKeysSame(store, n, TodoOf(pc))
    ensures PcRefs(db, n, pc, tidy)
  {
    hide TodoGood, KeptGood, PendingGood, TodoKeysSame;
    var run := pc.job.id.run;
    SeedFollows(store, n, run);
    if tidy {
      if pc.Loading? || pc.Fetching? { TodoFollows(db, store, n, run, pc.todo); }
      if pc.Fetching? || pc.Judging? || pc.Combining? { KeptFollows(store, n, run, pc.kept); }
      if pc.Judging? { PendingFollows(store, n, run, pc.pending); }
    }
  }

  lemma LatePcFollows(db: Db, store: Store, n: Store, pc: Pc, tidy: bool)
    requires pc.Publishing? || pc.SavingMomentum? || pc.NamingMomentum? || pc.Committing? || pc.Advancing?
    requires PcRefs(db, store, pc, tidy) && PcKeysSame(store, n, pc, tidy)
    requires pc.NamingMomentum? ==> SameAt(store, n, MomentumKey(pc.job.id.run))
    ensures PcRefs(db, n, pc, tidy)
  {
    hide GoodBase, StoredMomentumGood;
    var run, idx := pc.job.id.run, pc.job.id.idx;
    SeedFollows(store, n, run);
    if pc.NamingMomentum? { MomentumFollows(store, n, run, tidy); }
    if !pc.Publishing? && (pc.Committing? ==> pc.result.Some?) { BaseFollows(store, n, run, idx + 1, tidy); }
  }

  // ---- the tables move on over one store -------------------------------------------------------

  /** Nothing is closed, submitted or accepted that was not, and no task moves. */
  ghost predicate RowsStay(db: Db, n: Db) {
    && (forall id :: RoundIs(db, id, Closed) ==> RoundIs(n, id, Closed))
    && (forall t :: t in db.tasks ==> t in n.tasks && n.tasks[t].round == db.tasks[t].round)
    && (forall t :: t in db.subs ==> t in n.subs)
    && (forall t :: t in n.subs && n.subs[t].accepted == Some(true) ==> t in db.subs && db.subs[t].accepted == Some(true))
    && n.subs.Keys <= n.tasks.Keys
  }

  lemma PcRowsStay(db: Db, n: Db, store: Store, pc: Pc, tidy: bool)
    requires PcRefs(db, store, pc, tidy) && RowsStay(db, n)
    ensures PcRefs(n, store, pc, tidy)
  {
    hide GoodArtifact, GoodWork, GoodBase, HasBase, GoodAdapter;
    if tidy && (pc.Loading? || pc.Fetching?) {
      forall i | 0 <= i < |pc.todo| ensures EntryGood(n, store, pc.job.id.run, pc.todo[i]) {
        assert EntryGood(db, store, pc.job.id.run, pc.todo[i]);
      }
    }
  }

  lemma SubsStay(db: Db, n: Db, store: Store)
    requires SubsPart(db, store) && RowsStay(db, n)
    ensures SubsPart(n, store)
  {
    hide GoodArtifact;
    forall t | t in n.subs ensures SubRefs(n, store, t) {
      if n.subs[t].accepted == Some(true) { assert SubRefs(db, store, t); }
    }
  }

  lemma GatesStay(s: Sys, n: Sys)
    requires GatesPart(s) && RowsStay(s.w.db, n.w.db) && n.w.store == s.w.store
    requires forall t :: t in n.gates ==> t in n.w.db.tasks && (n.gates[t] == Decided(true) ==> t in s.gates && s.gates[t] == Decided(true))
    ensures GatesPart(n)
  {
    hide GoodArtifact;
    forall t | t in n.gates ensures GateRefs(n, t) {
      if n.gates[t] == Decided(true) { assert GateRefs(s, t); }
    }
  }

  lemma DoomedStay(s: Sys, n: Sys)
    requires DoomedPart(s) && n.doomed <= s.doomed && forall id :: RoundIs(s.w.db, id, Closed) ==> RoundIs(n.w.db, id, Closed)
    ensures DoomedPart(n)
  {
  }

  /** Requests being gated stay on known tasks, and only GateRead decides for them. */
  ghost predicate GatesOk(s: Sys, n: Sys) {
    forall t :: t in n.gates ==> t in n.w.db.tasks && (n.gates[t] == Decided(true) ==> t in s.gates && s.gates[t] == Decided(true))
  }

  /** Every closer but perhaps p is where it was. */
  ghost predicate OthersStay(s: Sys, n: Sys, p: nat) {
    forall q :: q in n.closers && q != p ==> q in s.closers && n.closers[q] == s.closers[q]
  }

  /** A step over an unchanged store. */
  lemma TablesMove(s: Sys, n: Sys, p: nat, tidy: bool)
    requires RefsSound(s, tidy) && RowsStay(s.w.db, n.w.db) && n.w.store == s.w.store && n.doomed == s.doomed
    requires RoundsPart(n.w.db, n.w.store, tidy) && RunsPart(n.w.db, n.w.store, tidy)
    requires n.creations.Keys <= s.creations.Keys && GatesOk(s, n) && OthersStay(s, n, p)
    requires p in n.closers ==> PcRefs(n.w.db, n.w.store, n.closers[p], tidy)
    ensures RefsSound(n, tidy)
  {
    hide RoundsPart, RunsPart, SubsPart, GatesPart, DoomedPart, RowsStay, PcRefs, GoodBase;
    if tidy {
      SubsStay(s.w.db, n.w.db, s.w.store);
      GatesStay(s, n);
    }
    forall q | q in n.closers ensures PcRefs(n.w.db, n.w.store, n.closers[q], tidy) {
      if q != p { PcRowsStay(s.w.db, n.w.db, s.w.store, s.closers[q], tidy); }
    }
    DoomedMove(s, n);
  }

  lemma DoomedMove(s: Sys, n: Sys)
    requires DoomedPart(s) && n.doomed == s.doomed && RowsStay(s.w.db, n.w.db)
    ensures DoomedPart(n)
  {
    DoomedStay(s, n);
  }

  /** Rounds and runs as far as references go. */
  ghost predicate NamesStay(db: Db, n: Db) {
    && n.runs.Keys == db.runs.Keys && n.rounds.Keys == db.rounds.Keys
    && (forall id :: id in n.rounds && n.rounds[id].result.Some? ==> db.rounds[id].result.Some?)
    && (forall run :: run in n.runs ==> n.runs[run].momentum == db.runs[run].momentum && n.runs[run].mode == db.runs[run].mode)
  }

  lemma NamesKeep(db: Db, n: Db, store: Store, tidy: bool)
    requires RoundsPart(db, store, tidy) && RunsPart(db, store, tidy) && NamesStay(db, n)
    ensures RoundsPart(n, store, tidy) && RunsPart(n, store, tidy)
  {
    hide GoodBase, StoredMomentumGood;
    forall id | id in n.rounds ensures RoundRefs(n, store, id, tidy) {
      assert RoundRefs(db, store, id, tidy);
    }
    forall run | run in n.runs ensures RunRefs(n, store, run, tidy) {
      assert RunRefs(db, store, run, tidy);
    }
  }

  lemma QuietTables(s: Sys, n: Sys, p: nat, tidy: bool)
    requires RefsSound(s, tidy) && RowsStay(s.w.db, n.w.db) && NamesStay(s.w.db, n.w.db)
    requires n.w.store == s.w.store && n.doomed == s.doomed
    requires n.creations.Keys <= s.creations.Keys && GatesOk(s, n) && OthersStay(s, n, p)
    requires p in n.closers ==> PcRefs(n.w.db, n.w.store, n.closers[p], tidy)
    ensures RefsSound(n, tidy)
  {
    hide RoundsPart, RunsPart, RowsStay, NamesStay, PcRefs, GatesOk, OthersStay;
    NamesKeep(s.w.db, n.w.db, s.w.store, tidy);
    TablesMove(s, n, p, tidy);
  }
}
