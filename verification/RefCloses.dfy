/** The steps of a close keep references sound, and put every object before naming it. */
module RefCloses {
  import opened Wrappers
  import opened Tensors
  import opened NormGate
  import opened OuterStep
  import opened Broadcasting
  import opened Divergence
  import DominanceCap
  import opened Contributions
  import opened ObjectKeys
  import opened Tables
  import opened Rounds
  import opened Closer
  import opened System
  import opened CloseSafety
  import opened LeaseSafety
  import opened RefSafety
  import opened RefSteps

  // ---- writing a base nobody relies on yet ----------------------------------------------

  /** No row, creation or other close relies on this base. */
  ghost predicate FreeBase(s: Sys, run: string, idx: nat, p: nat) {
    && (forall id :: id in s.w.db.rounds && id.run == run ==>
          idx != 0 && id.idx != idx && (s.w.db.rounds[id].result.Some? ==> id.idx + 1 != idx))
    && (forall q :: q in s.closers && q != p && HasJob(s.closers[q]) && s.closers[q].job.id.run == run ==>
          idx != 0 && s.closers[q].job.id.idx != idx && (!s.closers[q].Publishing? ==> s.closers[q].job.id.idx + 1 != idx))
  }

  ghost predicate OnlyAt(store: Store, n: Store, k: Key) {
    forall key :: key != k ==> SameAt(store, n, key)
  }

  lemma FreeRound(s: Sys, n: Sys, run: string, idx: nat, p: nat, id: RoundId, tidy: bool)
    requires FreeBase(s, run, idx, p) && OnlyAt(s.w.store, n.w.store, BaseKey(run, idx)) && n.w.db == s.w.db
    requires id in s.w.db.rounds && RoundRefs(s.w.db, s.w.store, id, tidy)
    ensures RoundRefs(n.w.db, n.w.store, id, tidy)
  {
    hide GoodBase, SameAt;
    BaseFollows(s.w.store, n.w.store, id.run, id.idx, tidy);
    if s.w.db.rounds[id].result.Some? { BaseFollows(s.w.store, n.w.store, id.run, id.idx + 1, tidy); }
  }

  lemma FreePc(s: Sys, n: Sys, run: string, idx: nat, p: nat, q: nat, tidy: bool)
    requires FreeBase(s, run, idx, p) && OnlyAt(s.w.store, n.w.store, BaseKey(run, idx)) && n.w.db == s.w.db
    requires q in s.closers && q != p && PcRefs(s.w.db, s.w.store, s.closers[q], tidy)
    ensures PcRefs(n.w.db, n.w.store, s.closers[q], tidy)
  {
    hide GoodArtifact, GoodWork, GoodBase, HasBase, GoodAdapter, StoredMomentumGood, SameAt, KeptGood, PendingGood, GoodMomentum;
    var pc := s.closers[q];
    if pc.Loading? || pc.Fetching? || pc.Judging? || pc.Combining? {
      if tidy {
        forall i | 0 <= i < |TodoOf(pc)| && TodoOf(pc)[i].artifact in n.w.store
          ensures SameAt(s.w.store, n.w.store, TodoOf(pc)[i].artifact)
        {
          assert EntryGood(s.w.db, s.w.store, pc.job.id.run, TodoOf(pc)[i]);
        }
      }
      EarlyPcFollows(s.w.db, s.w.store, n.w.store, pc, tidy);
    } else if HasJob(pc) {
      LatePcFollows(s.w.db, s.w.store, n.w.store, pc, tidy);
    }
  }

  /** The seed of every run that has tasks is another key. */
  ghost predicate SeedsApart(db: Db, run: string, idx: nat) {
    forall t :: t in db.tasks && db.tasks[t].round.run == run ==> idx != 0
  }

  lemma FreeRows(s: Sys, n: Sys, run: string, idx: nat)
    requires SeedsApart(s.w.db, run, idx) && OnlyAt(s.w.store, n.w.store, BaseKey(run, idx)) && n.w.db == s.w.db && n.gates == s.gates
    requires SubsPart(s.w.db, s.w.store) && GatesPart(s)
    ensures SubsPart(n.w.db, n.w.store) && GatesPart(n)
  {
    hide GoodArtifact, SameAt;
    forall t | t in n.w.db.subs ensures SubRefs(n.w.db, n.w.store, t) {
      assert SubRefs(s.w.db, s.w.store, t);
      if n.w.db.subs[t].accepted == Some(true) {
        ArtifactFollows(s.w.store, n.w.store, s.w.db.tasks[t].round.run, ArtifactOf(s.w.db, t));
      }
    }
    forall t | t in n.gates ensures GateRefs(n, t) {
      assert GateRefs(s, t);
      if n.gates[t] == Decided(true) {
        ArtifactFollows(s.w.store, n.w.store, s.w.db.tasks[t].round.run, ArtifactOf(s.w.db, t));
      }
    }
  }

  lemma FreeRun(s: Sys, n: Sys, run: string, idx: nat, r: string, tidy: bool)
    requires OnlyAt(s.w.store, n.w.store, BaseKey(run, idx)) && n.w.db == s.w.db && (r == run ==> idx != 0)
    requires r in s.w.db.runs && RunRefs(s.w.db, s.w.store, r, tidy)
    ensures RunRefs(n.w.db, n.w.store, r, tidy)
  {
    hide SameAt, StoredMomentumGood;
    if s.w.db.runs[r].momentum.Some? { MomentumFollows(s.w.store, n.w.store, r, tidy); }
  }

  lemma BaseWriteRefs(s: Sys, n: Sys, run: string, idx: nat, p: nat, tidy: bool)
    requires RefsSound(s, tidy) && FreeBase(s, run, idx, p) && OnlyAt(s.w.store, n.w.store, BaseKey(run, idx))
    requires n.w.db == s.w.db && n.gates == s.gates && n.doomed == s.doomed && OthersStay(s, n, p)
    requires run in s.w.db.runs ==> idx != 0
    requires SeedsApart(s.w.db, run, idx)
    requires forall r :: r in n.creations && r !in s.creations ==> r == run && idx == 0
    requires idx == 0 ==> GoodBase(n.w.store, run, 0, tidy)
    requires p in n.closers ==> PcRefs(n.w.db, n.w.store, n.closers[p], tidy)
    ensures RefsSound(n, tidy)
  {
    hide RoundRefs, RunRefs, GoodBase, PcRefs, SubRefs, GateRefs, FreeBase, OnlyAt, DoomedRefs;
    forall id | id in n.w.db.rounds ensures RoundRefs(n.w.db, n.w.store, id, tidy) {
      FreeRound(s, n, run, idx, p, id, tidy);
    }
    forall r | r in n.w.db.runs ensures RunRefs(n.w.db, n.w.store, r, tidy) {
      FreeRun(s, n, run, idx, r, tidy);
    }
    if tidy { FreeRows(s, n, run, idx); }
    forall q | q in n.closers ensures PcRefs(n.w.db, n.w.store, n.closers[q], tidy) {
      if q != p { FreePc(s, n, run, idx, p, q, tidy); }
    }
    forall r | r in n.creations ensures GoodBase(n.w.store, r, 0, tidy) {
      if r != run || idx != 0 { FreeSeed(s.w.store, n.w.store, run, idx, r, tidy); }
    }
  }

  lemma FreeSeed(store: Store, n: Store, run: string, idx: nat, r: string, tidy: bool)
    requires OnlyAt(store, n, BaseKey(run, idx)) && (r != run || idx != 0) && GoodBase(store, r, 0, tidy)
    ensures GoodBase(n, r, 0, tidy)
  {
    BaseFollows(store, n, r, 0, tidy);
  }

  // ---- the seed of a new run -----------------------------------------------------------------

  lemma UnknownRunIsFree(s: Sys, run: string, p: nat)
    requires Sound(s) && WorkSound(s) && run !in s.w.db.runs
    ensures FreeBase(s, run, 0, p) && SeedsApart(s.w.db, run, 0)
  {
    forall id | id in s.w.db.rounds ensures id.run != run {
      assert RoundSound(s.w.db, id);
    }
    forall q | q in s.closers && HasJob(s.closers[q]) ensures s.closers[q].job.id.run != run {
      assert PcSound(s.w.db, s.closers[q]);
    }
    forall t | t in s.w.db.tasks ensures s.w.db.tasks[t].round.run != run {
      assert TaskSound(s.w.db, t);
    }
  }

  lemma PutSeedRefs(s: Sys, run: string, seed: Adapter, tidy: bool)
    requires AllSound(s, tidy) && (tidy ==> seed != map[])
    ensures RefsSound(DoPutSeed(s, run, seed), tidy)
  {
    hide Sound, WorkSound, RefsSound, FreeBase, PcRefs, SeedsApart;
    var n := DoPutSeed(s, run, seed);
    if n != s {
      UnknownRunIsFree(s, run, 0);
      UnknownRunIsFree(s, run, 1);
      SeedIsGood(s.w.store, run, seed, tidy);
      if 0 in s.closers { PutSeedPc(s, run, seed, tidy); }
      BaseWriteRefs(s, n, run, 0, 0, tidy);
    }
  }

  lemma PutSeedPc(s: Sys, run: string, seed: Adapter, tidy: bool)
    requires RefsSound(s, tidy) && 0 in s.closers && FreeBase(s, run, 0, 1)
    ensures PcRefs(s.w.db, DoPutSeed(s, run, seed).w.store, s.closers[0], tidy)
  {
    hide FreeBase, PcRefs;
    var n := DoPutSeed(s, run, seed);
    if n != s { FreePc(s, n, run, 0, 1, 0, tidy); }
  }

  lemma SeedIsGood(store: Store, run: string, seed: Adapter, tidy: bool)
    requires WellFormedAdapter(seed) && Finite(seed) && (tidy ==> seed != map[])
    ensures GoodBase(store[BaseKey(run, 0) := SaveAdapter(seed)], run, 0, tidy)
  {
    hide Into;
    forall name | name in seed ensures Into(seed[name].shape, seed[name].shape) {
      IntoItself(seed[name].shape);
    }
  }

  // ---- the reading steps ------------------------------------------------------------------------

  lemma QueriedEntry(s: Sys, id: RoundId, t: string, tidy: bool)
    requires AllSound(s, tidy) && tidy && t in s.w.db.subs && t in s.w.db.tasks && s.w.db.tasks[t].round == id
    requires s.w.db.subs[t].accepted == Some(true)
    ensures EntryGood(s.w.db, s.w.store, id.run, Entry(t, s.w.db.subs[t].artifact, s.w.db.subs[t].steps, s.w.db.subs[t].metrics))
  {
    hide GoodArtifact, Sound, RoundsPart, RunsPart, GatesPart, ClosersPart, DoomedPart, OneLease;
    assert SubSound(s.w.db, t) && SubRefs(s.w.db, s.w.store, t);
  }

  lemma QueryRefs(s: Sys, id: RoundId, order: seq<string>, tidy: bool)
    requires AllSound(s, tidy) && IsQueryOrder(s.w.db, id, order)
    ensures PcRefs(s.w.db, s.w.store, Query(s.w, id, order), tidy)
  {
    hide EntryGood, AllSound;
    if tidy {
      forall i | 0 <= i < |order| ensures EntryGood(s.w.db, s.w.store, id.run, Entries(s.w.db, order)[i]) {
        assert order[i] in order;
        QueriedEntry(s, id, order[i], tidy);
      }
    }
  }

  lemma LoadRefs(s: Sys, pc: Pc, io: bool, tidy: bool)
    requires AllSound(s, tidy) && pc.Loading? && PcSound(s.w.db, pc) && PcRefs(s.w.db, s.w.store, pc, tidy)
    ensures PcRefs(s.w.db, s.w.store, Load(s.w, pc.job, pc.todo, io), tidy)
    ensures io ==> Load(s.w, pc.job, pc.todo, io).Fetching?
  {
    hide Sound, WorkSound, RunsPart, SubsPart, GatesPart, ClosersPart, DoomedPart, TodoGood, GoodAdapter;
    assert RoundRefs(s.w.db, s.w.store, pc.job.id, tidy);
  }

  lemma FetchedIsGood(db: Db, store: Store, run: string, e: Entry)
    requires EntryGood(db, store, run, e) && Fetch(store, e.artifact).Some?
    ensures GoodWork(store, run, Contribution(Fetch(store, e.artifact).value, e.steps))
  {
  }

  lemma FetchNextRefs(db: Db, store: Store, pc: Pc, io: bool, tidy: bool)
    requires pc.Fetching? && pc.todo != [] && PcRefs(db, store, pc, tidy)
    ensures PcRefs(db, store, FetchNext(World(db, store), pc, io).1, tidy)
  {
    hide EntryGood, GoodWork, HasBase, Fetch;
    if tidy && io && Fetch(store, pc.todo[0].artifact).Some? {
      FetchedIsGood(db, store, pc.job.id.run, pc.todo[0]);
    }
  }

  lemma JudgeNextRefs(db: Db, store: Store, pc: Pc, tidy: bool)
    requires pc.Judging? && pc.pending != [] && PcRefs(db, store, pc, tidy)
    ensures PcRefs(db, store, JudgeNext(World(db, store), pc).1, tidy)
  {
    hide GoodWork, HasBase;
  }

  lemma JudgeRefs(db: Db, store: Store, pc: Pc, cfg: Config, tidy: bool)
    requires pc.Fetching? && pc.todo == [] && PcRefs(db, store, pc, tidy)
    ensures PcRefs(db, store, Judge(pc.job, pc.base, pc.kept, cfg), tidy)
  {
    hide GoodWork, HasBase, Verdicts;
  }

  /** Gate 4 looks up every tensor it names. */
  lemma JudgeCannotFail(db: Db, store: Store, pc: Pc, cfg: Config)
    requires pc.Fetching? && pc.todo == [] && PcRefs(db, store, pc, true)
    ensures var next := Judge(pc.job, pc.base, pc.kept, cfg); next.Judging? || next.Combining?
  {
    var adapters := Adapters(Works(pc.kept));
    forall i | 0 <= i < |adapters| ensures adapters[i].Keys == pc.base.Keys {
      assert GoodWork(store, pc.job.id.run, pc.kept[i].work);
      KeysOfManifest(adapters[i], SeedOf(store, pc.job.id.run));
      KeysOfManifest(pc.base, SeedOf(store, pc.job.id.run));
    }
    hide VerdictOf, PcRefs;
    assert SharedNames(adapters);
  }

  lemma KeysOfManifest(a: Adapter, b: Adapter)
    requires ManifestOf(a) == ManifestOf(b)
    ensures a.Keys == b.Keys
  {
    assert ManifestOf(a).Keys == a.Keys && ManifestOf(b).Keys == b.Keys;
  }

  // ---- combining ------------------------------------------------------------------------------------

  lemma FitsSeedFitsBase(store: Store, job: Job, base: Adapter, a: Adapter)
    requires HasBase(store, job, base, true) && Fits(a, SeedOf(store, job.id.run))
    ensures Fits(a, base)
  {
    hide Grown;
  }

  lemma MomentumFollowsManifest(m: Adapter, a: Adapter, b: Adapter)
    requires MomentumFits(m, a) && ManifestOf(a) == ManifestOf(b)
    ensures MomentumFits(m, b) && WellFormedAdapter(m)
  {
    KeysOfManifest(a, b);
    forall name | name in b ensures m[name].Dense? && m[name].shape == b[name].shape && WellFormed(m[name]) {
      assert ManifestOf(a)[name].shape == ManifestOf(b)[name].shape;
    }
  }

  lemma KeptFitsBase(store: Store, job: Job, base: Adapter, kept: seq<Kept>)
    requires HasBase(store, job, base, true) && KeptGood(store, job.id.run, kept)
    ensures AllWorkFits(Works(kept), base)
    ensures forall i :: 0 <= i < |kept| ==> kept[i].work.steps > 0
  {
    hide Fits, HasBase;
    var adapters := Adapters(Works(kept));
    forall i | 0 <= i < |adapters| ensures Fits(adapters[i], base) {
      assert GoodWork(store, job.id.run, kept[i].work);
      FitsSeedFitsBase(store, job, base, adapters[i]);
    }
    forall i | 0 <= i < |kept| ensures kept[i].work.steps > 0 {
      assert GoodWork(store, job.id.run, kept[i].work);
    }
  }

  lemma StoredMomentumFits(s: Sys, job: Job, base: Adapter, io: bool)
    requires AllSound(s, true) && JobSound(s.w.db, job) && HasBase(s.w.store, job, base, true)
    ensures var m := StoredMomentum(s.w.store, job.run, io); m.Some? ==> MomentumFits(m.value, base)
  {
    hide Sound, WorkSound, SubsPart, GatesPart, ClosersPart, DoomedPart, RoundsPart, MomentumFits;
    assert RunRefs(s.w.db, s.w.store, job.id.run, true);
    if job.run.momentum.Some? && io {
      MomentumFollowsManifest(StoredMomentum(s.w.store, job.run, io).value, SeedOf(s.w.store, job.id.run), base);
    }
  }

  lemma PublishedGrows(base: Adapter, work: seq<Contribution>, cap: Option<real>, run: Run, m: Option<Adapter>)
    requires WellFormedAdapter(base) && Published(base, work, cap, run.mode, run.lr, run.beta, m).Some?
    ensures var a := Published(base, work, cap, run.mode, run.lr, run.beta, m).value.adapter;
      WellFormedAdapter(a) && Grown(base, a)
  {
    hide Combined, SharesOf, Adapters, WellFormedAdapter, Grown;
    var shares := SharesOf(work, cap).value;
    SpreadLength(shares, base.Keys);
    CombinedGrows(base, Adapters(work), DominanceCap.Spread(shares, base.Keys), run.mode, run.lr, run.beta, m);
  }

  lemma GrownChains(a: Adapter, b: Adapter, c: Adapter)
    requires Grown(a, b) && Grown(b, c)
    ensures Grown(a, c)
  {
    hide Into;
    forall name | name in a ensures Into(a[name].shape, c[name].shape) {
      IntoChains(a[name].shape, b[name].shape, c[name].shape);
    }
  }

  lemma SameManifestGrows(a: Adapter, b: Adapter)
    requires ManifestOf(b) == ManifestOf(a)
    ensures Grown(a, b)
  {
    hide Into;
    KeysOfManifest(a, b);
    forall name | name in a ensures b[name].dtype == a[name].dtype && Into(a[name].shape, b[name].shape) {
      assert ManifestOf(b)[name] == ManifestOf(a)[name];
      IntoItself(a[name].shape);
    }
  }

  lemma PublishedFits(base: Adapter, work: seq<Contribution>, cap: Option<real>, run: Run, m: Option<Adapter>)
    requires WellFormedAdapter(base) && Finite(base) && AllWorkFits(work, base) && KnownMode(run.mode)
    requires (m.Some? ==> MomentumFits(m.value, base)) && SharesOf(work, cap).Some? && |SharesOf(work, cap).value| == |work|
    ensures var r := Published(base, work, cap, run.mode, run.lr, run.beta, m);
      r.Some? && Fits(r.value.adapter, base) && (r.value.momentum.Some? ==> MomentumFits(r.value.momentum.value, r.value.adapter))
  {
    hide Combined, SharesOf, Adapters, WellFormedAdapter, Finite, Fits, MomentumFits;
    var shares := SharesOf(work, cap).value;
    SpreadLength(shares, base.Keys);
    WorkFits(base, work);
    CombineCannotFail(base, Adapters(work), DominanceCap.Spread(shares, base.Keys), run.mode, run.lr, run.beta, m);
  }

  lemma WorkFits(base: Adapter, work: seq<Contribution>)
    requires AllWorkFits(work, base)
    ensures forall i :: 0 <= i < |Adapters(work)| ==> Fits(Adapters(work)[i], base)
  {
  }

  ghost predicate CapPositive(cfg: Config) {
    cfg.cap.Some? ==> cfg.cap.value > 0.0
  }

  lemma KeptShares(kept: seq<Kept>, cap: Option<real>)
    requires kept != [] && (cap.Some? ==> cap.value > 0.0) && forall i :: 0 <= i < |kept| ==> kept[i].work.steps > 0
    ensures SharesOf(Works(kept), cap).Some? && |SharesOf(Works(kept), cap).value| == |Works(kept)|
  {
    hide DominanceCap.FinalShares;
    DominanceCap.SharesNeverFail(Steps(Works(kept)), cap);
  }

  ghost predicate TidyCombine(s: Sys, pc: Pc) {
    AllSound(s, true) && pc.Combining? && PcSound(s.w.db, pc) && PcRefs(s.w.db, s.w.store, pc, true)
  }

  /** Aggregating accepted work cannot fail, and what it yields fits the run. */
  lemma CombineCannotRaise(s: Sys, pc: Pc, io: bool, cfg: Config)
    requires TidyCombine(s, pc) && CapPositive(cfg) && pc.kept != []
    ensures var r := CombineKept(s.w.store, pc.job, pc.base, pc.kept, io, cfg);
      && r.Some? && Fits(r.value.adapter, pc.base)
      && (r.value.momentum.Some? ==> MomentumFits(r.value.momentum.value, r.value.adapter))
  {
    hide Published, RefsSound, Sound, WorkSound, KeptGood, Fits, MomentumFits, AllWorkFits, SharesOf, Comparable, Grown;
    KeptFitsBase(s.w.store, pc.job, pc.base, pc.kept);
    WorkFits(pc.base, Works(pc.kept));
    FittingAreComparable(Adapters(Works(pc.kept)), pc.base);
    KeptShares(pc.kept, cfg.cap);
    StoredMomentumFits(s, pc.job, pc.base, io);
    ModeKnown(s, pc.job);
    PublishedFits(pc.base, Works(pc.kept), cfg.cap, pc.job.run, StoredMomentum(s.w.store, pc.job.run, io));
  }

  lemma ModeKnown(s: Sys, job: Job)
    requires RefsSound(s, true) && JobSound(s.w.db, job)
    ensures KnownMode(job.run.mode)
  {
    assert RunRefs(s.w.db, s.w.store, job.id.run, true);
  }

  lemma FitsGivesGood(store: Store, job: Job, base: Adapter, outcome: Outcome)
    requires HasBase(store, job, base, true) && Fits(outcome.adapter, base)
    requires outcome.momentum.Some? ==> MomentumFits(outcome.momentum.value, outcome.adapter)
    ensures GoodAdapter(store, job.id.run, outcome.adapter, true)
    ensures outcome.momentum.Some? ==> GoodMomentum(store, job.id.run, outcome.momentum.value)
  {
    hide MomentumFits, Grown;
    FittingBase(store, job, base, outcome.adapter);
    SameManifestGrows(SeedOf(store, job.id.run), outcome.adapter);
    if outcome.momentum.Some? {
      MomentumFollowsManifest(outcome.momentum.value, outcome.adapter, SeedOf(store, job.id.run));
    }
  }

  lemma FittingBase(store: Store, job: Job, base: Adapter, a: Adapter)
    requires HasBase(store, job, base, true) && Fits(a, base)
    ensures a != map[] && ManifestOf(a) == ManifestOf(SeedOf(store, job.id.run)) && WellFormedAdapter(a) && Finite(a)
  {
    hide Grown;
    KeysOfManifest(a, base);
  }

  lemma CombineRefs(s: Sys, pc: Pc, io: bool, cfg: Config, tidy: bool)
    requires AllSound(s, tidy) && pc.Combining? && PcSound(s.w.db, pc) && PcRefs(s.w.db, s.w.store, pc, tidy)
    requires tidy ==> CapPositive(cfg)
    ensures PcRefs(s.w.db, s.w.store, CombineStep(s.w, pc, io, cfg), tidy)
  {
    hide Published, AllSound, PcSound, KeptGood, GoodMomentum, Fits, MomentumFits;
    var r := CombineKept(s.w.store, pc.job, pc.base, pc.kept, io, cfg);
    if pc.kept != [] && r.Some? {
      if tidy {
        CombineCannotRaise(s, pc, io, cfg);
        FitsGivesGood(s.w.store, pc.job, pc.base, r.value);
      } else {
        PublishedGrows(pc.base, Works(pc.kept), cfg.cap, pc.job.run, StoredMomentum(s.w.store, pc.job.run, io));
        GrownChains(SeedOf(s.w.store, pc.job.id.run), pc.base, r.value.adapter);
      }
    }
  }

  // ---- the writing steps --------------------------------------------------------------------------------

  lemma NextBaseIsFree(s: Sys, p: nat)
    requires Sound(s) && p in s.closers && s.closers[p].Publishing?
    ensures FreeBase(s, s.closers[p].job.id.run, s.closers[p].job.id.idx + 1, p)
  {
    hide RoundSound, PcSound, Chain;
    var id := s.closers[p].job.id;
    forall o | o in s.w.db.rounds && o.run == id.run
      ensures o.idx != id.idx + 1 && (s.w.db.rounds[o].result.Some? ==> o.idx + 1 != id.idx + 1)
    {
      RoundBelowNext(s, p, o);
    }
    forall q | q in s.closers && q != p && HasJob(s.closers[q]) ensures s.closers[q].job.id.run != id.run {
      OnlyCloserOfRun(s, p, q);
    }
  }

  lemma RoundBelowNext(s: Sys, p: nat, o: RoundId)
    requires Sound(s) && p in s.closers && s.closers[p].Publishing?
    requires o in s.w.db.rounds && o.run == s.closers[p].job.id.run
    ensures o.idx <= s.closers[p].job.id.idx
    ensures s.w.db.rounds[o].result.Some? ==> o.idx != s.closers[p].job.id.idx
  {
    hide Exclusive, CreationsSound;
    assert PcSound(s.w.db, s.closers[p]);
    assert RoundSound(s.w.db, s.closers[p].job.id) && RoundSound(s.w.db, o);
  }

  /** While one close of a run is publishing, no other close of that run is at work. */
  lemma OnlyCloserOfRun(s: Sys, p: nat, q: nat)
    requires Sound(s) && p in s.closers && s.closers[p].Publishing?
    requires q in s.closers && q != p && HasJob(s.closers[q])
    ensures s.closers[q].job.id.run != s.closers[p].job.id.run
  {
    hide RoundSound, Chain, CreationsSound;
    assert PcSound(s.w.db, s.closers[p]);
    assert PcSound(s.w.db, s.closers[q]);
    if s.closers[q].job.id.run == s.closers[p].job.id.run {
      ClosedBeforeCurrent(s.w.db, s.closers[p].job.id, s.closers[q].job.id);
    }
  }

  lemma ClosedBeforeCurrent(db: Db, id: RoundId, o: RoundId)
    requires Chain(db) && id in db.rounds && o in db.rounds && o.run == id.run && db.rounds[id].status != Closed
    ensures o.idx <= id.idx && id.run in db.runs && db.runs[id.run].current == id.idx
    ensures o.idx < id.idx ==> db.rounds[o].status == Closed
  {
    assert RoundSound(db, id) && RoundSound(db, o);
  }

  lemma SavedBaseIsGood(store: Store, run: string, idx: nat, a: Adapter, tidy: bool)
    requires GoodAdapter(store, run, a, tidy) && idx != 0
    ensures GoodBase(store[BaseKey(run, idx) := SaveAdapter(a)], run, idx, tidy)
  {
    SeedFollows(store, store[BaseKey(run, idx) := SaveAdapter(a)], run);
  }

  lemma PublishedPc(db: Db, store: Store, pc: Pc, tidy: bool)
    requires pc.Publishing? && PcRefs(db, store, pc, tidy)
    ensures var next := Publish(World(db, store), pc); PcRefs(db, next.0.store, next.1, tidy)
  {
    hide GoodAdapter, GoodBase;
    SavedBaseIsGood(store, pc.job.id.run, pc.job.id.idx + 1, pc.outcome.adapter, tidy);
    SeedFollows(store, store[ResultKey(pc.job.id) := SaveAdapter(pc.outcome.adapter)], pc.job.id.run);
  }

  lemma PublishRefs(s: Sys, p: nat, pc: Pc, tidy: bool)
    requires AllSound(s, tidy) && p in s.closers && s.closers[p] == pc && pc.Publishing?
    ensures var next := Publish(s.w, pc); RefsSound(s.(w := next.0, closers := s.closers[p := next.1]), tidy)
  {
    hide Sound, WorkSound, RoundsPart, RunsPart, SeedsPart, SubsPart, GatesPart, DoomedPart, PcRefs, FreeBase, SeedsApart, GoodBase;
    var next := Publish(s.w, pc);
    NextBaseIsFree(s, p);
    PublishedPc(s.w.db, s.w.store, pc, tidy);
    LaterApart(s.w.db, pc.job.id);
    BaseWriteRefs(s, s.(w := next.0, closers := s.closers[p := next.1]), pc.job.id.run, pc.job.id.idx + 1, p, tidy);
  }

  lemma LaterApart(db: Db, id: RoundId)
    ensures SeedsApart(db, id.run, id.idx + 1)
  {
  }

  // ---- momentum is put before it is named ------------------------------------------------------------------

  lemma MomentumWriteRun(db: Db, store: Store, n: Store, run: string, r: string, tidy: bool)
    requires OnlyAt(store, n, MomentumKey(run)) && StoredMomentumGood(n, run, tidy) && r in db.runs && RunRefs(db, store, r, tidy)
    ensures RunRefs(db, n, r, tidy)
  {
    hide SameAt, StoredMomentumGood;
    if db.runs[r].momentum.Some? && r != run { MomentumFollows(store, n, r, tidy); }
  }

  lemma MomentumWritePc(db: Db, store: Store, n: Store, run: string, pc: Pc, tidy: bool)
    requires OnlyAt(store, n, MomentumKey(run)) && StoredMomentumGood(n, run, tidy) && PcRefs(db, store, pc, tidy)
    ensures PcRefs(db, n, pc, tidy)
  {
    hide GoodArtifact, GoodWork, GoodBase, HasBase, GoodAdapter, StoredMomentumGood, SameAt, KeptGood, PendingGood, GoodMomentum;
    if pc.Loading? || pc.Fetching? || pc.Judging? || pc.Combining? {
      if tidy {
        forall i | 0 <= i < |TodoOf(pc)| && TodoOf(pc)[i].artifact in n ensures SameAt(store, n, TodoOf(pc)[i].artifact) {
          assert EntryGood(db, store, pc.job.id.run, TodoOf(pc)[i]);
        }
      }
      EarlyPcFollows(db, store, n, pc, tidy);
    } else if pc.NamingMomentum? && pc.job.id.run == run {
      BaseFollows(store, n, run, pc.job.id.idx + 1, tidy);
    } else if HasJob(pc) {
      LatePcFollows(db, store, n, pc, tidy);
    }
  }

  lemma MomentumWriteRows(s: Sys, n: Sys, run: string)
    requires OnlyAt(s.w.store, n.w.store, MomentumKey(run)) && n.w.db == s.w.db && n.gates == s.gates
    requires SubsPart(s.w.db, s.w.store) && GatesPart(s)
    ensures SubsPart(n.w.db, n.w.store) && GatesPart(n)
  {
    hide GoodArtifact, SameAt;
    forall t | t in n.w.db.subs ensures SubRefs(n.w.db, n.w.store, t) {
      assert SubRefs(s.w.db, s.w.store, t);
      if n.w.db.subs[t].accepted == Some(true) {
        ArtifactFollows(s.w.store, n.w.store, s.w.db.tasks[t].round.run, ArtifactOf(s.w.db, t));
      }
    }
    forall t | t in n.gates ensures GateRefs(n, t) {
      assert GateRefs(s, t);
      if n.gates[t] == Decided(true) {
        ArtifactFollows(s.w.store, n.w.store, s.w.db.tasks[t].round.run, ArtifactOf(s.w.db, t));
      }
    }
  }

  lemma MomentumWriteRounds(db: Db, store: Store, n: Store, run: string, id: RoundId, tidy: bool)
    requires OnlyAt(store, n, MomentumKey(run)) && id in db.rounds && RoundRefs(db, store, id, tidy)
    ensures RoundRefs(db, n, id, tidy)
  {
    hide GoodBase, SameAt;
    BaseFollows(store, n, id.run, id.idx, tidy);
    if db.rounds[id].result.Some? { BaseFollows(store, n, id.run, id.idx + 1, tidy); }
  }

  lemma MomentumWriteRefs(s: Sys, n: Sys, run: string, p: nat, tidy: bool)
    requires RefsSound(s, tidy) && OnlyAt(s.w.store, n.w.store, MomentumKey(run)) && StoredMomentumGood(n.w.store, run, tidy)
    requires n.w.db == s.w.db && n.gates == s.gates && n.doomed == s.doomed && n.creations == s.creations && OthersStay(s, n, p)
    requires p in n.closers ==> PcRefs(n.w.db, n.w.store, n.closers[p], tidy)
    ensures RefsSound(n, tidy)
  {
    hide RoundRefs, RunRefs, GoodBase, PcRefs, SubRefs, GateRefs, StoredMomentumGood, OnlyAt, DoomedRefs;
    forall id | id in n.w.db.rounds ensures RoundRefs(n.w.db, n.w.store, id, tidy) {
      MomentumWriteRounds(s.w.db, s.w.store, n.w.store, run, id, tidy);
    }
    forall r | r in n.w.db.runs ensures RunRefs(n.w.db, n.w.store, r, tidy) {
      MomentumWriteRun(s.w.db, s.w.store, n.w.store, run, r, tidy);
    }
    if tidy { MomentumWriteRows(s, n, run); }
    forall q | q in n.closers ensures PcRefs(n.w.db, n.w.store, n.closers[q], tidy) {
      if q != p { MomentumWritePc(s.w.db, s.w.store, n.w.store, run, s.closers[q], tidy); }
    }
    forall r | r in n.creations ensures GoodBase(n.w.store, r, 0, tidy) {
      MomentumWriteSeed(s.w.store, n.w.store, run, r, tidy);
    }
  }

  lemma MomentumWriteSeed(store: Store, n: Store, run: string, r: string, tidy: bool)
    requires OnlyAt(store, n, MomentumKey(run)) && GoodBase(store, r, 0, tidy)
    ensures GoodBase(n, r, 0, tidy)
  {
    BaseFollows(store, n, r, 0, tidy);
  }

  lemma SavedMomentumPc(db: Db, store: Store, job: Job, m: Adapter, tidy: bool)
    requires PcRefs(db, store, SavingMomentum(job, m), tidy)
    ensures var n := store[MomentumKey(job.id.run) := SaveAdapter(m)];
      StoredMomentumGood(n, job.id.run, tidy) && PcRefs(db, n, NamingMomentum(job), tidy)
  {
    hide GoodBase, MomentumFits;
    var n := store[MomentumKey(job.id.run) := SaveAdapter(m)];
    BaseFollows(store, n, job.id.run, job.id.idx + 1, tidy);
    SeedFollows(store, n, job.id.run);
  }

  lemma SaveMomentumRefs(s: Sys, p: nat, job: Job, m: Adapter, tidy: bool)
    requires AllSound(s, tidy) && p in s.closers && s.closers[p] == SavingMomentum(job, m)
    ensures RefsSound(s.(w := s.w.(store := s.w.store[MomentumKey(job.id.run) := SaveAdapter(m)]),
                         closers := s.closers[p := NamingMomentum(job)]), tidy)
  {
    hide Sound, WorkSound, RoundsPart, RunsPart, SeedsPart, SubsPart, GatesPart, DoomedPart, PcRefs, StoredMomentumGood, GoodBase;
    SavedMomentumPc(s.w.db, s.w.store, job, m, tidy);
    MomentumWriteRefs(s, s.(w := s.w.(store := s.w.store[MomentumKey(job.id.run) := SaveAdapter(m)]),
                            closers := s.closers[p := NamingMomentum(job)]), job.id.run, p, tidy);
  }

  // ---- the steps on the tables -----------------------------------------------------------------------------

  lemma VerdictRows(db: Db, t: string)
    requires db.subs.Keys <= db.tasks.Keys
    ensures RowsStay(db, RecordVerdict(db, t, false)) && NamesStay(db, RecordVerdict(db, t, false))
    ensures RecordVerdict(db, t, false).tasks == db.tasks
  {
  }

  /** Closer p moves on over the tables n.w.db. */
  ghost predicate CloserMoves(s: Sys, n: Sys, p: nat, pc: Pc) {
    && n.w.store == s.w.store && n.doomed == s.doomed && n.creations == s.creations && n.gates == s.gates
    && n.closers == s.closers[p := pc] && n.w.db.tasks.Keys == s.w.db.tasks.Keys
  }

  lemma QuietCloser(s: Sys, n: Sys, p: nat, pc: Pc, tidy: bool)
    requires AllSound(s, tidy) && CloserMoves(s, n, p, pc)
    requires RowsStay(s.w.db, n.w.db) && NamesStay(s.w.db, n.w.db) && PcRefs(n.w.db, n.w.store, pc, tidy)
    ensures RefsSound(n, tidy)
  {
    hide Sound, LeaseSound, GateSound, RefsSound, RowsStay, NamesStay, PcRefs;
    GatedAreTasks(s);
    QuietTables(s, n, p, tidy);
  }

  lemma VerdictStep(s: Sys, n: Sys, p: nat, pc: Pc, t: string, tidy: bool)
    requires AllSound(s, tidy) && CloserMoves(s, n, p, pc) && PcRefs(s.w.db, s.w.store, pc, tidy)
    requires n.w.db == s.w.db || n.w.db == RecordVerdict(s.w.db, t, false)
    ensures RefsSound(n, tidy)
  {
    hide Sound, LeaseSound, GateSound, RefsSound, PcRefs, RecordVerdict;
    SubsAreTasks(s.w.db);
    VerdictRows(s.w.db, t);
    PcRowsStay(s.w.db, n.w.db, s.w.store, pc, tidy);
    QuietCloser(s, n, p, pc, tidy);
  }

  lemma FetchingRefs(s: Sys, p: nat, c: Choice, cfg: Config, tidy: bool)
    requires AllSound(s, tidy) && p in s.closers && s.closers[p].Fetching?
    ensures RefsSound(DoStepClose(s, p, c, cfg), tidy)
  {
    hide Sound, LeaseSound, GateSound, RoundsPart, RunsPart, SubsPart, GatesPart, DoomedPart, SeedsPart, PcRefs, RecordVerdict;
    var pc := s.closers[p];
    if pc.todo == [] {
      JudgeRefs(s.w.db, s.w.store, pc, cfg, tidy);
      VerdictStep(s, DoStepClose(s, p, c, cfg), p, Judge(pc.job, pc.base, pc.kept, cfg), "", tidy);
    } else {
      FetchNextRefs(s.w.db, s.w.store, pc, c.io, tidy);
      VerdictMoves(s.w.db, pc.todo[0].task);
      VerdictStep(s, DoStepClose(s, p, c, cfg), p, FetchNext(s.w, pc, c.io).1, pc.todo[0].task, tidy);
    }
  }

  lemma VerdictMoves(db: Db, t: string)
    ensures RecordVerdict(db, t, false).tasks == db.tasks
  {
  }

  lemma JudgingRefs(s: Sys, p: nat, c: Choice, cfg: Config, tidy: bool)
    requires AllSound(s, tidy) && p in s.closers && s.closers[p].Judging?
    ensures RefsSound(DoStepClose(s, p, c, cfg), tidy)
  {
    hide Sound, LeaseSound, GateSound, RoundsPart, RunsPart, SubsPart, GatesPart, DoomedPart, SeedsPart, PcRefs, RecordVerdict;
    var pc := s.closers[p];
    if pc.pending == [] {
      JudgedRefs(s.w.db, s.w.store, pc, tidy);
      VerdictStep(s, DoStepClose(s, p, c, cfg), p, Combining(pc.job, pc.base, pc.kept), "", tidy);
    } else {
      JudgeNextRefs(s.w.db, s.w.store, pc, tidy);
      VerdictMoves(s.w.db, pc.pending[0].kept.task);
      VerdictStep(s, DoStepClose(s, p, c, cfg), p, JudgeNext(s.w, pc).1, pc.pending[0].kept.task, tidy);
    }
  }

  lemma JudgedRefs(db: Db, store: Store, pc: Pc, tidy: bool)
    requires pc.Judging? && PcRefs(db, store, pc, tidy)
    ensures PcRefs(db, store, Combining(pc.job, pc.base, pc.kept), tidy)
  {
  }

  lemma ReadingRefs(s: Sys, p: nat, c: Choice, cfg: Config, tidy: bool)
    requires AllSound(s, tidy) && p in s.closers && CanStep(s.w, s.closers[p], c) && (tidy ==> CapPositive(cfg))
    requires var pc := s.closers[p]; pc.Claimed? || pc.Loading? || pc.Combining?
    ensures RefsSound(DoStepClose(s, p, c, cfg), tidy)
  {
    hide LeaseSound, GateSound, RoundsPart, RunsPart, SubsPart, GatesPart, DoomedPart, SeedsPart, PcRefs, Chain, PcSound, Query, Load,
      CombineStep;
    var pc := s.closers[p];
    if pc.Claimed? {
      QueryRefs(s, pc.id, c.order, tidy);
      VerdictStep(s, DoStepClose(s, p, c, cfg), p, Query(s.w, pc.id, c.order), "", tidy);
    } else if pc.Loading? {
      LoadRefs(s, pc, c.io, tidy);
      VerdictStep(s, DoStepClose(s, p, c, cfg), p, Load(s.w, pc.job, pc.todo, c.io), "", tidy);
    } else {
      CombineRefs(s, pc, c.io, cfg, tidy);
      VerdictStep(s, DoStepClose(s, p, c, cfg), p, CombineStep(s.w, pc, c.io, cfg), "", tidy);
    }
  }

  lemma CommitRefs(s: Sys, p: nat, pc: Pc, tidy: bool)
    requires AllSound(s, tidy) && p in s.closers && s.closers[p] == pc && pc.Committing?
    ensures var next := Commit(s.w, pc); RefsSound(s.(w := next.0, closers := s.closers[p := next.1]), tidy)
  {
    hide LeaseSound, GateSound, RoundsPart, RunsPart, SubsPart, GatesPart, DoomedPart, SeedsPart, PcRefs, RowsStay, Chain, PcSound,
      CommitClose;
    var next := Commit(s.w, pc);
    SubsAreTasks(s.w.db);
    GatedAreTasks(s);
    CommitNames(s.w.db, s.w.store, pc, tidy);
    CommitRows(s.w.db, pc.job.id, pc.result);
    TablesMove(s, s.(w := next.0, closers := s.closers[p := next.1]), p, tidy);
  }

  lemma CommitNames(db: Db, store: Store, pc: Pc, tidy: bool)
    requires RoundsPart(db, store, tidy) && RunsPart(db, store, tidy) && pc.Committing? && PcRefs(db, store, pc, tidy)
    ensures var next := Commit(World(db, store), pc);
      && RoundsPart(next.0.db, store, tidy) && RunsPart(next.0.db, store, tidy) && PcRefs(next.0.db, store, next.1, tidy)
  {
    hide GoodBase, StoredMomentumGood;
    var n := Commit(World(db, store), pc).0.db;
    forall o | o in n.rounds ensures RoundRefs(n, store, o, tidy) {
      assert RoundRefs(db, store, o, tidy);
    }
    forall r | r in n.runs ensures RunRefs(n, store, r, tidy) {
      assert RunRefs(db, store, r, tidy);
    }
  }

  lemma CommitRows(db: Db, id: RoundId, result: Option<Key>)
    requires db.subs.Keys <= db.tasks.Keys
    ensures RowsStay(db, CommitClose(db, id, result)) && CommitClose(db, id, result).tasks.Keys == db.tasks.Keys
  {
  }

  lemma NameRefs(s: Sys, p: nat, job: Job, tidy: bool)
    requires AllSound(s, tidy) && p in s.closers && s.closers[p] == NamingMomentum(job)
    ensures RefsSound(s.(w := s.w.(db := NameMomentum(s.w.db, job.id.run)),
                         closers := s.closers[p := Committing(job, Some(ResultKey(job.id)))]), tidy)
  {
    hide LeaseSound, GateSound, RoundsPart, RunsPart, SubsPart, GatesPart, DoomedPart, SeedsPart, PcRefs, RowsStay, Chain, PcSound;
    SubsAreTasks(s.w.db);
    GatedAreTasks(s);
    NameNames(s.w.db, s.w.store, job, tidy);
    NameRows(s.w.db, job.id.run);
    TablesMove(s, s.(w := s.w.(db := NameMomentum(s.w.db, job.id.run)),
                     closers := s.closers[p := Committing(job, Some(ResultKey(job.id)))]), p, tidy);
  }

  lemma NameNames(db: Db, store: Store, job: Job, tidy: bool)
    requires RoundsPart(db, store, tidy) && RunsPart(db, store, tidy) && PcRefs(db, store, NamingMomentum(job), tidy)
    ensures var n := NameMomentum(db, job.id.run);
      && RoundsPart(n, store, tidy) && RunsPart(n, store, tidy)
      && PcRefs(n, store, Committing(job, Some(ResultKey(job.id))), tidy)
  {
    hide GoodBase, StoredMomentumGood;
    var n := NameMomentum(db, job.id.run);
    forall o | o in n.rounds ensures RoundRefs(n, store, o, tidy) {
      assert RoundRefs(db, store, o, tidy);
    }
    forall r | r in n.runs ensures RunRefs(n, store, r, tidy) {
      assert RunRefs(db, store, r, tidy);
    }
  }

  lemma NameRows(db: Db, run: string)
    requires db.subs.Keys <= db.tasks.Keys
    ensures RowsStay(db, NameMomentum(db, run)) && NameMomentum(db, run).tasks == db.tasks
  {
  }

  lemma AdvanceRefs(s: Sys, p: nat, pc: Pc, now: int, tidy: bool)
    requires AllSound(s, tidy) && p in s.closers && s.closers[p] == pc && pc.Advancing?
    ensures var next := Advance(s.w, pc, now); RefsSound(s.(w := next.0, closers := s.closers[p := next.1]), tidy)
  {
    hide LeaseSound, GateSound, RoundsPart, RunsPart, SubsPart, GatesPart, DoomedPart, SeedsPart, PcRefs, RowsStay, Chain, PcSound, GoodBase;
    SubsAreTasks(s.w.db);
    GatedAreTasks(s);
    var next := Advance(s.w, pc, now);
    var n := s.(w := next.0, closers := s.closers[p := next.1]);
    if !Foldable(pc.job.rates) {
      GivenUpRefs(s, p, pc.job.id, tidy);
    } else if pc.job.id.idx + 1 < pc.job.run.target {
      var id := RoundId(pc.job.id.run, pc.job.id.idx + 1);
      AdvancingMayOpen(s.w.db, pc);
      OpenKeepsChain(s.w.db, id, TimingOf(pc.job.round), now);
      AdvancingBase(s.w.db, s.w.store, pc, tidy);
      OpenNames(s.w.db, s.w.store, id, pc.published, TimingOf(pc.job.round), now, tidy);
      OpenRows(s.w.db, id, pc.published, TimingOf(pc.job.round), now);
      EndedRefs(n.w.db, n.w.store, tidy);
      TablesMove(s, n, p, tidy);
    } else {
      FinishRows(s.w.db, pc.job.id.run);
      EndedRefs(n.w.db, n.w.store, tidy);
      QuietCloser(s, n, p, Ended, tidy);
    }
  }

  lemma AdvancingBase(db: Db, store: Store, pc: Pc, tidy: bool)
    requires pc.Advancing? && PcRefs(db, store, pc, tidy)
    ensures GoodBase(store, pc.job.id.run, pc.job.id.idx + 1, tidy)
  {
  }

  lemma EndedRefs(db: Db, store: Store, tidy: bool)
    ensures PcRefs(db, store, Ended, tidy)
  {
  }

  lemma FinishRows(db: Db, run: string)
    requires db.subs.Keys <= db.tasks.Keys
    ensures RowsStay(db, FinishRun(db, run)) && NamesStay(db, FinishRun(db, run)) && FinishRun(db, run).tasks == db.tasks
  {
  }

  lemma ReleaseRefs(s: Sys, p: nat, id: RoundId, tidy: bool)
    requires AllSound(s, tidy) && p in s.closers && s.closers[p] == Unwinding(id)
    ensures RefsSound(s.(w := s.w.(db := ReleaseClose(s.w.db, id)), closers := s.closers[p := Ended]), tidy)
  {
    hide LeaseSound, GateSound, RoundsPart, RunsPart, SubsPart, GatesPart, DoomedPart, SeedsPart, Chain, PcSound, ClosersPart;
    var n := s.(w := s.w.(db := ReleaseClose(s.w.db, id)), closers := s.closers[p := Ended]);
    SubsAreTasks(s.w.db);
    ReleaseRows(s.w.db, id);
    EndedRefs(n.w.db, n.w.store, tidy);
    QuietCloser(s, n, p, Ended, tidy);
  }

  lemma ReleaseRows(db: Db, id: RoundId)
    requires db.subs.Keys <= db.tasks.Keys
    ensures RowsStay(db, ReleaseClose(db, id)) && NamesStay(db, ReleaseClose(db, id)) && ReleaseClose(db, id).tasks == db.tasks
  {
  }

  lemma GivenUpRefs(s: Sys, p: nat, id: RoundId, tidy: bool)
    requires AllSound(s, tidy) && p in s.closers
    ensures RefsSound(s.(closers := s.closers[p := Unwinding(id)]), tidy)
    ensures RefsSound(s.(closers := s.closers[p := Ended]), tidy)
  {
    hide LeaseSound, GateSound, RoundsPart, RunsPart, SubsPart, GatesPart, DoomedPart, SeedsPart, Chain, PcSound, ClosersPart;
    VerdictStep(s, s.(closers := s.closers[p := Unwinding(id)]), p, Unwinding(id), "", tidy);
    VerdictStep(s, s.(closers := s.closers[p := Ended]), p, Ended, "", tidy);
  }

  lemma StepCloseRefs(s: Sys, p: nat, c: Choice, cfg: Config, tidy: bool)
    requires AllSound(s, tidy) && (tidy ==> CapPositive(cfg))
    ensures RefsSound(DoStepClose(s, p, c, cfg), tidy)
  {
    hide AllSound, RefsSound, Publish, Commit, Advance, NameMomentum, ReleaseClose, IsQueryOrder, FetchNext, JudgeNext,
      Judge, Query, Load, CombineStep;
    if p in s.closers && CanStep(s.w, s.closers[p], c) {
      match s.closers[p]
      case Claimed(_) => ReadingRefs(s, p, c, cfg, tidy);
      case Loading(_, _) => ReadingRefs(s, p, c, cfg, tidy);
      case Combining(_, _, _) => ReadingRefs(s, p, c, cfg, tidy);
      case Fetching(_, _, _, _) => FetchingRefs(s, p, c, cfg, tidy);
      case Judging(_, _, _, _) => JudgingRefs(s, p, c, cfg, tidy);
      case Publishing(job, _) =>
        PublishRefs(s, p, s.closers[p], tidy);
        GivenUpRefs(s, p, job.id, tidy);
      case SavingMomentum(job, m) =>
        SaveMomentumRefs(s, p, job, m, tidy);
        GivenUpRefs(s, p, job.id, tidy);
      case NamingMomentum(job) => NameRefs(s, p, job, tidy);
      case Committing(_, _) => CommitRefs(s, p, s.closers[p], tidy);
      case Advancing(_, _) => AdvanceRefs(s, p, s.closers[p], c.now, tidy);
      case Unwinding(id) => ReleaseRefs(s, p, id, tidy);
      case Ended => GivenUpRefs(s, p, RoundId("", 0), tidy);
    } else {
      RefsStay(s, tidy);
    }
  }

  lemma RefsStay(s: Sys, tidy: bool)
    requires AllSound(s, tidy)
    ensures RefsSound(s, tidy)
  {
  }

  // ---- every step, every run ---------------------------------------------------------------------------------------

  lemma ActionKeepsRefs(s: Sys, a: Action, cfg: Config, tidy: bool)
    requires AllSound(s, tidy) && (tidy ==> CapPositive(cfg) && TidyAction(s, a))
    ensures RefsSound(Apply(s, a, cfg), tidy)
  {
    hide AllSound, RefsSound, DoPutSeed, DoAddRun, DoOpenFirst, DoGateRead, DoGateWrite, DoStartClose, DoStepClose,
      DoFailClose, DoUpload, DoDelete, DoSubmit, ClaimTask, ExpireLeases, Heartbeat, Abandon, ReopenEmptyRound, GcCandidates;
    match a
    case PutSeed(run, seed) => PutSeedRefs(s, run, seed, tidy);
    case AddRun(run, row) => AddRunRefs(s, run, row, tidy);
    case OpenFirst(run, timing, now) => OpenFirstRefs(s, run, timing, now, tidy);
    case Upload(t, blob) => UploadRefs(s, t, blob, tidy);
    case GateRead(t, io) => GateReadRefs(s, t, io, tidy);
    case GateWrite(t) => GateWriteRefs(s, t, tidy);
    case StartClose(p, id) => StartCloseRefs(s, p, id, tidy);
    case StepClose(p, c) => StepCloseRefs(s, p, c, cfg, tidy);
    case FailClose(p) => FailCloseRefs(s, p, tidy);
    case PlanGc(run, keep) => PlanGcRefs(s, run, keep, tidy);
    case Delete(key) => DeleteRefs(s, key, tidy);
    case _ => QuietKeeps(s, a, cfg, tidy);
  }

  /** Throughout the run workers upload before they submit and combine modes are known. */
  ghost predicate TidyRun(actions: seq<Action>, cfg: Config) {
    CapPositive(cfg) && forall i :: 0 <= i < |actions| ==> TidyAction(After(actions[..i], cfg), actions[i])
  }

  lemma TidyPrefix(actions: seq<Action>, cfg: Config)
    requires actions != [] && TidyRun(actions, cfg)
    ensures TidyRun(actions[..|actions| - 1], cfg)
    ensures TidyAction(After(actions[..|actions| - 1], cfg), actions[|actions| - 1])
  {
    hide After, TidyAction;
    var before := actions[..|actions| - 1];
    forall i | 0 <= i < |before| ensures TidyAction(After(before[..i], cfg), before[i]) {
      assert before[..i] == actions[..i];
    }
  }

  /** No reference ever dangles, in any reachable state: every base, result and momentum the tables
      name is in the store, each base with the tensors of its run's seed, perhaps stretched. In a tidy
      run they have the seed's manifest, are finite and fit. */
  lemma {:induction false} EveryRunKeepsRefs(actions: seq<Action>, cfg: Config, tidy: bool)
    requires tidy ==> TidyRun(actions, cfg)
    ensures RefsSound(After(actions, cfg), tidy)
  {
    hide Apply, TidyRun, TidyAction, Sound, WorkSound;
    if actions == [] {
      assert RefsSound(Empty(), tidy);
    } else {
      var before := actions[..|actions| - 1];
      if tidy {
        TidyPrefix(actions, cfg);
        TidyCap(actions, cfg);
      }
      EveryRunKeepsRefs(before, cfg, tidy);
      EveryRunIsSound(before, cfg);
      EveryRunKeepsLeases(before, cfg);
      ActionKeepsRefs(After(before, cfg), actions[|actions| - 1], cfg, tidy);
    }
  }

  lemma TidyCap(actions: seq<Action>, cfg: Config)
    requires TidyRun(actions, cfg)
    ensures CapPositive(cfg)
  {
  }

  // ---- what this means -------------------------------------------------------------------------------------------------

  /** A close of accepted work fails for no reason of its own: with the store answering, the base
      loads, gate 4 finds every tensor it looks up, the combine divides by nothing that is zero and
      misses no tensor, and the divergence of the surviving work can be computed. */
  lemma {:induction false} AggregationCannotFail(actions: seq<Action>, cfg: Config, p: nat, io: bool)
    requires TidyRun(actions, cfg) && p in After(actions, cfg).closers
    ensures var s := After(actions, cfg);
      var pc := s.closers[p];
      && (pc.Loading? ==> Load(s.w, pc.job, pc.todo, true).Fetching?)
      && (pc.Fetching? && pc.todo == [] ==> !Judge(pc.job, pc.base, pc.kept, cfg).Unwinding?)
      && (pc.Combining? ==> !CombineStep(s.w, pc, io, cfg).Unwinding?)
  {
    hide After, TidyRun, Judge, Load, CombineKept, PcSound, PcRefs, Chain, WorkSound;
    var s := After(actions, cfg);
    EveryRunKeepsRefs(actions, cfg, true);
    EveryRunIsSound(actions, cfg);
    EveryRunKeepsLeases(actions, cfg);
    TidyCap(actions, cfg);
    var pc := s.closers[p];
    assert PcSound(s.w.db, pc) && PcRefs(s.w.db, s.w.store, pc, true);
    if pc.Loading? { LoadRefs(s, pc, true, true); }
    if pc.Fetching? && pc.todo == [] { JudgeCannotFail(s.w.db, s.w.store, pc, cfg); }
    if pc.Combining? && pc.kept != [] { CombineCannotRaise(s, pc, io, cfg); }
  }

  /** Every round's base, in every reachable state, is in the store and has the tensors and dtypes of
      its run's seed, in shapes that the seed's stretch to. */
  lemma {:induction false} BasesGrowFromSeed(actions: seq<Action>, cfg: Config, id: RoundId)
    requires id in After(actions, cfg).w.db.rounds
    ensures var s := After(actions, cfg);
      && Fetch(s.w.store, s.w.db.rounds[id].base).Some? && HasSeed(s.w.store, id.run)
      && Grown(SeedOf(s.w.store, id.run), Fetch(s.w.store, s.w.db.rounds[id].base).value)
  {
    hide After, Grown;
    EveryRunKeepsRefs(actions, cfg, false);
    EveryRunIsSound(actions, cfg);
    var s := After(actions, cfg);
    assert RoundSound(s.w.db, id) && RoundRefs(s.w.db, s.w.store, id, false);
  }

  /** In a tidy run every round's base has the seed's very manifest. */
  lemma {:induction false} BasesMatchSeed(actions: seq<Action>, cfg: Config, id: RoundId)
    requires TidyRun(actions, cfg) && id in After(actions, cfg).w.db.rounds
    ensures var s := After(actions, cfg);
      && Fetch(s.w.store, s.w.db.rounds[id].base).Some? && HasSeed(s.w.store, id.run)
      && ManifestOf(Fetch(s.w.store, s.w.db.rounds[id].base).value) == ManifestOf(SeedOf(s.w.store, id.run))
  {
    hide After, Grown, TidyRun;
    EveryRunKeepsRefs(actions, cfg, true);
    EveryRunIsSound(actions, cfg);
    var s := After(actions, cfg);
    assert RoundSound(s.w.db, id) && RoundRefs(s.w.db, s.w.store, id, true);
  }

  /** What a claim, a close or a restore may still read. */
  ghost predicate StillNeeded(db: Db, k: Key) {
    || (exists id :: id in db.rounds && (db.rounds[id].base == k || db.rounds[id].result == Some(k)))
    || (exists run :: run in db.runs && db.runs[run].momentum == Some(k))
    || (exists t :: t in db.subs && t in db.tasks && db.subs[t].artifact == k && !RoundIs(db, db.tasks[t].round, Closed))
  }

  /** Whatever interleaves between planning a collection and carrying it out, nothing marked for
      deletion is still needed when it is deleted. */
  lemma CollectionIsSafe(actions: seq<Action>, cfg: Config, k: Key)
    requires k in After(actions, cfg).doomed
    ensures !StillNeeded(After(actions, cfg).w.db, k)
  {
    hide After, RefsSound, Sound, WorkSound, ArtifactOf;
    EveryRunKeepsRefs(actions, cfg, false);
    EveryRunIsSound(actions, cfg);
    EveryRunKeepsLeases(actions, cfg);
    var s := After(actions, cfg);
    DoomedClosed(s, k);
    forall id | id in s.w.db.rounds ensures s.w.db.rounds[id].base != k && s.w.db.rounds[id].result != Some(k) {
      RoundNamesNoSubmission(s, id);
    }
    forall run | run in s.w.db.runs ensures s.w.db.runs[run].momentum != Some(k) {
      RunNamesNoSubmission(s, run);
    }
    forall t | t in s.w.db.subs && t in s.w.db.tasks && s.w.db.subs[t].artifact == k
      ensures RoundIs(s.w.db, s.w.db.tasks[t].round, Closed)
    {
      ArtifactNamesRound(s, t);
    }
  }

  lemma DoomedClosed(s: Sys, k: Key)
    requires RefsSound(s, false) && k in s.doomed
    ensures k.SubmissionKey? && RoundIs(s.w.db, RoundId(k.run, k.idx), Closed)
  {
    hide RoundsPart, RunsPart, SeedsPart, ClosersPart;
    assert DoomedRefs(s.w.db, k);
  }

  lemma RoundNamesNoSubmission(s: Sys, id: RoundId)
    requires Sound(s) && id in s.w.db.rounds
    ensures s.w.db.rounds[id].base.BaseKey? && (s.w.db.rounds[id].result.Some? ==> s.w.db.rounds[id].result.value.BaseKey?)
  {
    hide ClosersSound, CreationsSound;
    assert RoundSound(s.w.db, id);
  }

  lemma RunNamesNoSubmission(s: Sys, run: string)
    requires Sound(s) && run in s.w.db.runs
    ensures s.w.db.runs[run].momentum.Some? ==> s.w.db.runs[run].momentum.value.MomentumKey?
  {
    hide ClosersSound, CreationsSound;
    assert RunSound(s.w.db, run);
  }

  lemma ArtifactNamesRound(s: Sys, t: string)
    requires WorkSound(s) && t in s.w.db.subs && t in s.w.db.tasks
    ensures s.w.db.subs[t].artifact.SubmissionKey?
    ensures RoundId(s.w.db.subs[t].artifact.run, s.w.db.subs[t].artifact.idx) == s.w.db.tasks[t].round
  {
    hide OneLease, TaskSound, PlausibleSteps;
    assert SubSound(s.w.db, t);
  }
}
