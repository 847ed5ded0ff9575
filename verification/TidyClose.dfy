/** Closes of tidy runs: they always go through, and nothing about them depends on the order in
    which the query happened to return its rows. */
module TidyClose {
  import opened Wrappers
  import RealSeqs
  import opened Tensors
  import opened NormGate
  import opened Divergence
  import opened OuterStep
  import opened Contributions
  import opened ObjectKeys
  import opened Tables
  import opened Rounds
  import opened Closer
  import opened System
  import opened CloseSafety
  import opened LeaseSafety
  import opened RefSafety
  import opened RefSteps
  import opened RefCloses
  import opened CloseRun
  import opened Leftovers
  import opened Attempts
  import opened Retry

  // ---- the cohort of a tidy round -------------------------------------------------------------

  lemma {:induction false} ArrivedGood(db: Db, store: Store, run: string, todo: seq<Entry>)
    requires TodoGood(db, store, run, todo)
    ensures KeptGood(store, run, Arrived(store, todo))
  {
    hide EntryGood, GoodWork, Fetch;
    if todo != [] {
      ArrivedGood(db, store, run, Upto(todo));
      assert EntryGood(db, store, run, Last(todo));
      if Fetch(store, Last(todo).artifact).Some? { FetchedIsGood(db, store, run, Last(todo)); }
    }
  }

  /** The base loads, and everything fetched fits it. */
  ghost predicate GoodCohort(w: World, id: RoundId, order: seq<string>)
    requires RoundIs(w.db, id, Open) && id.run in w.db.runs && forall t :: t in order ==> t in w.db.subs
  {
    && BaseOf(w, id).Some? && HasBase(w.store, JobOf(w.db, id), BaseOf(w, id).value, true)
    && KeptGood(w.store, id.run, Cohort(w, order))
  }

  lemma TidyCohort(s: Sys, id: RoundId, order: seq<string>)
    requires AllSound(s, true) && RoundIs(s.w.db, id, Open) && IsQueryOrder(s.w.db, id, order)
    ensures InPlace(s.w.db, id) && JobSound(s.w.db, JobOf(s.w.db, id)) && (forall t :: t in order ==> t in s.w.db.subs)
    ensures GoodCohort(s.w, id, order)
  {
    hide WorkSound, RunsPart, SeedsPart, SubsPart, GatesPart, ClosersPart, DoomedPart, ClosersSound, CreationsSound,
      GoodAdapter, EntryGood, GoodWork, Arrived;
    assert RoundSound(s.w.db, id) && RunSound(s.w.db, id.run) && RoundRefs(s.w.db, s.w.store, id, true);
    SubmissionsInPlace(s);
    forall i | 0 <= i < |order| ensures EntryGood(s.w.db, s.w.store, id.run, Entries(s.w.db, order)[i]) {
      assert order[i] in order;
      QueriedEntry(s, id, order[i], true);
    }
    ArrivedGood(s.w.db, s.w.store, id.run, Entries(s.w.db, order));
  }

  lemma SubmissionsInPlace(s: Sys)
    requires WorkSound(s)
    ensures forall t :: t in s.w.db.subs ==> s.w.db.subs[t].artifact.SubmissionKey?
  {
    hide OneLease, TaskSound, PlausibleSteps;
    forall t | t in s.w.db.subs ensures s.w.db.subs[t].artifact.SubmissionKey? {
      assert SubSound(s.w.db, t);
    }
  }

  /** Every adapter of a good cohort has the base's tensors. */
  lemma GoodKeys(store: Store, job: Job, base: Adapter, kept: seq<Kept>)
    requires HasBase(store, job, base, true) && KeptGood(store, job.id.run, kept)
    ensures SameKeys(Adapters(Works(kept)), base.Keys)
  {
    var adapters := Adapters(Works(kept));
    forall i | 0 <= i < |adapters| ensures adapters[i].Keys == base.Keys {
      assert GoodWork(store, job.id.run, kept[i].work);
      KeysOfManifest(adapters[i], SeedOf(store, job.id.run));
      KeysOfManifest(base, SeedOf(store, job.id.run));
    }
  }

  lemma SameKeysJudged(kept: seq<Kept>, keys: set<string>, cfg: Config)
    requires SameKeys(Adapters(Works(kept)), keys)
    ensures Judgements(kept, cfg).Some?
  {
    hide VerdictOf;
    assert SharedNames(Adapters(Works(kept)));
  }

  lemma {:induction false} PassedGood(store: Store, run: string, kept: seq<Kept>, turned: set<string>)
    requires KeptGood(store, run, kept)
    ensures KeptGood(store, run, StillOf(kept, turned))
  {
    hide GoodWork;
    StillMembers(kept, turned);
    var some := StillOf(kept, turned);
    forall i | 0 <= i < |some| ensures GoodWork(store, run, some[i].work) {
      assert some[i] in some;
      var j :| 0 <= j < |kept| && kept[j] == some[i];
    }
  }

  lemma GoodWorkCombines(s: Sys, id: RoundId, base: Adapter, kept: seq<Kept>, cfg: Config)
    requires AllSound(s, true) && CapPositive(cfg) && RoundIs(s.w.db, id, Open) && id.run in s.w.db.runs
      && JobSound(s.w.db, JobOf(s.w.db, id))
    requires HasBase(s.w.store, JobOf(s.w.db, id), base, true) && KeptGood(s.w.store, id.run, kept) && kept != []
    ensures CombineKept(s.w.store, JobOf(s.w.db, id), base, kept, true, cfg).Some?
    ensures AllWorkFits(Works(kept), base)
  {
    hide Published, RefsSound, Sound, WorkSound, KeptGood, Fits, MomentumFits, AllWorkFits, SharesOf, HasBase, Comparable;
    var job := JobOf(s.w.db, id);
    HasBaseMeans(s.w.store, job, base);
    KeptFitsBase(s.w.store, job, base, kept);
    KeptShares(kept, cfg.cap);
    StoredMomentumFits(s, job, base, true);
    ModeKnown(s, job);
    WorkFits(base, Works(kept));
    FittingAreComparable(Adapters(Works(kept)), base);
    PublishedFits(base, Works(kept), cfg.cap, job.run, StoredMomentum(s.w.store, job.run, true));
  }

  lemma HasBaseMeans(store: Store, job: Job, base: Adapter)
    requires HasBase(store, job, base, true)
    ensures WellFormedAdapter(base) && Finite(base) && base != map[]
  {
    hide Grown;
  }

  /** In a tidy run a close that nothing disturbs goes through. */
  lemma TidyCloseGoesThrough(s: Sys, id: RoundId, c: Choice, cfg: Config)
    requires AllSound(s, true) && CapPositive(cfg) && RoundIs(s.w.db, id, Open) && IsQueryOrder(s.w.db, id, c.order) && c.io
    ensures RoundIs(CloseAll(s.w, id, c, cfg).db, id, Closed)
  {
    hide AllSound, JobSound, HasBase, KeptGood, Cohort, IsQueryOrder, CloseAll, CombineKept, Judgements, Survivors, Sentenced,
      StillOf, JobOf, Fetch;
    TidyCohort(s, id, c.order);
    InPlaceMeans(s.w.db, id);
    var base, cohort := BaseOf(s.w, id).value, Cohort(s.w, c.order);
    JobIds(s.w.db, id);
    GoodKeys(s.w.store, JobOf(s.w.db, id), base, cohort);
    SameKeysJudged(cohort, base.Keys, cfg);
    CohortTasks(s.w, id, c.order);
    SurvivorsAreStill(cohort, cfg);
    PassedGood(s.w.store, id.run, cohort, Sentenced(cohort, cfg));
    if Survivors(cohort, cfg) != [] { GoodWorkCombines(s, id, base, Survivors(cohort, cfg), cfg); }
    GoesThroughExactlyWhen(s.w, id, c, cfg);
  }

  // ---- the order of the query -----------------------------------------------------------------------

  lemma {:induction false} DistinctPermute<T>(xs: seq<T>, ys: seq<T>)
    requires (forall i, j :: 0 <= i < j < |xs| ==> xs[i] != xs[j]) && (forall i, j :: 0 <= i < j < |ys| ==> ys[i] != ys[j])
    requires forall x :: x in xs <==> x in ys
    ensures multiset(xs) == multiset(ys)
  {
    if xs == [] {
      assert forall y :: y in multiset(ys) ==> y in xs;
    } else {
      assert xs[0] in ys;
      var k :| 0 <= k < |ys| && ys[k] == xs[0];
      var rest := RealSeqs.Without(ys, k);
      forall x ensures x in xs[1..] <==> x in rest {
        RestMembers(xs, 0, x);
        RestMembers(ys, k, x);
        assert RealSeqs.Without(xs, 0) == xs[1..];
      }
      DistinctPermute(xs[1..], rest);
      assert RealSeqs.Without(xs, 0) == xs[1..];
      RealSeqs.WithoutOne(xs, 0);
      RealSeqs.WithoutOne(ys, k);
    }
  }

  lemma RestMembers<T>(xs: seq<T>, k: nat, x: T)
    requires k < |xs| && forall i, j :: 0 <= i < j < |xs| ==> xs[i] != xs[j]
    ensures x in RealSeqs.Without(xs, k) <==> x in xs && x != xs[k]
  {
    var rest := RealSeqs.Without(xs, k);
    if x in xs && x != xs[k] {
      var i :| 0 <= i < |xs| && xs[i] == x;
      assert rest[if i < k then i else i - 1] == x;
    }
    if x in rest {
      var i :| 0 <= i < |rest| && rest[i] == x;
      assert xs[if i < k then i else i + 1] == x;
    }
  }

  function WorkOf(): Kept -> Contribution {
    (k: Kept) => k.work
  }

  function AdapterOf(): Kept -> Adapter {
    (k: Kept) => k.work.adapter
  }

  lemma WorksPermute(xs: seq<Kept>, ys: seq<Kept>)
    requires multiset(xs) == multiset(ys)
    ensures |xs| == |ys| && multiset(Works(xs)) == multiset(Works(ys)) && multiset(Adapters(Works(xs))) == multiset(Adapters(Works(ys)))
  {
    RealSeqs.SameLength(xs, ys);
    RealSeqs.MapPermutes(WorkOf(), xs, ys);
    RealSeqs.MapPermutes(AdapterOf(), xs, ys);
    assert Works(xs) == RealSeqs.Map(WorkOf(), xs) && Works(ys) == RealSeqs.Map(WorkOf(), ys);
    assert Adapters(Works(xs)) == RealSeqs.Map(AdapterOf(), xs) && Adapters(Works(ys)) == RealSeqs.Map(AdapterOf(), ys);
  }

  lemma EntriesFollow(db: Db, id: RoundId, xs: seq<string>, ys: seq<string>)
    requires IsQueryOrder(db, id, xs) && IsQueryOrder(db, id, ys)
    ensures (forall t :: t in xs ==> t in db.subs) && (forall t :: t in ys ==> t in db.subs)
    ensures forall e :: e in Entries(db, xs) <==> e in Entries(db, ys)
  {
    forall e | e in Entries(db, xs) ensures e in Entries(db, ys) {
      SameEntry(db, id, xs, ys, e);
    }
    forall e | e in Entries(db, ys) ensures e in Entries(db, xs) {
      SameEntry(db, id, ys, xs, e);
    }
  }

  lemma SameEntry(db: Db, id: RoundId, xs: seq<string>, ys: seq<string>, e: Entry)
    requires IsQueryOrder(db, id, xs) && IsQueryOrder(db, id, ys)
    requires (forall t :: t in xs ==> t in db.subs) && (forall t :: t in ys ==> t in db.subs) && e in Entries(db, xs)
    ensures e in Entries(db, ys)
  {
    var i :| 0 <= i < |xs| && Entries(db, xs)[i] == e;
    assert xs[i] in xs;
    assert xs[i] in ys;
    var j :| 0 <= j < |ys| && ys[j] == xs[i];
    assert Entries(db, ys)[j] == e;
  }

  /** The fetched cohorts of two query orders hold the same work, and the same artifacts are gone. */
  lemma CohortFollows(w: World, id: RoundId, xs: seq<string>, ys: seq<string>)
    requires IsQueryOrder(w.db, id, xs) && IsQueryOrder(w.db, id, ys)
    ensures AllAccepted(w.db, xs) && AllAccepted(w.db, ys)
    ensures multiset(Cohort(w, xs)) == multiset(Cohort(w, ys))
    ensures Gone(w.store, Entries(w.db, xs)) == Gone(w.store, Entries(w.db, ys))
  {
    hide Fetch, Arrived, IsQueryOrder, Entries;
    CohortTasks(w, id, xs);
    CohortTasks(w, id, ys);
    EntriesFollow(w.db, id, xs, ys);
    ArrivedTasks(w.store, Entries(w.db, xs));
    ArrivedTasks(w.store, Entries(w.db, ys));
    DistinctPermute(Cohort(w, xs), Cohort(w, ys));
  }

  lemma SentenceFollows(xs: seq<Kept>, ys: seq<Kept>, keys: set<string>, cfg: Config)
    requires multiset(xs) == multiset(ys) && SameKeys(Adapters(Works(xs)), keys)
    ensures SameKeys(Adapters(Works(ys)), keys) && Judgements(xs, cfg).Some? && Judgements(ys, cfg).Some?
    ensures Sentenced(xs, cfg) <= Sentenced(ys, cfg)
  {
    hide VerdictOf, Works, Adapters, SameKeys;
    WorksPermute(xs, ys);
    SameKeysPermute(Adapters(Works(xs)), Adapters(Works(ys)), keys);
    SameKeysJudged(xs, keys, cfg);
    SameKeysJudged(ys, keys, cfg);
    var a, b := Judgements(xs, cfg).value, Judgements(ys, cfg).value;
    forall t | t in Sentenced(xs, cfg) ensures t in Sentenced(ys, cfg) {
      var x :| x in a && !x.verdict.Accepted? && x.kept.task == t;
      var i :| 0 <= i < |a| && a[i] == x;
      assert xs[i] in multiset(xs);
      assert xs[i] in multiset(ys);
      var j :| 0 <= j < |ys| && ys[j] == xs[i];
      SameAdapters(xs, ys, i, j);
      VerdictFollowsAdapter(Adapters(Works(xs)), Adapters(Works(ys)), keys, cfg.norm, cfg.normK, i, j);
      assert b[j] in b;
    }
  }

  lemma SameAdapters(xs: seq<Kept>, ys: seq<Kept>, i: nat, j: nat)
    requires i < |xs| && j < |ys| && xs[i] == ys[j]
    ensures Adapters(Works(xs))[i] == Adapters(Works(ys))[j]
  {
  }

  lemma SurvivorsFollow(xs: seq<Kept>, ys: seq<Kept>, keys: set<string>, cfg: Config)
    requires multiset(xs) == multiset(ys) && SameKeys(Adapters(Works(xs)), keys) && DistinctTasks(xs) && DistinctTasks(ys)
    ensures Judgements(xs, cfg).Some? && Judgements(ys, cfg).Some? && Sentenced(xs, cfg) == Sentenced(ys, cfg)
    ensures multiset(Survivors(xs, cfg)) == multiset(Survivors(ys, cfg))
  {
    hide Judgements, Works, Adapters, StillOf, SameKeys, Sentenced, Survivors;
    SentenceFollows(xs, ys, keys, cfg);
    SentenceFollows(ys, xs, keys, cfg);
    var out := Sentenced(xs, cfg);
    SurvivorsAreStill(xs, cfg);
    SurvivorsAreStill(ys, cfg);
    StillPermute(xs, ys, out);
  }

  lemma StillPermute(xs: seq<Kept>, ys: seq<Kept>, out: set<string>)
    requires multiset(xs) == multiset(ys) && DistinctTasks(xs) && DistinctTasks(ys)
    ensures multiset(StillOf(xs, out)) == multiset(StillOf(ys, out))
  {
    hide StillOf;
    StillMembers(xs, out);
    StillMembers(ys, out);
    StillDistinct(xs, out);
    StillDistinct(ys, out);
    forall k ensures k in xs <==> k in ys {
      assert k in xs <==> k in multiset(xs);
      assert k in ys <==> k in multiset(ys);
    }
    var a, b := StillOf(xs, out), StillOf(ys, out);
    assert forall i, j :: 0 <= i < j < |a| ==> a[i].task != a[j].task;
    assert forall i, j :: 0 <= i < j < |b| ==> b[i].task != b[j].task;
    DistinctPermute(a, b);
  }

  lemma FoldableFollows(xs: seq<Kept>, ys: seq<Kept>)
    requires multiset(xs) == multiset(ys)
    ensures Foldable(Rates(xs)) ==> Foldable(Rates(ys))
  {
    forall m | m in Rates(ys) ensures m in Rates(xs) {
      var j :| 0 <= j < |ys| && Rates(ys)[j] == m;
      assert ys[j] in multiset(ys);
      assert ys[j] in multiset(xs);
      var i :| 0 <= i < |xs| && xs[i] == ys[j];
      assert Rates(xs)[i] == m;
    }
  }

  lemma SameAdvance(db: Db, job: Job, again: Job, o: Outcome, now: int)
    requires again == job.(rates := again.rates) && Foldable(again.rates) == Foldable(job.rates)
    ensures MovedOn(db, again, o, now) == MovedOn(db, job, o, now)
  {
    hide Foldable, CommitClose, OpenRound, FinishRun, ReleaseClose, NameMomentum;
  }

  lemma SettleFollows(w: World, job: Job, base: Adapter, xs: seq<Kept>, ys: seq<Kept>, now: int, cfg: Config)
    requires multiset(xs) == multiset(ys) && (xs != [] ==> AllWorkFits(Works(xs), base) && base != map[])
    ensures Settle(w, job, base, xs, now, cfg) == Settle(w, job, base, ys, now, cfg)
  {
    hide Works, Published, StoredMomentum, MovedOn, ReleaseClose, CommitClose, Comparable, Rates, Foldable, Fits;
    WorksPermute(xs, ys);
    if xs != [] {
      FitFollows(Works(xs), Works(ys), base);
      WorkFits(base, Works(xs));
      WorkFits(base, Works(ys));
      FittingAreComparable(Adapters(Works(xs)), base);
      FittingAreComparable(Adapters(Works(ys)), base);
      FoldableFollows(xs, ys);
      FoldableFollows(ys, xs);
      var o := Published(base, Works(xs), cfg.cap, job.run.mode, job.run.lr, job.run.beta, StoredMomentum(w.store, job.run, true));
      if o.Some? { SameAdvance(w.db, WithRates(job, xs), WithRates(job, ys), o.value, now); }
      OrderDoesNotMatter(base, Works(xs), Works(ys), cfg.cap, job.run.mode, job.run.lr, job.run.beta, StoredMomentum(w.store, job.run, true));
    }
  }

  /** Submissions received at the same moment may be queried in any order: the closed round is the
      same, rows and objects alike. */
  lemma CloseIgnoresOrder(s: Sys, id: RoundId, c: Choice, other: seq<string>, cfg: Config)
    requires AllSound(s, true) && CapPositive(cfg) && RoundIs(s.w.db, id, Open) && c.io
    requires IsQueryOrder(s.w.db, id, c.order) && IsQueryOrder(s.w.db, id, other)
    ensures CloseAll(s.w, id, c.(order := other), cfg) == CloseAll(s.w, id, c, cfg)
  {
    hide AllSound, JobSound, HasBase, KeptGood, Cohort, IsQueryOrder, CloseAll, Judgements, Survivors, Sentenced, StillOf, JobOf, Fetch,
      Settle, Gone, Entries, Reject, Works, SameKeys, AllWorkFits, CombineKept;
    TidyCohort(s, id, c.order);
    TidyCohort(s, id, other);
    InPlaceMeans(s.w.db, id);
    JobIds(s.w.db, id);
    var w, base, xs, ys, job := s.w, BaseOf(s.w, id).value, Cohort(s.w, c.order), Cohort(s.w, other), JobOf(s.w.db, id);
    CohortFollows(w, id, c.order, other);
    CohortTasks(w, id, c.order);
    CohortTasks(w, id, other);
    GoodKeys(w.store, job, base, xs);
    SurvivorsFollow(xs, ys, base.Keys, cfg);
    CloseAllIs(w, id, c, cfg);
    CloseAllIs(w, id, c.(order := other), cfg);
    var gone := Gone(w.store, Entries(w.db, c.order));
    RejectingMeans(w, id, gone, w.db.runs, w.store);
    RejectedTogether(w, id, base, xs, gone, w.store, job, w.db.runs, c.now, cfg);
    RejectedTogether(w, id, base, ys, gone, w.store, job, w.db.runs, c.now, cfg);
    var rejected := Rejecting(w, id, gone + Sentenced(xs, cfg));
    HasBaseMeans(w.store, job, base);
    if Survivors(xs, cfg) != [] {
      SurvivorsAreStill(xs, cfg);
      PassedGood(w.store, id.run, xs, Sentenced(xs, cfg));
      GoodWorkCombines(s, id, base, Survivors(xs, cfg), cfg);
    }
    SettleFollows(World(rejected.(runs := w.db.runs), w.store), job, base, Survivors(xs, cfg), Survivors(ys, cfg), c.now, cfg);
  }
}
