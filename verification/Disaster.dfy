/** Backing up off the box, and rebuilding a coordinator from what was saved. */
module Disaster {
  import opened Wrappers
  import opened Tensors
  import opened ObjectKeys
  import opened Tables
  import opened Rounds
  import opened Closer
  import opened System
  import opened CloseSafety
  import opened LeaseSafety
  import opened RefSafety
  import opened RefCloses
  import opened BucketLedger

  // ---- backup --------------------------------------------------------------------------------

  ghost predicate HasResult(db: Db, run: string, idx: nat) {
    RoundId(run, idx) in db.rounds && db.rounds[RoundId(run, idx)].result.Some?
  }

  /** "ORDER BY idx DESC LIMIT 1" over the rounds with a result. */
  ghost predicate IsLatestResult(db: Db, run: string, idx: nat) {
    HasResult(db, run, idx) && forall later: nat :: later > idx ==> !HasResult(db, run, later)
  }

  ghost function LatestResult(db: Db, run: string): Option<Key> {
    if exists idx: nat :: IsLatestResult(db, run, idx) then
      var idx: nat :| IsLatestResult(db, run, idx);
      db.rounds[RoundId(run, idx)].result
    else None
  }

  /** The rounds of a run that have a result. */
  function ResultRounds(db: Db, run: string): set<nat> {
    set id | id in db.rounds && id.run == run && db.rounds[id].result.Some? :: id.idx
  }

  lemma ResultRoundsAre(db: Db, run: string, idx: nat)
    ensures idx in ResultRounds(db, run) <==> HasResult(db, run, idx)
  {
    if HasResult(db, run, idx) {
      var id := RoundId(run, idx);
      assert id in db.rounds && id.run == run && db.rounds[id].result.Some?;
    }
  }

  lemma LatestIsUnique(db: Db, run: string, i: nat, j: nat)
    requires IsLatestResult(db, run, i) && IsLatestResult(db, run, j)
    ensures i == j
  {
  }

  lemma LatestIs(db: Db, run: string, idx: nat)
    requires IsLatestResult(db, run, idx)
    ensures LatestResult(db, run) == db.rounds[RoundId(run, idx)].result
  {
    var i: nat :| IsLatestResult(db, run, i) && LatestResult(db, run) == db.rounds[RoundId(run, i)].result;
    LatestIsUnique(db, run, i, idx);
  }

  /** What a backup copies for one run: its latest result and its momentum. */
  ghost predicate BackedUp(db: Db, run: string, k: Key) {
    run in db.runs && (LatestResult(db, run) == Some(k) || db.runs[run].momentum == Some(k))
  }

  /** What a backup of the given runs puts into the destination; an object missing from the source is skipped. */
  ghost function Backup(db: Db, store: Store, runs: set<string>, dest: Store): Store {
    map k | k in dest.Keys + store.Keys && (k in dest || exists run :: run in runs && BackedUp(db, run, k)) ::
      if k in store && exists run :: run in runs && BackedUp(db, run, k) then store[k] else dest[k]
  }

  // ---- restore -----------------------------------------------------------------------------------

  /** What a restored coordinator must be able to read: the current rounds' bases, and momentum. */
  function Referenced(db: Db): set<Key> {
    (set run | run in db.runs && CurrentId(db, run) in db.rounds :: db.rounds[CurrentId(db, run)].base)
    + (set run | run in db.runs && db.runs[run].momentum.Some? :: db.runs[run].momentum.value)
  }

  /** Objects already in the primary store stay; missing ones come from the backup if it has them. */
  function CopyAdapters(db: Db, backup: Store, primary: Store): Store {
    map k | k in primary.Keys + backup.Keys && (k in primary || k in Referenced(db)) ::
      if k in primary then primary[k] else backup[k]
  }

  predicate InFlight(db: Db, id: RoundId) {
    id in db.rounds && id.run in db.runs && db.runs[id.run].current == id.idx && db.rounds[id].status != Closed
  }

  function Rewound(t: Task, db: Db): Task {
    if InFlight(db, t.round) && (t.status == Leased || t.status == Submitted)
    then t.(status := Expired, worker := None, leaseExpires := None) else t
  }

  /** Every round in flight starts over: its submissions dropped, its tasks released, its clock reset. */
  function Reconcile(db: Db, now: int): Db {
    db.(subs := map t | t in db.subs && !(t in db.tasks && InFlight(db, db.tasks[t].round)) :: db.subs[t],
        tasks := map t | t in db.tasks :: Rewound(db.tasks[t], db),
        rounds := map id | id in db.rounds :: if InFlight(db, id) then db.rounds[id].(status := Open, openedAt := now) else db.rounds[id])
  }

  datatype Problem = CurrentMissing(run: string) | BaseMissing(run: string) | NotOpen(run: string)

  /** What the check after a restore reports. */
  predicate Reports(db: Db, store: Store, p: Problem) {
    && RunActive(db, p.run)
    && match p
       case CurrentMissing(run) => CurrentId(db, run) !in db.rounds
       case BaseMissing(run) => CurrentId(db, run) in db.rounds && db.rounds[CurrentId(db, run)].base !in store
       case NotOpen(run) => CurrentId(db, run) in db.rounds && db.rounds[CurrentId(db, run)].status != Open
  }

  ghost predicate Clean(db: Db, store: Store, run: string) {
    forall p: Problem :: p.run == run ==> !Reports(db, store, p)
  }

  function Restored(snapshot: Db, backup: Store, primary: Store, now: int): World {
    World(Reconcile(snapshot, now), CopyAdapters(snapshot, backup, primary))
  }

  // ---- what a backup holds ------------------------------------------------------------------------

  /** The newest result is the base of the round in flight: the one object the next worker needs. */
  lemma LatestResultIsCurrentBase(db: Db, run: string)
    requires Chain(db) && run in db.runs && db.runs[run].current >= 1
    requires CurrentId(db, run) in db.rounds && db.rounds[CurrentId(db, run)].status != Closed
    ensures LatestResult(db, run) == Some(db.rounds[CurrentId(db, run)].base)
  {
    hide Chain, LatestResult;
    var k := db.runs[run].current;
    CurrentFollowsResult(db, run);
    forall later: nat | later > k - 1 ensures !HasResult(db, run, later) {
      NoLaterResult(db, run, later);
    }
    LatestIs(db, run, k - 1);
  }

  lemma CurrentFollowsResult(db: Db, run: string)
    requires Chain(db) && run in db.runs && db.runs[run].current >= 1 && CurrentId(db, run) in db.rounds
    ensures var k := db.runs[run].current;
      HasResult(db, run, k - 1) && db.rounds[RoundId(run, k - 1)].result == Some(db.rounds[RoundId(run, k)].base)
  {
    hide RunSound;
    var k := db.runs[run].current;
    assert RoundSound(db, RoundId(run, k));
    assert RoundSound(db, RoundId(run, k - 1));
  }

  lemma NoLaterResult(db: Db, run: string, later: nat)
    requires Chain(db) && run in db.runs && CurrentId(db, run) in db.rounds && db.rounds[CurrentId(db, run)].status != Closed
    requires later >= db.runs[run].current
    ensures !HasResult(db, run, later)
  {
    hide RunSound;
    assert RoundId(run, later) in db.rounds ==> RoundSound(db, RoundId(run, later));
  }

  /** Round 0's base is nobody's result, so no backup of a sound table ever holds it. */
  lemma SeedIsNeverBackedUp(db: Db, run: string, other: string)
    requires Chain(db)
    ensures !BackedUp(db, other, BaseKey(run, 0))
  {
    if other in db.runs {
      assert RunSound(db, other);
      if exists idx: nat :: IsLatestResult(db, other, idx) {
        var idx: nat :| IsLatestResult(db, other, idx);
        LatestIs(db, other, idx);
        assert RoundSound(db, RoundId(other, idx));
      }
    }
  }

  // ---- what a restore leaves ---------------------------------------------------------------------------

  lemma ReconcileOpens(db: Db, now: int, id: RoundId)
    requires InFlight(db, id) && LeaseSound(db)
    ensures var n := Reconcile(db, now);
      && RoundIs(n, id, Open) && n.rounds[id].base == db.rounds[id].base && n.runs == db.runs
      && (forall t :: t in n.tasks && n.tasks[t].round == id ==> n.tasks[t].status != Leased && n.tasks[t].status != Submitted)
      && (forall t :: t in n.subs ==> t in n.tasks && n.tasks[t].round != id)
  {
    forall t | t in db.subs ensures t in db.tasks {
      assert SubSound(db, t);
    }
  }

  /** Restoring into an empty store leaves the run resumable exactly when the snapshot's current
      round was still in flight and was not the first: the first round's base is in no backup. */
  lemma RestoreIsResumableExactlyWhen(s: Sys, runs: set<string>, run: string, now: int)
    requires Sound(s) && WorkSound(s) && RefsSound(s, false) && run in runs && RunActive(s.w.db, run)
    requires CurrentId(s.w.db, run) in s.w.db.rounds
    ensures var r := Restored(s.w.db, Backup(s.w.db, s.w.store, runs, map[]), map[], now);
      Clean(r.db, r.store, run) <==> s.w.db.runs[run].current >= 1 && s.w.db.rounds[CurrentId(s.w.db, run)].status != Closed
  {
    hide RefsSound, WorkSound, ClosersSound, CreationsSound, Backup, CopyAdapters;
    var db, id := s.w.db, CurrentId(s.w.db, run);
    var r := Restored(db, Backup(db, s.w.store, runs, map[]), map[], now);
    assert RoundSound(db, id);
    if db.rounds[id].status == Closed {
      ClosedStaysClosed(db, now, id);
      assert Reports(r.db, r.store, NotOpen(run));
    } else {
      OpenAgain(s, now, id);
      if db.runs[run].current == 0 {
        SeedNotRestored(s, runs, run, now);
        assert Reports(r.db, r.store, BaseMissing(run));
      } else {
        BaseRestored(s, runs, run, now);
      }
    }
  }

  lemma ClosedStaysClosed(db: Db, now: int, id: RoundId)
    requires RoundIs(db, id, Closed)
    ensures RoundIs(Reconcile(db, now), id, Closed) && Reconcile(db, now).runs == db.runs
  {
  }

  lemma OpenAgain(s: Sys, now: int, id: RoundId)
    requires WorkSound(s) && InFlight(s.w.db, id)
    ensures RoundIs(Reconcile(s.w.db, now), id, Open) && Reconcile(s.w.db, now).rounds[id].base == s.w.db.rounds[id].base
  {
    ReconcileOpens(s.w.db, now, id);
  }

  lemma SeedNotRestored(s: Sys, runs: set<string>, run: string, now: int)
    requires Sound(s)
    ensures BaseKey(run, 0) !in Restored(s.w.db, Backup(s.w.db, s.w.store, runs, map[]), map[], now).store
  {
    forall other ensures !BackedUp(s.w.db, other, BaseKey(run, 0)) {
      SeedIsNeverBackedUp(s.w.db, run, other);
    }
  }

  lemma BaseRestored(s: Sys, runs: set<string>, run: string, now: int)
    requires Sound(s) && RefsSound(s, false) && run in runs && run in s.w.db.runs && s.w.db.runs[run].current >= 1
    requires CurrentId(s.w.db, run) in s.w.db.rounds && s.w.db.rounds[CurrentId(s.w.db, run)].status != Closed
    ensures var base := s.w.db.rounds[CurrentId(s.w.db, run)].base;
      var r := Restored(s.w.db, Backup(s.w.db, s.w.store, runs, map[]), map[], now);
      base in s.w.store && base in r.store && r.store[base] == s.w.store[base]
  {
    hide ClosersSound, CreationsSound, RunsPart, SubsPart, GatesPart, ClosersPart, DoomedPart, LatestResult;
    var db, id := s.w.db, CurrentId(s.w.db, run);
    LatestResultIsCurrentBase(db, run);
    assert RoundSound(db, id);
    assert RoundRefs(db, s.w.store, id, false);
    assert BackedUp(db, run, db.rounds[id].base);
    assert CurrentId(db, run) in db.rounds && db.rounds[id].base in Referenced(db);
  }

  /** Backup then restore is resumable. From any reachable state in which an active run's round
      k >= 1 is in flight, a backup restored into an empty store leaves that round open on the very
      base it had, with no lease and no submission in it, and the check reports nothing. */
  lemma {:induction false} BackupThenRestore(actions: seq<Action>, cfg: Config, runs: set<string>, run: string, now: int)
    requires var db := After(actions, cfg).w.db;
      && run in runs && RunActive(db, run) && db.runs[run].current >= 1
      && CurrentId(db, run) in db.rounds && db.rounds[CurrentId(db, run)].status != Closed
    ensures var s := After(actions, cfg);
      var id := CurrentId(s.w.db, run);
      var r := Restored(s.w.db, Backup(s.w.db, s.w.store, runs, map[]), map[], now);
      && LatestResult(s.w.db, run) == Some(s.w.db.rounds[id].base)
      && RoundIs(r.db, id, Open) && CurrentId(r.db, run) == id
      && r.db.rounds[id].base in s.w.store && r.db.rounds[id].base in r.store
      && r.store[r.db.rounds[id].base] == s.w.store[s.w.db.rounds[id].base]
      && (forall t :: t in r.db.tasks && r.db.tasks[t].round == id ==> r.db.tasks[t].status != Leased && r.db.tasks[t].status != Submitted)
      && (forall t :: t in r.db.subs && t in r.db.tasks ==> r.db.tasks[t].round != id)
      && Clean(r.db, r.store, run)
  {
    hide After, RefsSound, Sound, Clean, Backup, CopyAdapters, LatestResult;
    EveryRunKeepsRefs(actions, cfg, false);
    EveryRunIsSound(actions, cfg);
    EveryRunKeepsLeases(actions, cfg);
    var s := After(actions, cfg);
    LatestAtSound(s, run);
    BaseRestored(s, runs, run, now);
    ReconcileOpens(s.w.db, now, CurrentId(s.w.db, run));
    RestoreIsResumableExactlyWhen(s, runs, run, now);
  }

  lemma LatestAtSound(s: Sys, run: string)
    requires Sound(s) && run in s.w.db.runs && s.w.db.runs[run].current >= 1
    requires CurrentId(s.w.db, run) in s.w.db.rounds && s.w.db.rounds[CurrentId(s.w.db, run)].status != Closed
    ensures LatestResult(s.w.db, run) == Some(s.w.db.rounds[CurrentId(s.w.db, run)].base)
  {
    LatestResultIsCurrentBase(s.w.db, run);
  }

  // ---- a restored coordinator is a sound one ------------------------------------------------------------

  /** A coordinator starting on restored tables: nothing in progress. */
  function Resumed(w: World): Sys {
    Sys(w, map[], map[], map[], {})
  }

  lemma ReconciledChain(db: Db, now: int)
    requires Chain(db)
    ensures Chain(Reconcile(db, now))
  {
    var n := Reconcile(db, now);
    forall id | id in n.rounds ensures RoundSound(n, id) {
      assert RoundSound(db, id);
    }
    forall run | run in n.runs ensures RunSound(n, run) {
      assert RunSound(db, run);
    }
  }

  lemma ReconciledTask(db: Db, now: int, t: string)
    requires Chain(db) && TaskSound(db, t) && (t in db.subs ==> SubSound(db, t))
    ensures TaskSound(Reconcile(db, now), t)
    ensures t in Reconcile(db, now).subs ==> SubSound(Reconcile(db, now), t)
  {
    hide PlausibleSteps;
  }

  lemma ReconciledOneLease(db: Db, now: int)
    requires OneLease(db)
    ensures OneLease(Reconcile(db, now))
  {
  }

  lemma ReconciledLeases(db: Db, now: int)
    requires LeaseSound(db) && Chain(db)
    ensures LeaseSound(Reconcile(db, now))
  {
    hide TaskSound, SubSound, Chain, OneLease;
    ReconciledOneLease(db, now);
    forall t | t in db.tasks ensures TaskSound(Reconcile(db, now), t) && (t in Reconcile(db, now).subs ==> SubSound(Reconcile(db, now), t)) {
      ReconciledTask(db, now, t);
    }
    SubsHaveTasks(db);
  }

  lemma SubsHaveTasks(db: Db)
    requires LeaseSound(db)
    ensures db.subs.Keys <= db.tasks.Keys
  {
    forall t | t in db.subs ensures t in db.tasks {
      assert SubSound(db, t);
    }
  }

  lemma ReconciledLedger(db: Db, now: int)
    requires Ledger(db)
    ensures Ledger(Reconcile(db, now))
  {
    hide Ledger;
    ReconciledFrame(db, now);
    FrameKeepsLedger(db, Reconcile(db, now));
  }

  lemma ReconciledFrame(db: Db, now: int)
    ensures LedgerFrame(db, Reconcile(db, now))
  {
  }

  /** Every invariant of the protocol holds of the restored tables, so everything proved of reachable
      states' chains, leases and buckets goes on holding after a restore. */
  lemma {:induction false} RestoredIsSound(actions: seq<Action>, cfg: Config, backup: Store, primary: Store, now: int)
    ensures var r := Resumed(Restored(After(actions, cfg).w.db, backup, primary, now));
      Sound(r) && WorkSound(r) && Ledger(r.w.db)
  {
    hide After, Chain, LeaseSound, Ledger, Reconcile, CopyAdapters;
    EveryRunIsSound(actions, cfg);
    EveryRunKeepsLeases(actions, cfg);
    EveryRunKeepsLedger(actions, cfg);
    var db := After(actions, cfg).w.db;
    ReconciledChain(db, now);
    ReconciledLeases(db, now);
    ReconciledLedger(db, now);
  }

  // ---- what a restore leaves alone ------------------------------------------------------------------------

  ghost predicate FlightIsUnclosed(db: Db) {
    forall id :: id in db.rounds ==> (InFlight(db, id) <==> db.rounds[id].status != Closed)
  }

  lemma UnclosedFly(db: Db)
    requires Chain(db)
    ensures FlightIsUnclosed(db)
  {
    forall id | id in db.rounds ensures InFlight(db, id) <==> db.rounds[id].status != Closed {
      assert RoundSound(db, id);
    }
  }

  lemma RewoundTask(db: Db, now: int, t: string)
    requires FlightIsUnclosed(db) && t in db.tasks && TaskSound(db, t)
    ensures var n := Reconcile(db, now);
      && t in n.tasks
      && n.tasks[t] == (if RoundIs(db, db.tasks[t].round, Closed) || db.tasks[t].status == Abandoned || db.tasks[t].status == Expired
                        then db.tasks[t] else db.tasks[t].(status := Expired, worker := None, leaseExpires := None))
      && (t in n.subs <==> t in db.subs && RoundIs(db, db.tasks[t].round, Closed))
      && (t in n.subs ==> n.subs[t] == db.subs[t])
  {
    assert InFlight(db, db.tasks[t].round) <==> db.rounds[db.tasks[t].round].status != Closed;
  }

  lemma RewoundRounds(db: Db, now: int)
    requires FlightIsUnclosed(db)
    ensures var n := Reconcile(db, now);
      && n.runs == db.runs && n.buckets == db.buckets && n.rounds.Keys == db.rounds.Keys && n.tasks.Keys == db.tasks.Keys
      && n.subs.Keys <= db.subs.Keys
      && (forall id :: id in db.rounds ==>
            n.rounds[id] == if db.rounds[id].status == Closed then db.rounds[id] else db.rounds[id].(status := Open, openedAt := now))
  {
    hide InFlight;
  }

  /** A restore rewinds exactly the rounds that are not closed: such a round is open from now on with
      everything else in its row as it was, its submissions are gone, its leased and submitted tasks are
      released and its other tasks as they were. Closed rounds, their tasks and their submissions, the runs
      and the buckets are untouched. */
  lemma RestoreRewindsUnclosedRounds(db: Db, now: int)
    requires Chain(db) && LeaseSound(db)
    ensures var n := Reconcile(db, now);
      && n.runs == db.runs && n.buckets == db.buckets && n.rounds.Keys == db.rounds.Keys && n.tasks.Keys == db.tasks.Keys
      && (forall id :: id in db.rounds ==>
            n.rounds[id] == if db.rounds[id].status == Closed then db.rounds[id] else db.rounds[id].(status := Open, openedAt := now))
      && (forall t :: t in db.tasks ==>
            n.tasks[t] == if RoundIs(db, db.tasks[t].round, Closed) || db.tasks[t].status == Abandoned || db.tasks[t].status == Expired
                          then db.tasks[t] else db.tasks[t].(status := Expired, worker := None, leaseExpires := None))
      && db.subs.Keys <= db.tasks.Keys
      && (forall t :: t in n.subs <==> t in db.subs && RoundIs(db, db.tasks[t].round, Closed))
      && (forall t :: t in n.subs ==> n.subs[t] == db.subs[t])
  {
    hide Reconcile, SubSound, OneLease, TaskSound, Chain, RoundIs;
    UnclosedFly(db);
    hide FlightIsUnclosed;
    RewoundRounds(db, now);
    SubsHaveTasks(db);
    forall t | t in db.tasks ensures TaskSound(db, t) {}
    forall t | t in db.tasks
      ensures t in Reconcile(db, now).tasks
      ensures Reconcile(db, now).tasks[t]
           == if RoundIs(db, db.tasks[t].round, Closed) || db.tasks[t].status == Abandoned || db.tasks[t].status == Expired
              then db.tasks[t] else db.tasks[t].(status := Expired, worker := None, leaseExpires := None)
      ensures t in Reconcile(db, now).subs <==> t in db.subs && RoundIs(db, db.tasks[t].round, Closed)
      ensures t in Reconcile(db, now).subs ==> Reconcile(db, now).subs[t] == db.subs[t]
    {
      RewoundTask(db, now, t);
    }
  }

  /** The primary store loses and changes nothing, and gains only what the restored tables name: current
      bases and momentum. */
  lemma RestoreFetchesOnlyNamed(db: Db, backup: Store, primary: Store, k: Key)
    ensures var n := CopyAdapters(db, backup, primary);
      && (k in primary ==> k in n && n[k] == primary[k])
      && (k in n && k !in primary ==>
            && k in backup && n[k] == backup[k]
            && exists run :: run in db.runs
                 && ((CurrentId(db, run) in db.rounds && db.rounds[CurrentId(db, run)].base == k) || db.runs[run].momentum == Some(k)))
  {
  }

  /** Momentum that a run names comes back too, byte for byte. */
  lemma MomentumRestored(s: Sys, runs: set<string>, run: string, now: int)
    requires Sound(s) && RefsSound(s, false) && run in runs && run in s.w.db.runs && s.w.db.runs[run].momentum.Some?
    ensures var key := s.w.db.runs[run].momentum.value;
      var r := Restored(s.w.db, Backup(s.w.db, s.w.store, runs, map[]), map[], now);
      r.db.runs[run].momentum == Some(key) && key in s.w.store && key in r.store && r.store[key] == s.w.store[key]
  {
    hide ClosersSound, CreationsSound, RoundsPart, SubsPart, GatesPart, ClosersPart, DoomedPart, LatestResult;
    var db := s.w.db;
    assert RunSound(db, run) && RunRefs(db, s.w.store, run, false);
    assert BackedUp(db, run, db.runs[run].momentum.value);
    assert db.runs[run].momentum.value in Referenced(db);
  }

  // ---- what a backup and the check leave and find -----------------------------------------------------------

  /** A backup refreshes what the tables name and the store holds, adds nothing else, and drops nothing an
      earlier one has put. */
  lemma BackupRefreshesNamed(db: Db, store: Store, runs: set<string>, dest: Store, k: Key)
    ensures var n := Backup(db, store, runs, dest);
      var named := exists run :: run in runs && run in db.runs && (LatestResult(db, run) == Some(k) || db.runs[run].momentum == Some(k));
      && (k in n <==> k in dest || (named && k in store))
      && (k in n ==> n[k] == if named && k in store then store[k] else dest[k])
  {
    hide LatestResult;
    assert (exists run :: run in runs && BackedUp(db, run, k))
      <==> exists run :: run in runs && run in db.runs && (LatestResult(db, run) == Some(k) || db.runs[run].momentum == Some(k));
  }

  /** The check is clean for a run exactly when the run is not active, or its current round exists, is open,
      and has its base in the store. */
  lemma CleanExactlyWhen(db: Db, store: Store, run: string)
    ensures Clean(db, store, run) <==>
      !RunActive(db, run) || (RoundIs(db, CurrentId(db, run), Open) && db.rounds[CurrentId(db, run)].base in store)
  {
    if RunActive(db, run) {
      assert CurrentId(db, run) !in db.rounds <==> Reports(db, store, CurrentMissing(run));
      assert Reports(db, store, BaseMissing(run)) <==> CurrentId(db, run) in db.rounds && db.rounds[CurrentId(db, run)].base !in store;
      assert Reports(db, store, NotOpen(run)) <==> CurrentId(db, run) in db.rounds && db.rounds[CurrentId(db, run)].status != Open;
    }
  }
}
