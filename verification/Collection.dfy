/** Garbage collection as it reads the store: by the texts of keys. */
module Collection {
  import opened Wrappers
  import opened ObjectKeys
  import opened Tables
  import opened Rounds
  import opened Closer
  import opened System
  import opened CloseSafety
  import opened LeaseSafety
  import opened RefSafety
  import opened RefCloses

  function Texts(keys: set<Key>): set<string> {
    set k | k in keys :: KeyText(k)
  }

  /** What listing the store under the prefixes of the stale rounds finds, less what is protected. */
  function Listed(w: World, run: string, keep: nat): set<string> {
    if run !in w.db.runs then {}
    else
      set k, idx | k in w.store && idx in Stale(w.db, run, keep) && SubmissionsPrefix(run, idx) <= KeyText(k)
        && KeyText(k) !in Texts(Protected(w.db, run)) :: KeyText(k)
  }

  ghost predicate SlashFreeRuns(keys: set<Key>) {
    forall k :: k in keys ==> SlashFree(k.run)
  }

  lemma ProtectedKeys(db: Db, run: string)
    requires Chain(db)
    ensures forall k :: k in Protected(db, run) ==> k.run == run && !k.SubmissionKey?
  {
    forall id | id in db.rounds ensures RoundSound(db, id) {}
    if run in db.runs { assert RunSound(db, run); }
  }

  /** The listing finds exactly the candidates, as long as no run id holds a slash. */
  lemma ListsCandidates(w: World, run: string, keep: nat)
    requires Chain(w.db) && SlashFree(run) && SlashFreeRuns(w.store.Keys)
    ensures Listed(w, run, keep) == Texts(GcCandidates(w, run, keep))
  {
    hide KeyText, SubmissionsPrefix, Stale, Protected, SlashFree, Chain;
    if run in w.db.runs {
      ProtectedKeys(w.db, run);
      forall k | k in w.store ensures KeyText(k) in Texts(Protected(w.db, run)) <==> k in Protected(w.db, run) {
        SameTextSameKey(k, Protected(w.db, run));
      }
      forall k, idx: nat | k in w.store
        ensures SubmissionsPrefix(run, idx) <= KeyText(k) <==> k.SubmissionKey? && k.run == run && k.idx == idx
      {
        ListingIsExact(run, idx, k);
      }
    }
  }

  lemma SameTextSameKey(k: Key, keys: set<Key>)
    requires SlashFree(k.run) && SlashFreeRuns(keys)
    ensures KeyText(k) in Texts(keys) <==> k in keys
  {
    hide KeyText, SlashFree;
    if KeyText(k) in Texts(keys) {
      var l :| l in keys && KeyText(l) == KeyText(k);
      KeyTextIsInjective(k, l);
    }
  }

  /** A slash in a run id can cost another run's object: once a round of one run is stale, everything
      stored of a run whose id continues the prefix of that round's submissions is listed for deletion,
      its bases included. */
  lemma SlashesAreCollected(w: World, run: string, keep: nat, idx: nat, name: string, k: Key)
    requires Chain(w.db) && SlashFree(run) && run in w.db.runs && idx in Stale(w.db, run, keep) && k in w.store
    requires k.run == run + "/" + ("rounds/" + (Padded(idx) + "/" + ("submissions/" + name)))
    ensures KeyText(k) in Listed(w, run, keep)
  {
    hide KeyText, SubmissionsPrefix, Stale, Protected, SlashFree, Chain, Padded;
    SlashesLeakIntoListing(run, idx, name, k);
    ProtectedKeys(w.db, run);
    forall l | l in Protected(w.db, run) ensures KeyText(l) != KeyText(k) {
      ListingIsExact(run, idx, l);
    }
  }

  // ---- reachable states ---------------------------------------------------------------------------

  lemma NeededRun(s: Sys, k: Key)
    requires Sound(s) && WorkSound(s) && StillNeeded(s.w.db, k)
    ensures k.run in s.w.db.runs
  {
    hide ClosersSound, CreationsSound, OneLease;
    var db := s.w.db;
    if id :| id in db.rounds && (db.rounds[id].base == k || db.rounds[id].result == Some(k)) {
      assert RoundSound(db, id);
    } else if run :| run in db.runs && db.runs[run].momentum == Some(k) {
      assert RunSound(db, run);
    } else {
      var t :| t in db.subs && t in db.tasks && db.subs[t].artifact == k;
      assert SubSound(db, t) && TaskSound(db, t);
      assert RoundSound(db, db.tasks[t].round);
    }
  }

  /** In every reachable state of runs without a slash in their ids, no object that is still needed is
      deleted, not even under the text of its key. */
  lemma CollectionIsSafeInText(actions: seq<Action>, cfg: Config, k: Key, l: Key)
    requires k in After(actions, cfg).doomed && StillNeeded(After(actions, cfg).w.db, l)
    requires forall run :: run in After(actions, cfg).w.db.runs ==> SlashFree(run)
    ensures KeyText(k) != KeyText(l)
  {
    hide After, Sound, WorkSound, RefsSound, StillNeeded, KeyText, SlashFree;
    EveryRunKeepsRefs(actions, cfg, false);
    EveryRunIsSound(actions, cfg);
    EveryRunKeepsLeases(actions, cfg);
    var s := After(actions, cfg);
    DoomedClosed(s, k);
    DoomedRun(s, k);
    NeededRun(s, l);
    CollectionIsSafe(actions, cfg, k);
    if KeyText(k) == KeyText(l) { KeyTextIsInjective(k, l); }
  }

  lemma DoomedRun(s: Sys, k: Key)
    requires Sound(s) && k.SubmissionKey? && RoundIs(s.w.db, RoundId(k.run, k.idx), Closed)
    ensures k.run in s.w.db.runs
  {
    hide ClosersSound, CreationsSound;
    assert RoundSound(s.w.db, RoundId(k.run, k.idx));
  }

  // ---- what is collected ----------------------------------------------------------------------------

  /** How many rounds of a run are closed: those before the current one, and that one if it is. */
  function ClosedCount(db: Db, run: string): nat
    requires run in db.runs
  {
    if CurrentId(db, run) !in db.rounds then 0
    else db.runs[run].current + (if db.rounds[CurrentId(db, run)].status == Closed then 1 else 0)
  }

  lemma {:induction false} EarlierRoundsExist(db: Db, run: string, idx: nat)
    requires Chain(db) && run in db.runs && idx <= db.runs[run].current && CurrentId(db, run) in db.rounds
    ensures RoundId(run, idx) in db.rounds
    decreases db.runs[run].current - idx
  {
    if idx < db.runs[run].current {
      EarlierRoundsExist(db, run, idx + 1);
      assert RoundSound(db, RoundId(run, idx + 1));
    }
  }

  lemma ClosedAreTheFirst(db: Db, run: string)
    requires Chain(db) && run in db.runs
    ensures forall idx: nat :: idx in ClosedRounds(db, run) <==> idx < ClosedCount(db, run)
  {
    assert RunSound(db, run);
    forall idx: nat ensures idx in ClosedRounds(db, run) <==> idx < ClosedCount(db, run) {
      var id := RoundId(run, idx);
      if id in db.rounds { assert RoundSound(db, id); }
      if CurrentId(db, run) in db.rounds && idx <= db.runs[run].current { EarlierRoundsExist(db, run, idx); }
      assert idx in ClosedRounds(db, run) <==> RoundIs(db, id, Closed) by {
        if RoundIs(db, id, Closed) { assert id in db.rounds && id.run == run && db.rounds[id].status == Closed && id.idx == idx; }
      }
    }
  }

  /** The numbers from lo up to but not including hi. */
  function Span(lo: nat, hi: nat): (r: set<nat>)
    requires lo <= hi
    ensures (forall i :: i in r <==> lo <= i < hi) && |r| == hi - lo
    decreases hi - lo
  {
    if lo == hi then {} else Span(lo, hi - 1) + {hi - 1}
  }

  lemma StaleAre(db: Db, run: string, keep: nat, idx: nat)
    requires Chain(db) && run in db.runs
    ensures idx in Stale(db, run, keep) <==> idx < ClosedCount(db, run) && idx + keep < ClosedCount(db, run)
  {
    hide Chain, ClosedRounds, ClosedCount;
    ClosedAreTheFirst(db, run);
    var n := ClosedCount(db, run);
    if idx < n {
      assert ClosedAfter(db, run, idx) == Span(idx + 1, n);
    }
  }

  /** In every reachable state the collection of a run takes all stored submissions of its closed rounds
      but those of the newest it is to keep, and nothing else. */
  lemma {:induction false} CollectsExactly(actions: seq<Action>, cfg: Config, run: string, keep: nat, k: Key)
    requires run in After(actions, cfg).w.db.runs
    ensures var w := After(actions, cfg).w;
      k in GcCandidates(w, run, keep) <==>
        k in w.store && k.SubmissionKey? && k.run == run && k.idx + keep < ClosedCount(w.db, run)
  {
    hide After, Chain, Stale, Protected, ClosedCount, ClosersSound, CreationsSound;
    EveryRunIsSound(actions, cfg);
    var w := After(actions, cfg).w;
    ProtectedKeys(w.db, run);
    if k.SubmissionKey? { StaleAre(w.db, run, keep, k.idx); }
  }
}
