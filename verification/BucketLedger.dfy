/** The least-trained-first scheduler over whole runs: even coverage, coverage before repetition,
    and counters that add up. */
module BucketLedger {
  import opened Wrappers
  import opened Tensors
  import ObjectKeys
  import opened Tables
  import opened BucketOrder
  import opened Rounds
  import opened Closer
  import opened System
  import CloseSafety
  import LeaseSafety

  // ---- one run's counters ------------------------------------------------------------

  /** No bucket is trained twice more than another. */
  ghost predicate Even(bs: seq<Bucket>) {
    forall i, j :: 0 <= i < |bs| && 0 <= j < |bs| ==> bs[i].times <= bs[j].times + 1
  }

  ghost predicate TouchedIn(b: Bucket, cur: nat) {
    b.last == Some(cur)
  }

  /** A bucket touched in the current round is never behind one that is not. */
  ghost predicate TouchedAhead(bs: seq<Bucket>, cur: nat) {
    forall i, j :: 0 <= i < |bs| && 0 <= j < |bs| && TouchedIn(bs[i], cur) && !TouchedIn(bs[j], cur) ==> bs[i].times >= bs[j].times
  }

  ghost predicate NoneLater(bs: seq<Bucket>, cur: nat) {
    forall i :: 0 <= i < |bs| && bs[i].last.Some? ==> bs[i].last.value <= cur
  }

  ghost predicate CountersSound(bs: seq<Bucket>, cur: nat) {
    Even(bs) && TouchedAhead(bs, cur) && NoneLater(bs, cur)
  }

  /** What a claim takes: indices of the table, none twice. */
  ghost predicate GoodPick(bs: seq<Bucket>, p: seq<int>) {
    Distinct(p) && (forall i :: i in p ==> 0 <= i < |bs|)
    && forall i, j :: i in p && 0 <= i < |bs| && 0 <= j < |bs| && j !in p ==> Ahead(bs, i, j)
  }

  lemma PicksAreGood(bs: seq<Bucket>, n: nat)
    ensures GoodPick(bs, PickBuckets(bs, n, |bs|))
  {
    if bs == [] {
      PickWithoutTable(n, 0);
    } else if n >= 1 {
      PickIsLeastTrained(bs, n, |bs|);
    }
  }

  lemma TrainingKeepsCounters(bs: seq<Bucket>, p: seq<int>, cur: nat)
    requires CountersSound(bs, cur) && GoodPick(bs, p)
    ensures CountersSound(Trained(bs, p, cur), cur)
  {
    var ns := Trained(bs, p, cur);
    forall i, j | 0 <= i < |ns| && 0 <= j < |ns| ensures ns[i].times <= ns[j].times + 1 {
      if i in p && j !in p { assert Ahead(bs, i, j); }
    }
    forall i, j | 0 <= i < |ns| && 0 <= j < |ns| && TouchedIn(ns[i], cur) && !TouchedIn(ns[j], cur)
      ensures ns[i].times >= ns[j].times
    {
      assert j !in p;
      if i in p { assert bs[j].times <= bs[i].times + 1; }
    }
  }

  /** A bucket already touched in the round is taken again only when that leaves no bucket of
      the run untouched. */
  lemma RepeatCoversAll(bs: seq<Bucket>, p: seq<int>, cur: nat, i: int)
    requires CountersSound(bs, cur) && GoodPick(bs, p) && i in p && 0 <= i < |bs| && TouchedIn(bs[i], cur)
    ensures forall j :: 0 <= j < |bs| ==> j in p || TouchedIn(bs[j], cur)
  {
    forall j | 0 <= j < |bs| && j !in p ensures TouchedIn(bs[j], cur) {
      assert Ahead(bs, i, j);
    }
  }

  // ---- the tables ------------------------------------------------------------------------

  /** The tasks, of every status, ever given bucket b of a run. */
  ghost function Holders(db: Db, run: string, b: int): set<string> {
    set t | t in db.tasks && db.tasks[t].round.run == run && b in db.tasks[t].buckets
  }

  ghost function HoldersIn(db: Db, id: RoundId, b: int): set<string> {
    set t | t in db.tasks && db.tasks[t].round == id && b in db.tasks[t].buckets
  }

  ghost predicate Repeated(db: Db, id: RoundId, b: int) {
    exists t, u :: t in HoldersIn(db, id, b) && u in HoldersIn(db, id, b) && t != u
  }

  /** No bucket is given out twice in a round while another has not been given out at all. */
  ghost predicate CoverageFirst(db: Db, id: RoundId) {
    id.run in db.buckets ==>
      forall b, c :: 0 <= b < |db.buckets[id.run]| && 0 <= c < |db.buckets[id.run]| && Repeated(db, id, b) ==> HoldersIn(db, id, c) != {}
  }

  ghost predicate RunLedger(db: Db, run: string) {
    && run in db.runs && run in db.buckets
    && (var bs, cur := db.buckets[run], db.runs[run].current;
        && |bs| == db.runs[run].numBuckets
        && CountersSound(bs, cur)
        && (forall b :: 0 <= b < |bs| ==> bs[b].times == |Holders(db, run, b)|)
        && (forall b :: 0 <= b < |bs| ==> (TouchedIn(bs[b], cur) <==> HoldersIn(db, CurrentId(db, run), b) != {})))
  }

  ghost predicate TaskLedger(db: Db, t: string) {
    && t in db.tasks && db.tasks[t].round.run in db.buckets
    && Distinct(db.tasks[t].buckets)
    && forall b :: b in db.tasks[t].buckets ==> 0 <= b < |db.buckets[db.tasks[t].round.run]|
  }

  ghost predicate Ledger(db: Db) {
    && db.buckets.Keys == db.runs.Keys
    && (forall run :: run in db.runs ==> RunLedger(db, run))
    && (forall t :: t in db.tasks ==> TaskLedger(db, t))
    && (forall id: RoundId :: id.run in db.runs ==> CoverageFirst(db, id))
  }

  /** Nothing the ledger looks at changes. */
  ghost predicate LedgerFrame(db: Db, n: Db) {
    && n.buckets == db.buckets && n.runs.Keys == db.runs.Keys && n.tasks.Keys == db.tasks.Keys
    && (forall run :: run in db.runs ==> n.runs[run].current == db.runs[run].current && n.runs[run].numBuckets == db.runs[run].numBuckets)
    && (forall t :: t in db.tasks ==> n.tasks[t].round == db.tasks[t].round && n.tasks[t].buckets == db.tasks[t].buckets)
  }

  lemma SameHolders(db: Db, n: Db)
    requires LedgerFrame(db, n)
    ensures forall run, b :: Holders(n, run, b) == Holders(db, run, b)
    ensures forall id, b :: HoldersIn(n, id, b) == HoldersIn(db, id, b)
  {
  }

  lemma FrameKeepsLedger(db: Db, n: Db)
    requires Ledger(db) && LedgerFrame(db, n)
    ensures Ledger(n)
  {
    SameHolders(db, n);
    hide Holders, HoldersIn, CountersSound, Distinct;
    forall run | run in n.runs ensures RunLedger(n, run) {
      assert RunLedger(db, run);
    }
    forall t | t in n.tasks ensures TaskLedger(n, t) {
      assert TaskLedger(db, t);
    }
    forall id: RoundId | id.run in n.runs ensures CoverageFirst(n, id) {
      FrameKeepsCoverage(db, n, id);
    }
  }

  lemma FrameKeepsCoverage(db: Db, n: Db, id: RoundId)
    requires CoverageFirst(db, id) && LedgerFrame(db, n)
    ensures CoverageFirst(n, id)
  {
    SameHolders(db, n);
    hide HoldersIn;
    assert forall b :: Repeated(n, id, b) ==> Repeated(db, id, b);
  }

  // ---- claiming ------------------------------------------------------------------------------

  lemma ClaimPick(db: Db, c: Claim)
    requires Ledger(db) && Grants(db, c)
    ensures c.run in db.buckets && GoodPick(db.buckets[c.run], LeasedTask(db, c).buckets)
    ensures CountersSound(db.buckets[c.run], db.runs[c.run].current)
  {
    assert RunLedger(db, c.run);
    PicksAreGood(db.buckets[c.run], c.offer.value.nBuckets);
  }

  lemma ClaimHolders(db: Db, c: Claim, run: string, id: RoundId, b: int)
    requires Grants(db, c)
    ensures var n, t := ClaimTask(db, c), LeasedTask(db, c);
      && Holders(n, run, b) == Holders(db, run, b) + (if run == c.run && b in t.buckets then {c.task} else {})
      && HoldersIn(n, id, b) == HoldersIn(db, id, b) + (if id == t.round && b in t.buckets then {c.task} else {})
      && c.task !in Holders(db, run, b) && c.task !in HoldersIn(db, id, b)
  {
    hide Picked, Trained;
  }

  lemma ClaimElsewhere(db: Db, c: Claim, run: string)
    requires RunLedger(db, run) && Grants(db, c) && run != c.run
    ensures RunLedger(ClaimTask(db, c), run)
  {
    hide Picked, Trained, Holders, HoldersIn, CountersSound;
    var n := ClaimTask(db, c);
    forall b ensures Holders(n, run, b) == Holders(db, run, b) && HoldersIn(n, CurrentId(db, run), b) == HoldersIn(db, CurrentId(db, run), b) {
      ClaimHolders(db, c, run, CurrentId(db, run), b);
    }
  }

  lemma TrainedBucket(db: Db, c: Claim, b: nat)
    requires RunLedger(db, c.run) && Grants(db, c) && b < |db.buckets[c.run]|
    ensures var n, cur := ClaimTask(db, c), CurrentId(db, c.run);
      && c.run in n.buckets && b < |n.buckets[c.run]|
      && n.buckets[c.run][b].times == |Holders(n, c.run, b)|
      && (TouchedIn(n.buckets[c.run][b], cur.idx) <==> HoldersIn(n, cur, b) != {})
  {
    hide Picked, Holders, HoldersIn, CountersSound;
    ClaimHolders(db, c, c.run, CurrentId(db, c.run), b);
  }

  lemma ClaimHere(db: Db, c: Claim)
    requires Ledger(db) && Grants(db, c)
    ensures RunLedger(ClaimTask(db, c), c.run)
  {
    hide Picked, Holders, HoldersIn, CountersSound, GoodPick;
    assert RunLedger(db, c.run);
    ClaimPick(db, c);
    TrainingKeepsCounters(db.buckets[c.run], LeasedTask(db, c).buckets, db.runs[c.run].current);
    forall b | 0 <= b < |db.buckets[c.run]|
      ensures var n, cur := ClaimTask(db, c), CurrentId(db, c.run);
        && n.buckets[c.run][b].times == |Holders(n, c.run, b)|
        && (TouchedIn(n.buckets[c.run][b], cur.idx) <==> HoldersIn(n, cur, b) != {})
    {
      TrainedBucket(db, c, b);
    }
  }

  lemma ClaimRunLedger(db: Db, c: Claim, run: string)
    requires Ledger(db) && Grants(db, c) && run in db.runs
    ensures RunLedger(ClaimTask(db, c), run)
  {
    hide RunLedger, TaskLedger, CoverageFirst, ClaimTask, Grants;
    if run == c.run {
      ClaimHere(db, c);
    } else {
      ClaimElsewhere(db, c, run);
    }
  }

  lemma ClaimTaskLedger(db: Db, c: Claim, t: string)
    requires Ledger(db) && Grants(db, c) && t in ClaimTask(db, c).tasks
    ensures TaskLedger(ClaimTask(db, c), t)
  {
    hide Picked, CountersSound;
    ClaimPick(db, c);
    if t != c.task { assert TaskLedger(db, t); }
  }

  lemma RepeatedBefore(db: Db, c: Claim, id: RoundId, b: int)
    requires Grants(db, c) && Repeated(ClaimTask(db, c), id, b)
    ensures Repeated(db, id, b) || (id == LeasedTask(db, c).round && b in LeasedTask(db, c).buckets && HoldersIn(db, id, b) != {})
  {
    ClaimHolders(db, c, c.run, id, b);
    hide Picked, Holders, HoldersIn, Grants, ClaimTask, LeasedTask;
    var n := ClaimTask(db, c);
    var t, u :| t in HoldersIn(n, id, b) && u in HoldersIn(n, id, b) && t != u;
    if t != c.task && u != c.task {
      assert t in HoldersIn(db, id, b) && u in HoldersIn(db, id, b);
    }
  }

  lemma RepeatIsFull(db: Db, c: Claim, id: RoundId, b: int, d: int)
    requires Ledger(db) && Grants(db, c) && id == LeasedTask(db, c).round && b in LeasedTask(db, c).buckets
    requires c.run in db.buckets && 0 <= b < |db.buckets[c.run]| && 0 <= d < |db.buckets[c.run]| && HoldersIn(db, id, b) != {}
    ensures d in LeasedTask(db, c).buckets || HoldersIn(db, id, d) != {}
  {
    hide Picked, Holders, HoldersIn, Repeated, CountersSound, GoodPick;
    assert RunLedger(db, c.run);
    ClaimPick(db, c);
    RepeatCoversAll(db.buckets[c.run], LeasedTask(db, c).buckets, id.idx, b);
  }

  lemma ClaimCoverage(db: Db, c: Claim, id: RoundId)
    requires Ledger(db) && Grants(db, c) && id.run in db.runs
    ensures CoverageFirst(ClaimTask(db, c), id)
  {
    hide Picked, Holders, HoldersIn, Repeated, RunLedger, TaskLedger;
    var n := ClaimTask(db, c);
    assert CoverageFirst(db, id);
    assert id.run in n.buckets ==> id.run in db.buckets && |n.buckets[id.run]| == |db.buckets[id.run]|;
    forall b, d | id.run in n.buckets && 0 <= b < |n.buckets[id.run]| && 0 <= d < |n.buckets[id.run]| && Repeated(n, id, b)
      ensures HoldersIn(n, id, d) != {}
    {
      RepeatedBefore(db, c, id, b);
      ClaimHolders(db, c, c.run, id, d);
      if !Repeated(db, id, b) {
        RepeatIsFull(db, c, id, b, d);
      }
    }
  }

  lemma ClaimKeepsLedger(db: Db, c: Claim)
    requires Ledger(db)
    ensures Ledger(ClaimTask(db, c))
  {
    hide RunLedger, TaskLedger, CoverageFirst, Picked, Trained;
    if Grants(db, c) {
      var n := ClaimTask(db, c);
      ClaimPick(db, c);
      forall run | run in n.runs ensures RunLedger(n, run) {
        ClaimRunLedger(db, c, run);
      }
      forall t | t in n.tasks ensures TaskLedger(n, t) {
        ClaimTaskLedger(db, c, t);
      }
      forall id: RoundId | id.run in n.runs ensures CoverageFirst(n, id) {
        ClaimCoverage(db, c, id);
      }
    }
  }

  // ---- new runs and new rounds -------------------------------------------------------------------

  lemma FreshRunLedger(db: Db, run: string, row: Run, r: string)
    requires Ledger(db) && InsertRun(db, run, row).Ok? && r in InsertRun(db, run, row).value.runs
    ensures RunLedger(InsertRun(db, run, row).value, r)
  {
    var n := InsertRun(db, run, row).value;
    if r != run {
      assert RunLedger(db, r);
      hide CountersSound;
    } else {
      forall b ensures Holders(n, run, b) == {} && HoldersIn(n, CurrentId(n, run), b) == {} {
        assert forall t :: t in db.tasks ==> TaskLedger(db, t);
      }
    }
  }

  lemma InsertKeepsLedger(db: Db, run: string, row: Run)
    requires Ledger(db) && InsertRun(db, run, row).Ok?
    ensures Ledger(InsertRun(db, run, row).value)
  {
    hide RunLedger, FreshBuckets;
    var n := InsertRun(db, run, row).value;
    forall r | r in n.runs ensures RunLedger(n, r) {
      FreshRunLedger(db, run, row, r);
    }
    forall t | t in n.tasks ensures TaskLedger(n, t) {
      assert TaskLedger(db, t);
    }
    forall id: RoundId | id.run in n.runs ensures CoverageFirst(n, id) {
      FreshCoverage(db, run, row, id);
    }
  }

  lemma FreshCoverage(db: Db, run: string, row: Run, id: RoundId)
    requires Ledger(db) && InsertRun(db, run, row).Ok? && id.run in InsertRun(db, run, row).value.runs
    ensures CoverageFirst(InsertRun(db, run, row).value, id)
  {
    hide RunLedger, FreshBuckets, HoldersIn;
    var n := InsertRun(db, run, row).value;
    assert forall b :: HoldersIn(n, id, b) == HoldersIn(db, id, b) by { InsertSameHolders(db, run, row, id); }
    assert forall b :: Repeated(n, id, b) ==> Repeated(db, id, b);
    if id.run in db.runs {
      assert CoverageFirst(db, id);
    } else {
      forall b ensures HoldersIn(db, id, b) == {} {
        NobodyInNewRun(db, id, b);
      }
    }
  }

  lemma InsertSameHolders(db: Db, run: string, row: Run, id: RoundId)
    requires InsertRun(db, run, row).Ok?
    ensures forall b :: HoldersIn(InsertRun(db, run, row).value, id, b) == HoldersIn(db, id, b)
  {
  }

  lemma NobodyInNewRun(db: Db, id: RoundId, b: int)
    requires Ledger(db) && id.run !in db.runs
    ensures HoldersIn(db, id, b) == {}
  {
    assert forall t :: t in db.tasks ==> TaskLedger(db, t);
  }

  ghost predicate TasksPlaced(db: Db) {
    forall t :: t in db.tasks ==> db.tasks[t].round in db.rounds
  }

  lemma NobodyInNewRound(db: Db, id: RoundId, b: int)
    requires TasksPlaced(db) && id !in db.rounds
    ensures HoldersIn(db, id, b) == {}
  {
  }

  lemma OpenedLedger(db: Db, id: RoundId, base: ObjectKeys.Key, timing: Timing, now: int)
    requires RunLedger(db, id.run) && TasksPlaced(db) && CloseSafety.MayOpen(db, id)
    ensures RunLedger(OpenRound(db, id, base, timing, now).value, id.run)
  {
    hide Holders, HoldersIn;
    var n, run := OpenRound(db, id, base, timing, now).value, id.run;
    OpenSameHolders(db, id, base, timing, now);
    assert CurrentId(n, run) == id;
    var bs := db.buckets[run];
    forall b | 0 <= b < |bs| ensures HoldersIn(n, id, b) == {} && !TouchedIn(bs[b], id.idx) {
      NobodyInNewRound(db, id, b);
      assert id.idx == 0 ==> CurrentId(db, run) == id;
    }
  }

  lemma OpenSameHolders(db: Db, id: RoundId, base: ObjectKeys.Key, timing: Timing, now: int)
    requires OpenRound(db, id, base, timing, now).Ok?
    ensures var n := OpenRound(db, id, base, timing, now).value;
      && (forall run, b :: Holders(n, run, b) == Holders(db, run, b))
      && (forall o, b :: HoldersIn(n, o, b) == HoldersIn(db, o, b))
  {
  }

  lemma OpenKeepsLedger(db: Db, id: RoundId, base: ObjectKeys.Key, timing: Timing, now: int)
    requires Ledger(db) && TasksPlaced(db) && CloseSafety.MayOpen(db, id)
    ensures OpenRound(db, id, base, timing, now).Ok? && Ledger(OpenRound(db, id, base, timing, now).value)
  {
    hide Holders, HoldersIn, CountersSound, Distinct;
    var n := OpenRound(db, id, base, timing, now).value;
    OpenSameHolders(db, id, base, timing, now);
    forall r | r in n.runs ensures RunLedger(n, r) {
      if r == id.run {
        OpenedLedger(db, id, base, timing, now);
      } else {
        assert RunLedger(db, r);
      }
    }
    forall t | t in n.tasks ensures TaskLedger(n, t) {
      assert TaskLedger(db, t);
    }
    forall o: RoundId | o.run in n.runs ensures CoverageFirst(n, o) {
      assert CoverageFirst(db, o);
      assert forall b :: Repeated(n, o, b) ==> Repeated(db, o, b);
    }
  }

  // ---- every step ---------------------------------------------------------------------------------

  lemma QuietStepFrame(w: World, pc: Pc, c: Choice, cfg: Config)
    requires CanStep(w, pc, c) && !pc.Advancing?
    ensures LedgerFrame(w.db, Step(w, pc, c, cfg).0.db)
  {
    hide CombineKept, Verdicts, IsQueryOrder, Entries, Fetch, SaveAdapter, Works;
  }

  lemma StepKeepsLedger(s: Sys, p: nat, c: Choice, cfg: Config)
    requires Ledger(s.w.db) && TasksPlaced(s.w.db) && CloseSafety.Sound(s)
    ensures Ledger(DoStepClose(s, p, c, cfg).w.db)
  {
    hide Ledger, IsQueryOrder, TasksPlaced, Step, LedgerFrame;
    if p in s.closers && CanStep(s.w, s.closers[p], c) {
      var pc := s.closers[p];
      if pc.Advancing? {
        AdvanceKeepsLedger(s, pc, c, cfg);
      } else {
        QuietStepFrame(s.w, pc, c, cfg);
        FrameKeepsLedger(s.w.db, DoStepClose(s, p, c, cfg).w.db);
      }
    }
  }

  lemma AdvanceKeepsLedger(s: Sys, pc: Pc, c: Choice, cfg: Config)
    requires Ledger(s.w.db) && TasksPlaced(s.w.db) && CloseSafety.Chain(s.w.db)
    requires pc.Advancing? && CloseSafety.PcSound(s.w.db, pc)
    ensures Ledger(Step(s.w, pc, c, cfg).0.db)
  {
    hide Ledger, TasksPlaced, CloseSafety.Chain, CloseSafety.PcSound, CloseSafety.MayOpen;
    if pc.job.id.idx + 1 < pc.job.run.target {
      CloseSafety.AdvancingMayOpen(s.w.db, pc);
      OpenKeepsLedger(s.w.db, RoundId(pc.job.id.run, pc.job.id.idx + 1), pc.published, TimingOf(pc.job.round), c.now);
    } else {
      FrameKeepsLedger(s.w.db, FinishRun(s.w.db, pc.job.id.run));
    }
  }

  lemma OpenFirstKeepsLedger(s: Sys, run: string, timing: Timing, now: int)
    requires Ledger(s.w.db) && TasksPlaced(s.w.db) && CloseSafety.Sound(s)
    ensures Ledger(DoOpenFirst(s, run, timing, now).w.db)
  {
    hide Ledger, TasksPlaced;
    if run in s.creations && s.creations[run] == RunInserted {
      OpenKeepsLedger(s.w.db, RoundId(run, 0), ObjectKeys.BaseKey(run, 0), timing, now);
    }
  }

  ghost predicate OnLedger(a: Action) {
    a.AddRun? || a.OpenFirst? || a.ClaimWork? || a.StepClose?
  }

  lemma LeaseFrame(s: Sys, a: Action, cfg: Config)
    requires a.Expire? || a.GiveUp?
    ensures LedgerFrame(s.w.db, Apply(s, a, cfg).w.db)
  {
    hide LedgerFrame, ExpireLeases, Abandon;
    if a.Expire? { ExpireFrame(s.w.db, a.now); } else { AbandonFrame(s.w.db, a.task, a.worker); }
  }

  lemma ExpireFrame(db: Db, now: int)
    ensures LedgerFrame(db, ExpireLeases(db, now))
  {
    hide Overdue;
  }

  lemma AbandonFrame(db: Db, t: string, worker: string)
    ensures LedgerFrame(db, Abandon(db, t, worker))
  {
  }

  lemma BeatFrame(db: Db, t: string, worker: string, steps: int, now: int, lease: int)
    requires Heartbeat(db, t, worker, steps, now, lease).Ok?
    ensures LedgerFrame(db, Heartbeat(db, t, worker, steps, now, lease).value)
  {
    hide Further;
  }

  lemma SubmitFrame(db: Db, t: string, worker: string, steps: int, metrics: Metrics, now: int)
    requires RecordSubmission(db, t, worker, steps, metrics, now).Ok?
    ensures LedgerFrame(db, RecordSubmission(db, t, worker, steps, metrics, now).value)
  {
    hide ArtifactOf;
  }

  lemma VerdictFrame(db: Db, t: string, accepted: bool)
    ensures LedgerFrame(db, RecordVerdict(db, t, accepted))
  {
  }

  lemma SameFrame(db: Db)
    ensures LedgerFrame(db, db)
  {
  }

  lemma TaskFrame(s: Sys, a: Action, cfg: Config)
    requires CloseSafety.TaskAction(a) && !a.ClaimWork?
    ensures LedgerFrame(s.w.db, Apply(s, a, cfg).w.db)
  {
    hide LedgerFrame, Heartbeat, RecordSubmission, RecordVerdict, ExpireLeases, Abandon;
    SameFrame(s.w.db);
    match a
    case Beat(t, worker, steps, now, lease) =>
      if Heartbeat(s.w.db, t, worker, steps, now, lease).Ok? { BeatFrame(s.w.db, t, worker, steps, now, lease); }
    case Submit(t, worker, steps, metrics, now) =>
      if RecordSubmission(s.w.db, t, worker, steps, metrics, now).Ok? { SubmitFrame(s.w.db, t, worker, steps, metrics, now); }
    case GateWrite(t) => if t in s.gates && s.gates[t].Decided? { VerdictFrame(s.w.db, t, s.gates[t].accepted); }
    case _ => LeaseFrame(s, a, cfg);
  }

  lemma RoundFrame(s: Sys, a: Action, cfg: Config)
    requires a.Restart? || a.StartClose? || a.FailClose? || a.CrashClose?
    ensures LedgerFrame(s.w.db, Apply(s, a, cfg).w.db)
  {
    hide ShouldRestart, RoundOf;
  }

  lemma OtherFrame(s: Sys, a: Action, cfg: Config)
    requires !OnLedger(a)
    ensures LedgerFrame(s.w.db, Apply(s, a, cfg).w.db)
  {
    hide Apply;
    if CloseSafety.TaskAction(a) {
      TaskFrame(s, a, cfg);
    } else if CloseSafety.StoreAction(a) {
      CloseSafety.StoreActionFrame(s, a, cfg);
    } else {
      CloseSafety.BystandersOnly(a);
      RoundFrame(s, a, cfg);
    }
  }

  lemma ActionKeepsLedger(s: Sys, a: Action, cfg: Config)
    requires Ledger(s.w.db) && TasksPlaced(s.w.db) && CloseSafety.Sound(s)
    ensures Ledger(Apply(s, a, cfg).w.db)
  {
    hide Ledger, TasksPlaced, CloseSafety.Sound, DoOpenFirst, DoStepClose, ClaimTask, InsertRun, LedgerFrame;
    match a
    case AddRun(run, row) => if InsertRun(s.w.db, run, row).Ok? { InsertKeepsLedger(s.w.db, run, row); }
    case OpenFirst(run, timing, now) => OpenFirstKeepsLedger(s, run, timing, now);
    case ClaimWork(c) => ClaimKeepsLedger(s.w.db, c);
    case StepClose(p, c) => StepKeepsLedger(s, p, c, cfg);
    case _ => OtherKeepsLedger(s, a, cfg);
  }

  lemma OtherKeepsLedger(s: Sys, a: Action, cfg: Config)
    requires Ledger(s.w.db) && !OnLedger(a)
    ensures Ledger(Apply(s, a, cfg).w.db)
  {
    hide Ledger, Apply, LedgerFrame;
    OtherFrame(s, a, cfg);
    FrameKeepsLedger(s.w.db, Apply(s, a, cfg).w.db);
  }

  lemma PlacedInEveryRun(actions: seq<Action>, cfg: Config)
    ensures TasksPlaced(After(actions, cfg).w.db)
  {
    hide After;
    LeaseSafety.EveryRunKeepsLeases(actions, cfg);
    var db := After(actions, cfg).w.db;
    forall t | t in db.tasks ensures db.tasks[t].round in db.rounds {
      assert LeaseSafety.TaskSound(db, t);
    }
  }

  /** In every reachable state, for claims of any sizes in any order: no bucket of a run has been
      trained more than once more often than another, each counter is the number of tasks ever
      given its bucket, and no round has given a bucket out twice while another was never given
      out. Tasks count whatever became of them. */
  lemma {:induction false} EveryRunKeepsLedger(actions: seq<Action>, cfg: Config)
    ensures Ledger(After(actions, cfg).w.db)
  {
    hide Apply, Ledger;
    if actions == [] {
      EmptyLedger();
    } else {
      var before := actions[..|actions| - 1];
      EveryRunKeepsLedger(before, cfg);
      PlacedInEveryRun(before, cfg);
      CloseSafety.EveryRunIsSound(before, cfg);
      ActionKeepsLedger(After(before, cfg), actions[|actions| - 1], cfg);
    }
  }

  lemma EmptyLedger()
    ensures Ledger(Empty().w.db)
  {
  }
}
