/** The coverage diagnostic that counts live tasks only, when it fires, and the end-to-end
    promise from a claim to the rows its worker trains on. */
module Coverage {
  import opened Wrappers
  import Budget
  import Partition
  import BatchStream
  import SinglePass
  import opened Tables
  import opened BucketOrder
  import opened Rounds
  import opened BucketLedger

  ghost predicate Live(t: Task) {
    t.status == Leased || t.status == Submitted
  }

  ghost function LiveHolders(db: Db, id: RoundId, b: int): set<string> {
    set t | t in HoldersIn(db, id, b) && Live(db.tasks[t])
  }

  ghost predicate LiveRepeat(db: Db, id: RoundId, b: int) {
    exists t, u :: t in LiveHolders(db, id, b) && u in LiveHolders(db, id, b) && t != u
  }

  ghost predicate InTable(db: Db, id: RoundId, b: int) {
    id.run in db.buckets && 0 <= b < |db.buckets[id.run]|
  }

  /** The diagnostic: some bucket has two live holders while some bucket has none. */
  ghost predicate LiveCheckFires(db: Db, id: RoundId) {
    && (exists b :: InTable(db, id, b) && LiveRepeat(db, id, b))
    && (exists c :: InTable(db, id, c) && LiveHolders(db, id, c) == {})
  }

  /** A bucket that was handed out in the round and whose every holder has since dropped out. */
  ghost predicate AllDropped(db: Db, id: RoundId, c: int) {
    InTable(db, id, c) && HoldersIn(db, id, c) != {} && LiveHolders(db, id, c) == {}
  }

  /** The diagnostic reports a scheduling fault. On any table the scheduler can produce it fires
      exactly when a bucket has two live holders and the holders of another have all expired or
      been abandoned: never for a bucket that was passed over. */
  lemma LiveCheckFiresExactlyWhen(db: Db, id: RoundId)
    requires Ledger(db) && id.run in db.runs
    ensures LiveCheckFires(db, id) <==>
      (exists b :: InTable(db, id, b) && LiveRepeat(db, id, b)) && (exists c :: AllDropped(db, id, c))
  {
    hide HoldersIn, RunLedger, TaskLedger;
    assert CoverageFirst(db, id);
    if LiveCheckFires(db, id) {
      var b :| InTable(db, id, b) && LiveRepeat(db, id, b);
      var c :| InTable(db, id, c) && LiveHolders(db, id, c) == {};
      assert Repeated(db, id, b);
      assert HoldersIn(db, id, c) != {};
      assert AllDropped(db, id, c);
    } else if exists c :: AllDropped(db, id, c) {
      var c :| AllDropped(db, id, c);
      assert InTable(db, id, c) && LiveHolders(db, id, c) == {};
    }
  }

  /** So a round none of whose tasks has dropped out never trips it. */
  lemma NoDropoutsNoAlarm(db: Db, id: RoundId)
    requires Ledger(db) && id.run in db.runs
    requires forall t :: t in db.tasks && db.tasks[t].round == id ==> Live(db.tasks[t])
    ensures !LiveCheckFires(db, id)
  {
    LiveCheckFiresExactlyWhen(db, id);
    hide LiveCheckFires;
    forall c ensures !AllDropped(db, id, c) {
      assert LiveHolders(db, id, c) == HoldersIn(db, id, c);
    }
  }

  // ---- the alarm on a healthy run -----------------------------------------------------

  /** An open round of a two-bucket run before anyone has claimed. */
  ghost predicate TwoFreshBuckets(db: Db, run: string) {
    Workable(db, run) && run in db.buckets && db.buckets[run] == FreshBuckets(2) && db.tasks == map[] && db.runs[run].numBuckets == 2
  }

  function OneBucket(run: string, worker: string, task: string, now: int): Claim {
    Claim(run, worker, true, Some(Offer(1, 10)), task, now, 5)
  }

  ghost function ThreeClaims(db: Db, run: string): Db {
    var one := ClaimTask(db, OneBucket(run, "a", "A", 0));
    var two := ClaimTask(one, OneBucket(run, "b", "B", 1));
    var beat := Heartbeat(two, "A", "a", 1, 4, 5);
    if beat.Err? then db else ClaimTask(beat.value, OneBucket(run, "c", "C", 5))
  }

  lemma FirstOfTwo(bs: seq<Bucket>, i: int)
    requires |bs| == 2 && 0 <= i < 2 && Ahead(bs, i, 1 - i)
    ensures PickBuckets(bs, 1, 2) == [i]
  {
    hide PickBuckets;
    PickIsLeastTrained(bs, 1, 2);
    var p := PickBuckets(bs, 1, 2);
    AheadIsTotal(bs, i, 1 - i);
    assert p == [p[0]] && p[0] in p;
    hide Ahead;
  }

  lemma ClaimGives(db: Db, c: Claim, i: int)
    requires c.run in db.buckets && |db.buckets[c.run]| == 2 && Workable(db, c.run) && db.runs[c.run].numBuckets == 2
    requires c.eligible && c.offer == Some(Offer(1, 10)) && c.task !in db.tasks
    requires forall t :: t in db.tasks ==> db.tasks[t].worker != Some(c.worker)
    requires 0 <= i < 2 && Ahead(db.buckets[c.run], i, 1 - i)
    ensures var n := ClaimTask(db, c);
      && n.runs == db.runs && n.rounds == db.rounds && n.subs == db.subs
      && n.tasks == db.tasks[c.task := Task(CurrentId(db, c.run), [i], 10, Leased, Some(c.worker), Some(c.now + c.lease), None)]
      && n.buckets == db.buckets[c.run := Trained(db.buckets[c.run], [i], db.runs[c.run].current)]
  {
    FirstOfTwo(db.buckets[c.run], i);
    assert Grants(db, c);
  }

  lemma TwoClaims(db: Db, run: string)
    requires TwoFreshBuckets(db, run)
    ensures var cur, id := db.runs[run].current, CurrentId(db, run);
      var two := ClaimTask(ClaimTask(db, OneBucket(run, "a", "A", 0)), OneBucket(run, "b", "B", 1));
      && two.runs == db.runs && two.rounds == db.rounds
      && two.tasks == map["A" := Task(id, [0], 10, Leased, Some("a"), Some(5), None),
                          "B" := Task(id, [1], 10, Leased, Some("b"), Some(6), None)]
      && run in two.buckets && two.buckets[run] == [Bucket(1, Some(cur)), Bucket(1, Some(cur))]
  {
    hide PickBuckets, Grants, ClaimTask;
    var cur := db.runs[run].current;
    ClaimGives(db, OneBucket(run, "a", "A", 0), 0);
    var one := ClaimTask(db, OneBucket(run, "a", "A", 0));
    assert one.buckets[run] == [Bucket(1, Some(cur)), Bucket(0, None)];
    ClaimGives(one, OneBucket(run, "b", "B", 1), 1);
  }

  ghost predicate ThreeTasks(db: Db, id: RoundId) {
    && db.tasks.Keys == {"A", "B", "C"}
    && (forall t :: t in db.tasks ==> db.tasks[t].round == id)
    && db.tasks["A"].buckets == [0] && db.tasks["B"].buckets == [1] && db.tasks["C"].buckets == [0]
    && db.tasks["A"].status == Leased && db.tasks["B"].status == Expired && db.tasks["C"].status == Leased
    && id.run in db.buckets && |db.buckets[id.run]| == 2
  }

  lemma ThreeTasksTripAlarm(db: Db, id: RoundId)
    requires ThreeTasks(db, id)
    ensures LiveCheckFires(db, id)
  {
    assert "A" in LiveHolders(db, id, 0) && "C" in LiveHolders(db, id, 0);
    assert LiveRepeat(db, id, 0) && InTable(db, id, 0);
    assert LiveHolders(db, id, 1) == {} && InTable(db, id, 1);
  }

  /** Three claims, one heartbeat and one lease running out: the scheduler did everything right
      and the diagnostic still fires. */
  lemma HealthyRunTripsAlarm(db: Db, run: string)
    requires TwoFreshBuckets(db, run)
    ensures LiveCheckFires(ExpireLeases(ThreeClaims(db, run), 8), CurrentId(db, run))
  {
    hide PickBuckets, Grants, ClaimTask, LiveCheckFires, InTable, Trained;
    TwoClaims(db, run);
    var two := ClaimTask(ClaimTask(db, OneBucket(run, "a", "A", 0)), OneBucket(run, "b", "B", 1));
    var beat := Heartbeat(two, "A", "a", 1, 4, 5).value;
    ClaimGives(beat, OneBucket(run, "c", "C", 5), 0);
    ThreeTasksTripAlarm(ExpireLeases(ThreeClaims(db, run), 8), CurrentId(db, run));
  }

  // ---- from the claim to the rows ---------------------------------------------------------

  lemma ClaimedBuckets(db: Db, c: Claim)
    requires Ledger(db) && Grants(db, c) && 1 <= c.offer.value.nBuckets <= db.runs[c.run].numBuckets
    ensures var bs := LeasedTask(db, c).buckets;
      && |bs| == c.offer.value.nBuckets && Distinct(bs)
      && forall b :: b in bs ==> 0 <= b < db.runs[c.run].numBuckets
  {
    assert RunLedger(db, c.run);
    PickIsLeastTrained(db.buckets[c.run], c.offer.value.nBuckets, db.runs[c.run].numBuckets);
  }

  /** The end-to-end promise. A claim is granted with the plan the budget offered; the worker
      derives the rows of its buckets from the shared partition. With at most one target pass and
      both sides reading the same batch shape, the full training run stays in its first epoch,
      trains no row twice, and trains no held-out row. */
  lemma ClaimedTaskTrainsInOnePass(
    db: Db, c: Claim, plan: Budget.Plan, remaining: int, measured: Option<real>, calibrated: Option<real>,
    coldStart: real, s: Budget.Shape, o: Budget.Overheads, minUsable: int,
    p: Partition.Split, microBatch: nat, gradAccum: nat, draws: nat -> seq<nat>)
    requires Ledger(db) && Grants(db, c)
    requires Budget.Offered(plan, remaining, measured, calibrated, coldStart, s, o, minUsable)
    requires c.offer.value == Offer(plan.nBuckets as nat, plan.localSteps)
    requires s.targetPasses <= 1.0 && microBatch >= 1 && gradAccum >= 1
    requires SinglePass.Agree(s, p, microBatch, gradAccum) && p.numBuckets == db.runs[c.run].numBuckets && p.numBuckets >= 1
    requires var rows := p.RowsFor(LeasedTask(db, c).buckets);
      rows.Ok? ==> BatchStream.DrawsEveryEpoch(draws, |rows.value|)
    ensures p.RowsFor(LeasedTask(db, c).buckets).Ok?
    ensures var rows := p.RowsFor(LeasedTask(db, c).buckets).value;
      && 1 <= microBatch <= |rows|
      && SinglePass.InOnePass(rows, microBatch, draws, LeasedTask(db, c).localSteps * gradAccum)
      && (forall row :: row in rows ==> row !in p.EvalIndices())
  {
    hide Ledger, Budget.Offered;
    var buckets := LeasedTask(db, c).buckets;
    Budget.PlanIsExact(plan, remaining, measured, calibrated, coldStart, s, o, minUsable);
    ClaimedBuckets(db, c);
    Partition.AssignmentInRange(p, buckets);
    SinglePass.TaskTrainsInOnePass(
      plan, remaining, measured, calibrated, coldStart, s, o, minUsable, p, buckets, microBatch, gradAccum, draws);
  }
}
