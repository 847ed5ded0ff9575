/** Round lifecycle and leases: each function is one immediate transaction on the tables. */
module Rounds {
  import opened Wrappers
  import opened ObjectKeys
  import opened Tables
  import opened BucketOrder

  datatype Error = UnknownRun | DuplicateRow | NotEligible | LeaseLost | RoundClosed | CloseFailed

  // ---- creating runs and rounds ----------------------------------------------

  function FreshBuckets(n: nat): seq<Bucket> {
    seq(n, _ => Bucket(0, None))
  }

  /** The run row and its bucket rows, in one transaction. */
  function InsertRun(db: Db, run: string, row: Run): Result<Db, Error> {
    if run in db.runs then Err(DuplicateRow)
    else Ok(db.(
      runs := db.runs[run := row.(status := Active, current := 0, momentum := None)],
      buckets := db.buckets[run := FreshBuckets(row.numBuckets)]))
  }

  datatype Timing = Timing(targetSteps: int, minSec: int, maxSec: int)

  function OpenRound(db: Db, id: RoundId, base: Key, timing: Timing, now: int): Result<Db, Error> {
    if id in db.rounds then Err(DuplicateRow)
    else if id.run !in db.runs then Err(UnknownRun)
    else Ok(db.(
      rounds := db.rounds[id := Round(base, Open, timing.targetSteps, timing.minSec, timing.maxSec, now, None)],
      runs := db.runs[id.run := db.runs[id.run].(current := id.idx)]))
  }

  // ---- progress and the close rule ---------------------------------------------

  /** Submissions of a round that are accepted or not yet gated. */
  ghost predicate Counts(db: Db, id: RoundId, t: string) {
    t in db.subs && t in db.tasks && db.tasks[t].round == id && db.subs[t].accepted != Some(false)
  }

  ghost function Counted(db: Db, id: RoundId): set<string> {
    set t | t in db.subs && Counts(db, id, t)
  }

  ghost function StepsOf(subs: map<string, Submission>, ts: set<string>): int
    requires ts <= subs.Keys
  {
    if ts == {} then 0
    else var t :| t in ts; subs[t].steps + StepsOf(subs, ts - {t})
  }

  ghost function Progress(db: Db, id: RoundId): int {
    StepsOf(db.subs, Counted(db, id))
  }

  /** Whichever submission is counted last, the total is the same. */
  lemma {:induction false} StepsOfOne(subs: map<string, Submission>, ts: set<string>, t: string)
    requires ts <= subs.Keys && t in ts
    ensures StepsOf(subs, ts) == subs[t].steps + StepsOf(subs, ts - {t})
  {
    var u :| u in ts && StepsOf(subs, ts) == subs[u].steps + StepsOf(subs, ts - {u});
    if u != t {
      StepsOfOne(subs, ts - {u}, t);
      StepsOfOne(subs, ts - {t}, u);
      assert ts - {u} - {t} == ts - {t} - {u};
    }
  }

  function Elapsed(r: Round, now: int): int {
    now - r.openedAt
  }

  /** steps >= target and elapsed >= min, or elapsed >= max and something was submitted. */
  ghost predicate ShouldClose(db: Db, id: RoundId, now: int) {
    && RoundIs(db, id, Open)
    && (var r := db.rounds[id];
        || (Progress(db, id) >= r.targetSteps && Elapsed(r, now) >= r.minSec * SECOND)
        || (Elapsed(r, now) >= r.maxSec * SECOND && Counted(db, id) != {}))
  }

  ghost predicate ShouldRestart(db: Db, id: RoundId, now: int) {
    && RoundIs(db, id, Open)
    && Elapsed(db.rounds[id], now) >= db.rounds[id].maxSec * SECOND
    && Counted(db, id) == {}
  }

  ghost function ReopenEmptyRound(db: Db, id: RoundId, now: int): Db {
    if ShouldRestart(db, id, now) then db.(rounds := db.rounds[id := db.rounds[id].(openedAt := now)]) else db
  }

  // ---- leases --------------------------------------------------------------------

  predicate Overdue(t: Task, now: int) {
    t.status == Leased && t.leaseExpires.Some? && t.leaseExpires.value < now
  }

  function ExpireLeases(db: Db, now: int): Db {
    db.(tasks := map t | t in db.tasks :: if Overdue(db.tasks[t], now) then db.tasks[t].(status := Expired) else db.tasks[t])
  }

  ghost predicate Holds(db: Db, t: string, worker: string, id: RoundId) {
    t in db.tasks && db.tasks[t].status == Leased && db.tasks[t].worker == Some(worker) && db.tasks[t].round == id
  }

  ghost predicate HoldsSome(db: Db, worker: string, id: RoundId) {
    exists t :: t in db.tasks && Holds(db, t, worker, id)
  }

  /** What the budget offers an eligible worker: a shard size and a step count. */
  datatype Offer = Offer(nBuckets: nat, localSteps: int)

  datatype ClaimOutcome = NoWork | Resumed | Fresh

  predicate Workable(db: Db, run: string) {
    RunActive(db, run) && RoundIs(db, CurrentId(db, run), Open)
  }

  function Trained(bs: seq<Bucket>, picked: seq<int>, idx: nat): (r: seq<Bucket>)
    ensures |r| == |bs|
  {
    seq(|bs|, b requires 0 <= b < |bs| => if b in picked then Bucket(bs[b].times + 1, Some(idx)) else bs[b])
  }

  function BucketsOf(db: Db, run: string): seq<Bucket> {
    if run in db.buckets then db.buckets[run] else []
  }

  function Picked(db: Db, run: string, n: nat): seq<int>
    requires run in db.runs
  {
    PickBuckets(BucketsOf(db, run), n, db.runs[run].numBuckets)
  }

  /** A claim: who asks, whether the run takes such a worker, what the budget would offer it, the
      fresh task id, the time and the lease length. */
  datatype Claim = Claim(
    run: string, worker: string, eligible: bool, offer: Option<Offer>, task: string, now: int, lease: int)

  function LeasedTask(db: Db, c: Claim): Task
    requires c.run in db.runs && c.offer.Some?
  {
    Task(CurrentId(db, c.run), Picked(db, c.run, c.offer.value.nBuckets), c.offer.value.localSteps, Leased,
         Some(c.worker), Some(c.now + c.lease), None)
  }

  function WithLease(db: Db, c: Claim): Db
    requires c.run in db.runs && c.offer.Some?
  {
    var t := LeasedTask(db, c);
    var bs := BucketsOf(db, c.run);
    db.(tasks := db.tasks[c.task := t],
        buckets := if c.run in db.buckets then db.buckets[c.run := Trained(bs, t.buckets, t.round.idx)] else db.buckets)
  }

  ghost predicate Grants(db: Db, c: Claim) {
    && Workable(db, c.run) && c.eligible && !HoldsSome(db, c.worker, CurrentId(db, c.run))
    && c.offer.Some? && c.task !in db.tasks
  }

  ghost function ClaimTask(db: Db, c: Claim): Db {
    if Grants(db, c) then WithLease(db, c) else db
  }

  ghost function ClaimAnswer(db: Db, c: Claim): Result<ClaimOutcome, Error> {
    if !RunActive(db, c.run) then Ok(NoWork)
    else if !c.eligible then Err(NotEligible)
    else if !RoundIs(db, CurrentId(db, c.run), Open) then Ok(NoWork)
    else if HoldsSome(db, c.worker, CurrentId(db, c.run)) then Ok(Resumed)
    else if c.offer.None? then Ok(NoWork)
    else if c.task in db.tasks then Err(DuplicateRow)
    else Ok(Fresh)
  }

  /** The lease must still be held, and its round still open. */
  function HolderError(db: Db, t: string, worker: string): Option<Error> {
    if t !in db.tasks || db.tasks[t].worker != Some(worker) then Some(LeaseLost)
    else if db.tasks[t].status != Leased then Some(LeaseLost)
    else if !RoundIs(db, db.tasks[t].round, Open) then Some(RoundClosed)
    else None
  }

  function Further(last: Option<int>, steps: int): int {
    var seen := if last.Some? then last.value else 0;
    if seen >= steps then seen else steps
  }

  function Heartbeat(db: Db, t: string, worker: string, steps: int, now: int, lease: int): Result<Db, Error> {
    match HolderError(db, t, worker)
    case Some(e) => Err(e)
    case None =>
      var task := db.tasks[t];
      Ok(db.(tasks := db.tasks[t := task.(leaseExpires := Some(now + lease), heartbeat := Some(Further(task.heartbeat, steps)))]))
  }

  function Abandon(db: Db, t: string, worker: string): Db {
    if t in db.tasks && db.tasks[t].worker == Some(worker) && db.tasks[t].status == Leased
    then db.(tasks := db.tasks[t := db.tasks[t].(status := Abandoned, leaseExpires := None)])
    else db
  }

  /** The object a task's worker uploads to: derived from the task, never taken from the worker. */
  function ArtifactOf(db: Db, t: string): Key
    requires t in db.tasks
  {
    SubmissionKey(db.tasks[t].round.run, db.tasks[t].round.idx, t)
  }

  function RecordSubmission(db: Db, t: string, worker: string, steps: int, metrics: Metrics, now: int): Result<Db, Error> {
    match HolderError(db, t, worker)
    case Some(e) => Err(e)
    case None =>
      Ok(db.(subs := db.subs[t := Submission(ArtifactOf(db, t), steps, metrics, None, now)],
             tasks := db.tasks[t := db.tasks[t].(status := Submitted, leaseExpires := None)]))
  }

  function RecordVerdict(db: Db, t: string, accepted: bool): Db {
    if t in db.subs then db.(subs := db.subs[t := db.subs[t].(accepted := Some(accepted))]) else db
  }

  // ---- closing -------------------------------------------------------------------

  /** The conditional update that makes one caller the closer. */
  function ClaimClose(db: Db, id: RoundId): Option<Db> {
    if RoundIs(db, id, Open) then Some(db.(rounds := db.rounds[id := db.rounds[id].(status := Closing)])) else None
  }

  /** The failure path: give the round back, if it is still being closed. */
  function ReleaseClose(db: Db, id: RoundId): Db {
    if RoundIs(db, id, Closing) then db.(rounds := db.rounds[id := db.rounds[id].(status := Open)]) else db
  }

  function NameMomentum(db: Db, run: string): Db {
    if run in db.runs then db.(runs := db.runs[run := db.runs[run].(momentum := Some(MomentumKey(run)))]) else db
  }

  function EndedWith(t: Task, id: RoundId): Task {
    if t.round == id && t.status == Leased then t.(status := Expired, leaseExpires := None) else t
  }

  /** The round is closed with its result, and every lease still out on it is expired. */
  function CommitClose(db: Db, id: RoundId, result: Option<Key>): Db {
    if id !in db.rounds then db
    else db.(
      rounds := db.rounds[id := db.rounds[id].(status := Closed, result := result)],
      tasks := map t | t in db.tasks :: EndedWith(db.tasks[t], id))
  }

  function FinishRun(db: Db, run: string): Db {
    if run in db.runs then db.(runs := db.runs[run := db.runs[run].(status := Done)]) else db
  }
}
