/** The coordinator's tables, and the object store as a map. Times are microseconds: the stored
    texts compare as the instants do (module Timestamps). */
module Tables {
  import opened Wrappers
  import opened Tensors
  import opened ObjectKeys

  datatype RoundId = RoundId(run: string, idx: nat)

  datatype RunStatus = Active | Done

  datatype Run = Run(
    status: RunStatus, current: nat, target: int, mode: string, lr: real, beta: real, momentum: Option<Key>,
    numBuckets: nat)

  datatype RoundStatus = Open | Closing | Closed

  datatype Round = Round(
    base: Key, status: RoundStatus, targetSteps: int, minSec: int, maxSec: int, openedAt: int, result: Option<Key>)

  datatype TaskStatus = Leased | Submitted | Abandoned | Expired

  datatype Task = Task(
    round: RoundId, buckets: seq<int>, localSteps: int, status: TaskStatus, worker: Option<string>,
    leaseExpires: Option<int>, heartbeat: Option<int>)

  /** What a worker reports of its speed, as far as throughput is concerned: nothing, a rate for a GPU
      model, or something that cannot be read as one. */
  datatype Metrics = NoRate | Rate(gpu: string, stepsPerMin: real) | Unreadable

  /** `accepted` is None until the submission has been gated. */
  datatype Submission = Submission(artifact: Key, steps: int, metrics: Metrics, accepted: Option<bool>, receivedAt: int)

  datatype Bucket = Bucket(times: nat, last: Option<nat>)

  datatype Db = Db(
    runs: map<string, Run>, rounds: map<RoundId, Round>, tasks: map<string, Task>, subs: map<string, Submission>,
    buckets: map<string, seq<Bucket>>)

  type Store = map<Key, Blob>

  const SECOND := 1000000

  predicate RoundIs(db: Db, id: RoundId, status: RoundStatus) {
    id in db.rounds && db.rounds[id].status == status
  }

  predicate RunActive(db: Db, run: string) {
    run in db.runs && db.runs[run].status == Active
  }

  /** The round a run's `current` names. */
  function CurrentId(db: Db, run: string): RoundId
    requires run in db.runs
  {
    RoundId(run, db.runs[run].current)
  }
}
