/** Everything that can happen to the tables and the store, one step at a time: creating runs,
    workers claiming, reporting, uploading and submitting, submissions being gated, rounds being
    closed by any number of callers, and garbage collection. Any step of any of them may come
    between two steps of any other. */
module System {
  import opened Wrappers
  import opened Tensors
  import opened ObjectKeys
  import opened Tables
  import opened Rounds
  import opened Closer

  /** How far a creation of a run has come. */
  datatype Creation = SeedPut | RunInserted

  /** A submit request between recording the submission and recording its verdict. */
  datatype Gate = Received | Decided(accepted: bool)

  datatype Sys = Sys(
    w: World, creations: map<string, Creation>, gates: map<string, Gate>, closers: map<nat, Pc>, doomed: set<Key>)

  datatype Action =
    | PutSeed(run: string, seed: Adapter)
    | AddRun(run: string, row: Run)
    | OpenFirst(run: string, timing: Timing, now: int)
    | Expire(now: int)
    | ClaimWork(claim: Claim)
    | Beat(task: string, worker: string, steps: int, now: int, lease: int)
    | GiveUp(task: string, worker: string)
    | Upload(task: string, blob: Blob)
    | Submit(task: string, worker: string, steps: int, metrics: Metrics, now: int)
    | GateRead(task: string, io: bool)
    | GateWrite(task: string)
    | GateCrash(task: string)
    | Restart(id: RoundId, now: int)
    | StartClose(p: nat, id: RoundId)
    | StepClose(p: nat, choice: Choice)
    | FailClose(p: nat)
    | CrashClose(p: nat)
    | PlanGc(run: string, keep: nat)
    | Delete(key: Key)

  function Empty(): Sys {
    Sys(World(Db(map[], map[], map[], map[], map[]), map[]), map[], map[], map[], {})
  }

  function WithDb(s: Sys, db: Db): Sys {
    s.(w := s.w.(db := db))
  }

  function WithResult(s: Sys, r: Result<Db, Error>): Sys {
    if r.Ok? then WithDb(s, r.value) else s
  }

  function WithStore(s: Sys, store: Store): Sys {
    s.(w := s.w.(store := store))
  }

  // ---- creating a run: the seed is put before anything can name it -----------------

  function DoPutSeed(s: Sys, run: string, seed: Adapter): Sys {
    if run in s.w.db.runs || !WellFormedAdapter(seed) || !Finite(seed) then s
    else WithStore(s, s.w.store[BaseKey(run, 0) := SaveAdapter(seed)]).(creations := s.creations[run := SeedPut])
  }

  function DoAddRun(s: Sys, run: string, row: Run): Sys {
    if run !in s.creations || s.creations[run] != SeedPut then s
    else
      match InsertRun(s.w.db, run, row)
      case Err(_) => s
      case Ok(db) => WithDb(s, db).(creations := s.creations[run := RunInserted])
  }

  function DoOpenFirst(s: Sys, run: string, timing: Timing, now: int): Sys {
    if run !in s.creations || s.creations[run] != RunInserted then s
    else WithResult(s, OpenRound(s.w.db, RoundId(run, 0), BaseKey(run, 0), timing, now)).(creations := s.creations - {run})
  }

  // ---- gating ----------------------------------------------------------------------

  /** The manifest a submission must match: its round's base. */
  function Expected(w: World, t: string): Option<Manifest> {
    if t !in w.db.tasks || w.db.tasks[t].round !in w.db.rounds then None
    else
      match Fetch(w.store, w.db.rounds[w.db.tasks[t].round].base)
      case None => None
      case Some(base) => Some(ManifestOf(base))
  }

  function GateVerdict(w: World, t: string, expected: Manifest, io: bool): Verdict
    requires t in w.db.subs
  {
    var sub := w.db.subs[t];
    var heartbeat := if t in w.db.tasks then w.db.tasks[t].heartbeat else None;
    if !io || sub.artifact !in w.store then Rejected(MissingArtifact)
    else CheckStructural(w.store[sub.artifact], expected, sub.steps, heartbeat)
  }

  function DoGateRead(s: Sys, t: string, io: bool): Sys {
    if t !in s.gates || s.gates[t] != Received || t !in s.w.db.subs || t !in s.w.db.tasks then s
    else
      match Expected(s.w, t)
      case None => s.(gates := s.gates - {t})
      case Some(expected) => s.(gates := s.gates[t := Decided(GateVerdict(s.w, t, expected, io).Accepted?)])
  }

  function DoGateWrite(s: Sys, t: string): Sys {
    if t !in s.gates || !s.gates[t].Decided? then s
    else WithDb(s, RecordVerdict(s.w.db, t, s.gates[t].accepted)).(gates := s.gates - {t})
  }

  function DoSubmit(s: Sys, t: string, worker: string, steps: int, metrics: Metrics, now: int): Sys {
    match RecordSubmission(s.w.db, t, worker, steps, metrics, now)
    case Err(_) => s
    case Ok(db) => WithDb(s, db).(gates := s.gates[t := Received])
  }

  // ---- closing ---------------------------------------------------------------------

  function DoStartClose(s: Sys, p: nat, id: RoundId): Sys {
    if p in s.closers then s
    else
      match ClaimClose(s.w.db, id)
      case None => s
      case Some(db) => WithDb(s, db).(closers := s.closers[p := Claimed(id)])
  }

  ghost predicate CanStep(w: World, pc: Pc, c: Choice) {
    pc.Claimed? ==> IsQueryOrder(w.db, pc.id, c.order)
  }

  ghost function DoStepClose(s: Sys, p: nat, c: Choice, cfg: Config): Sys {
    if p !in s.closers || !CanStep(s.w, s.closers[p], c) then s
    else
      var next := Step(s.w, s.closers[p], c, cfg);
      s.(w := next.0, closers := s.closers[p := next.1])
  }

  /** An exception anywhere in a close leads to the failure path. */
  function DoFailClose(s: Sys, p: nat): Sys {
    if p !in s.closers || RoundOf(s.closers[p]).None? then s
    else s.(closers := s.closers[p := Unwinding(RoundOf(s.closers[p]).value)])
  }

  // ---- garbage collection ------------------------------------------------------------

  function ClosedRounds(db: Db, run: string): set<nat> {
    set id | id in db.rounds && id.run == run && db.rounds[id].status == Closed :: id.idx
  }

  function ClosedAfter(db: Db, run: string, idx: nat): set<nat> {
    set later | later in ClosedRounds(db, run) && later > idx
  }

  /** Closed rounds with at least `keep` closed rounds after them. */
  function Stale(db: Db, run: string, keep: nat): set<nat> {
    set idx | idx in ClosedRounds(db, run) && |ClosedAfter(db, run, idx)| >= keep
  }

  function Protected(db: Db, run: string): set<Key> {
    (set id | id in db.rounds && id.run == run :: db.rounds[id].base)
    + (set id | id in db.rounds && id.run == run && db.rounds[id].result.Some? :: db.rounds[id].result.value)
    + (if run in db.runs && db.runs[run].momentum.Some? then {db.runs[run].momentum.value} else {})
  }

  /** The submissions of stale rounds that are in the store. */
  function GcCandidates(w: World, run: string, keep: nat): set<Key> {
    if run !in w.db.runs then {}
    else set k | k in w.store && k.SubmissionKey? && k.run == run && k.idx in Stale(w.db, run, keep) && k !in Protected(w.db, run)
  }

  function DoDelete(s: Sys, key: Key): Sys {
    if key in s.doomed then WithStore(s, s.w.store - {key}).(doomed := s.doomed - {key}) else s
  }

  function DoUpload(s: Sys, t: string, blob: Blob): Sys {
    if t in s.w.db.tasks then WithStore(s, s.w.store[ArtifactOf(s.w.db, t) := blob]) else s
  }

  ghost function Apply(s: Sys, a: Action, cfg: Config): Sys {
    match a
    case PutSeed(run, seed) => DoPutSeed(s, run, seed)
    case AddRun(run, row) => DoAddRun(s, run, row)
    case OpenFirst(run, timing, now) => DoOpenFirst(s, run, timing, now)
    case Expire(now) => WithDb(s, ExpireLeases(s.w.db, now))
    case ClaimWork(claim) => WithDb(s, ClaimTask(s.w.db, claim))
    case Beat(t, worker, steps, now, lease) => WithResult(s, Heartbeat(s.w.db, t, worker, steps, now, lease))
    case GiveUp(t, worker) => WithDb(s, Abandon(s.w.db, t, worker))
    case Upload(t, blob) => DoUpload(s, t, blob)
    case Submit(t, worker, steps, metrics, now) => DoSubmit(s, t, worker, steps, metrics, now)
    case GateRead(t, io) => DoGateRead(s, t, io)
    case GateWrite(t) => DoGateWrite(s, t)
    case GateCrash(t) => s.(gates := s.gates - {t})
    case Restart(id, now) => WithDb(s, ReopenEmptyRound(s.w.db, id, now))
    case StartClose(p, id) => DoStartClose(s, p, id)
    case StepClose(p, c) => DoStepClose(s, p, c, cfg)
    case FailClose(p) => DoFailClose(s, p)
    case CrashClose(p) => s.(closers := s.closers - {p})
    case PlanGc(run, keep) => s.(doomed := s.doomed + GcCandidates(s.w, run, keep))
    case Delete(key) => DoDelete(s, key)
  }

  /** The state after a run of the whole system. */
  ghost function After(actions: seq<Action>, cfg: Config): Sys {
    if actions == [] then Empty()
    else Apply(After(actions[..|actions| - 1], cfg), actions[|actions| - 1], cfg)
  }
}
