/** The life of one task, told from the actions alone: claimed, kept alive by its worker's heartbeats,
    and ended by a submission, by giving up, by its deadline or by its round. */
module TaskStories {
  import opened Wrappers
  import opened Tensors
  import opened ObjectKeys
  import opened Tables
  import opened Rounds
  import opened Closer
  import opened System
  import opened LeaseSafety

  /** `reports` are the figures of the heartbeats granted so far, in order. */
  datatype Story =
    | Unborn
    | Held(worker: string, round: RoundId, budget: int, until: int, reports: seq<int>)
    | Over(how: TaskStatus, round: RoundId, budget: int, reports: seq<int>)

  function End(st: Story, how: TaskStatus): Story
    requires st.Held?
  {
    Over(how, st.round, st.budget, st.reports)
  }

  /** Whether a request by this worker is one by the holder, in time for its round. */
  predicate ByHolder(st: Story, db: Db, worker: string) {
    st.Held? && st.worker == worker && RoundIs(db, st.round, Open)
  }

  /** What one action makes of the story of task t. */
  ghost function Next(st: Story, s: Sys, a: Action, t: string): Story {
    match a
    case ClaimWork(c) =>
      if st.Unborn? && c.task == t && Grants(s.w.db, c)
      then Held(c.worker, CurrentId(s.w.db, c.run), c.offer.value.localSteps, c.now + c.lease, [])
      else st
    case Beat(u, worker, steps, now, lease) =>
      if u == t && ByHolder(st, s.w.db, worker) then st.(until := now + lease, reports := st.reports + [steps]) else st
    case Submit(u, worker, _, _, _) => if u == t && ByHolder(st, s.w.db, worker) then End(st, Submitted) else st
    case GiveUp(u, worker) => if u == t && st.Held? && st.worker == worker then End(st, Abandoned) else st
    case Expire(now) => if st.Held? && st.until < now then End(st, Expired) else st
    case StepClose(p, _) =>
      if st.Held? && p in s.closers && s.closers[p].Committing? && s.closers[p].job.id == st.round then End(st, Expired) else st
    case _ => st
  }

  ghost function StoryOf(actions: seq<Action>, cfg: Config, t: string): Story {
    if actions == [] then Unborn
    else
      var before, last := actions[..|actions| - 1], actions[|actions| - 1];
      Next(StoryOf(before, cfg, t), After(before, cfg), last, t)
  }

  /** The largest of the figures, or zero if none is positive; none before the first. */
  ghost predicate Figure(h: Option<int>, reports: seq<int>) {
    && (h.None? <==> reports == [])
    && (h.Some? ==> h.value >= 0 && (forall r :: r in reports ==> r <= h.value) && (h.value == 0 || h.value in reports))
  }

  /** The row of a task is what its story says. */
  ghost predicate Tells(st: Story, db: Db, t: string) {
    match st
    case Unborn => t !in db.tasks
    case Held(worker, round, budget, until, reports) =>
      && t in db.tasks && db.tasks[t].status == Leased && db.tasks[t].worker == Some(worker)
      && db.tasks[t].leaseExpires == Some(until) && RowTells(db.tasks[t], round, budget, reports)
    case Over(how, round, budget, reports) =>
      && how != Leased && t in db.tasks && db.tasks[t].status == how && RowTells(db.tasks[t], round, budget, reports)
  }

  ghost predicate RowTells(row: Task, round: RoundId, budget: int, reports: seq<int>) {
    row.round == round && row.localSteps == budget && Figure(row.heartbeat, reports)
  }

  // ---- one action ------------------------------------------------------------------------------

  lemma SameRow(st: Story, db: Db, n: Db, t: string)
    requires Tells(st, db, t)
    requires (t in n.tasks <==> t in db.tasks) && (t in db.tasks ==> n.tasks[t] == db.tasks[t])
    ensures Tells(st, n, t)
  {
  }

  lemma ClaimTells(st: Story, s: Sys, c: Claim, t: string)
    requires Tells(st, s.w.db, t)
    ensures Tells(Next(st, s, ClaimWork(c), t), ClaimTask(s.w.db, c), t)
  {
    hide Picked, Trained, HoldsSome;
  }

  lemma FurtherTells(h: Option<int>, reports: seq<int>, steps: int)
    requires Figure(h, reports)
    ensures Figure(Some(Further(h, steps)), reports + [steps])
  {
    forall r | r in reports + [steps] ensures r <= Further(h, steps) {
      assert r in reports || r == steps;
    }
  }

  lemma BeatTells(st: Story, s: Sys, u: string, worker: string, steps: int, now: int, lease: int, t: string)
    requires Tells(st, s.w.db, t)
    ensures var n := Heartbeat(s.w.db, u, worker, steps, now, lease);
      Tells(Next(st, s, Beat(u, worker, steps, now, lease), t), if n.Ok? then n.value else s.w.db, t)
  {
    hide Figure, Further;
    if st.Held? && u == t { FurtherTells(s.w.db.tasks[t].heartbeat, st.reports, steps); }
  }

  lemma SubmitTells(st: Story, s: Sys, u: string, worker: string, steps: int, metrics: Metrics, now: int, t: string)
    requires Tells(st, s.w.db, t)
    ensures var n := RecordSubmission(s.w.db, u, worker, steps, metrics, now);
      Tells(Next(st, s, Submit(u, worker, steps, metrics, now), t), if n.Ok? then n.value else s.w.db, t)
  {
    hide ArtifactOf, Figure;
  }

  lemma GiveUpTells(st: Story, s: Sys, u: string, worker: string, t: string)
    requires Tells(st, s.w.db, t)
    ensures Tells(Next(st, s, GiveUp(u, worker), t), Abandon(s.w.db, u, worker), t)
  {
    hide Figure;
  }

  lemma ExpireTells(st: Story, s: Sys, now: int, t: string)
    requires Tells(st, s.w.db, t)
    ensures Tells(Next(st, s, Expire(now), t), ExpireLeases(s.w.db, now), t)
  {
    hide Figure;
  }

  lemma CommitTells(st: Story, db: Db, id: RoundId, result: Option<Key>, t: string)
    requires Tells(st, db, t) && (t in db.tasks ==> db.tasks[t].round in db.rounds)
    ensures Tells(if st.Held? && st.round == id then End(st, Expired) else st, CommitClose(db, id, result), t)
  {
    hide Figure;
  }

  /** Only the commit among the steps of a close touches a task. */
  lemma StepRows(w: World, pc: Pc, c: Choice, cfg: Config)
    requires CanStep(w, pc, c)
    ensures pc.Committing? ==> Step(w, pc, c, cfg).0.db == CommitClose(w.db, pc.job.id, pc.result)
    ensures !pc.Committing? ==> Step(w, pc, c, cfg).0.db.tasks == w.db.tasks
  {
    hide CombineKept, Verdicts, IsQueryOrder, Entries, Fetch, SaveAdapter, Works, CommitClose, RecordVerdict, EndedWith, Load, Query;
    VerdictRows(w.db);
  }

  lemma VerdictRows(db: Db)
    ensures forall t, accepted :: RecordVerdict(db, t, accepted).tasks == db.tasks
  {
  }

  lemma StepTells(st: Story, s: Sys, p: nat, c: Choice, cfg: Config, t: string)
    requires Tells(st, s.w.db, t) && WorkSound(s)
    ensures Tells(Next(st, s, StepClose(p, c), t), DoStepClose(s, p, c, cfg).w.db, t)
  {
    hide Step, CommitClose, IsQueryOrder, Figure;
    if p in s.closers && CanStep(s.w, s.closers[p], c) {
      var pc := s.closers[p];
      StepRows(s.w, pc, c, cfg);
      assert t in s.w.db.tasks ==> TaskSound(s.w.db, t);
      if pc.Committing? {
        CommitTells(st, s.w.db, pc.job.id, pc.result, t);
      } else {
        SameRow(st, s.w.db, DoStepClose(s, p, c, cfg).w.db, t);
      }
    }
  }

  lemma ActionTells(st: Story, s: Sys, a: Action, cfg: Config, t: string)
    requires Tells(st, s.w.db, t) && WorkSound(s)
    ensures Tells(Next(st, s, a, t), Apply(s, a, cfg).w.db, t)
  {
    hide Tells, WorkSound, ClaimTask, ExpireLeases, Heartbeat, Abandon, RecordSubmission, DoStepClose, ByHolder, IsQueryOrder, Grants;
    match a {
      case ClaimWork(c) => ClaimTells(st, s, c, t);
      case Beat(u, worker, steps, now, lease) => BeatTells(st, s, u, worker, steps, now, lease, t);
      case Submit(u, worker, steps, metrics, now) => SubmitTells(st, s, u, worker, steps, metrics, now, t);
      case GiveUp(u, worker) => GiveUpTells(st, s, u, worker, t);
      case Expire(now) => ExpireTells(st, s, now, t);
      case StepClose(p, c) => StepTells(st, s, p, c, cfg, t);
      case _ => OtherTells(st, s, a, cfg, t);
    }
  }

  lemma OtherTells(st: Story, s: Sys, a: Action, cfg: Config, t: string)
    requires Tells(st, s.w.db, t)
    requires !(a.ClaimWork? || a.Beat? || a.Submit? || a.GiveUp? || a.Expire? || a.StepClose?)
    ensures Next(st, s, a, t) == st && Tells(st, Apply(s, a, cfg).w.db, t)
  {
    hide Tells;
    if OnTasks(a) {
      GateRows(s, a, cfg);
    } else {
      OtherActionFrame(s, a, cfg);
    }
    hide Apply;
    SameRow(st, s.w.db, Apply(s, a, cfg).w.db, t);
  }

  lemma GateRows(s: Sys, a: Action, cfg: Config)
    requires a.GateRead? || a.GateWrite?
    ensures Apply(s, a, cfg).w.db.tasks == s.w.db.tasks
  {
    hide GateVerdict, Expected;
  }

  // ---- every run -------------------------------------------------------------------------------

  /** In every run the row of every task is what its story says: a lease lives exactly until its holder
      submits or gives up, a reclaim finds its last heartbeat's deadline passed, or its round is
      committed, and the progress figure is the largest reported. */
  lemma {:induction false} EveryTaskFollowsItsStory(actions: seq<Action>, cfg: Config, t: string)
    ensures Tells(StoryOf(actions, cfg, t), After(actions, cfg).w.db, t)
  {
    hide Apply, Next, WorkSound;
    if actions == [] {
      NoStoryYet(cfg, t);
    } else {
      hide Tells;
      var before, last := actions[..|actions| - 1], actions[|actions| - 1];
      EveryTaskFollowsItsStory(before, cfg, t);
      EveryRunKeepsLeases(before, cfg);
      ActionTells(StoryOf(before, cfg, t), After(before, cfg), last, cfg, t);
    }
  }

  lemma NoStoryYet(cfg: Config, t: string)
    ensures After([], cfg).w.db.tasks == map[]
  {
  }

  /** In every run a submission's step count passes the gate exactly when it is positive and, if any
      heartbeat was granted, covers all of them and stays below the ceiling of one of them. */
  lemma HonestStepsPass(actions: seq<Action>, cfg: Config, t: string, steps: int)
    requires t in After(actions, cfg).w.db.tasks
    ensures var st := StoryOf(actions, cfg, t);
      && !st.Unborn?
      && (PlausibleSteps(steps, After(actions, cfg).w.db.tasks[t].heartbeat) <==>
            && steps > 0
            && (st.reports != [] ==>
                  && (forall r :: r in st.reports ==> r <= steps)
                  && (steps <= 100 || exists r :: r in st.reports && steps <= 3 * r + 100)))
  {
    hide After, StoryOf;
    EveryTaskFollowsItsStory(actions, cfg, t);
  }

  /** Who is answered, and how, on every request about a task: exactly the holder while its round is
      open. */
  lemma RequestsGoToHolders(actions: seq<Action>, cfg: Config, t: string, worker: string)
    ensures var st, db := StoryOf(actions, cfg, t), After(actions, cfg).w.db;
      && (HolderError(db, t, worker).None? <==> st.Held? && st.worker == worker && RoundIs(db, st.round, Open))
      && (HolderError(db, t, worker) == Some(RoundClosed) <==> st.Held? && st.worker == worker && !RoundIs(db, st.round, Open))
      && (HolderError(db, t, worker).None? || HolderError(db, t, worker) == Some(RoundClosed) || HolderError(db, t, worker) == Some(LeaseLost))
  {
    hide After, StoryOf;
    EveryTaskFollowsItsStory(actions, cfg, t);
  }

  /** A worker that beats in time keeps its lease: as long as no reclaim comes later than the last
      deadline, the holder does not let go and the round is not committed, the lease is there. */
  lemma {:induction false} BeatingKeepsLease(actions: seq<Action>, n: nat, cfg: Config, t: string)
    requires n <= |actions| && StoryOf(actions[..n], cfg, t).Held?
    requires forall i :: n <= i < |actions| ==> !Ends(actions, cfg, t, i)
    ensures var st, db := StoryOf(actions, cfg, t), After(actions, cfg).w.db;
      && st.Held? && st.worker == StoryOf(actions[..n], cfg, t).worker
      && t in db.tasks && db.tasks[t].status == Leased && db.tasks[t].worker == Some(st.worker) && db.tasks[t].leaseExpires == Some(st.until)
    decreases |actions|
  {
    hide Apply, After;
    EveryTaskFollowsItsStory(actions, cfg, t);
    if n == |actions| {
      assert actions[..n] == actions;
    } else {
      var k := |actions| - 1;
      var before := actions[..k];
      assert before[..n] == actions[..n];
      forall i | n <= i < k ensures !Ends(before, cfg, t, i) {
        assert before[..i] == actions[..i];
        assert !Ends(actions, cfg, t, i);
      }
      BeatingKeepsLease(before, n, cfg, t);
      assert !Ends(actions, cfg, t, k);
    }
  }

  /** Action i of a run may end the lease on t. */
  ghost predicate Ends(actions: seq<Action>, cfg: Config, t: string, i: nat)
    requires i < |actions|
  {
    var st, s := StoryOf(actions[..i], cfg, t), After(actions[..i], cfg);
    match actions[i]
    case Expire(now) => st.Held? && now > st.until
    case Submit(u, worker, _, _, _) => u == t && st.Held? && worker == st.worker
    case GiveUp(u, worker) => u == t && st.Held? && worker == st.worker
    case StepClose(p, _) => st.Held? && p in s.closers && s.closers[p].Committing? && s.closers[p].job.id == st.round
    case _ => false
  }
}
