/** The coordinator as a program over its tables and its store. Each method is proved to do what
    the transition of the same name says, so everything proved of the transitions holds of it. */
module Coordinators {
  import opened Wrappers
  import opened Tensors
  import NormGate
  import DominanceCap
  import Divergence
  import OuterStep
  import opened Contributions
  import opened ObjectKeys
  import opened Tables
  import BucketOrder
  import opened Rounds
  import opened Closer
  import opened System
  import opened CloseRun
  import Polling
  import Disaster

  class Coordinator {
    var runs: map<string, Run>
    var rounds: map<RoundId, Round>
    var tasks: map<string, Task>
    var subs: map<string, Submission>
    var buckets: map<string, seq<Bucket>>
    var store: Store

    constructor ()
      ensures World() == Empty().w
    {
      runs, rounds, tasks, subs, buckets, store := map[], map[], map[], map[], map[], map[];
    }

    ghost function Tables(): Db
      reads this
    {
      Db(runs, rounds, tasks, subs, buckets)
    }

    ghost function World(): World
      reads this
    {
      Closer.World(Tables(), store)
    }

    // ---- creating a run ---------------------------------------------------------------

    /** Puts the seed before any row can name it, then the run with its buckets, then round 0. */
    method NewRun(run: string, row: Run, seed: Adapter, timing: Timing, now: int) returns (created: bool)
      requires WellFormedAdapter(seed) && Finite(seed)
      modifies this
      ensures created <==> run !in old(runs)
      ensures !created ==> World() == old(World())
      ensures var s := Sys(old(World()), map[], map[], map[], {});
        created ==> World() == DoOpenFirst(DoAddRun(DoPutSeed(s, run, seed), run, row), run, timing, now).w
    {
      if run in runs { return false; }
      store := store[BaseKey(run, 0) := SaveAdapter(seed)];
      runs := runs[run := row.(status := Active, current := 0, momentum := None)];
      var rows: seq<Bucket> := [];
      for b := 0 to row.numBuckets
        invariant rows == FreshBuckets(b)
      {
        rows := rows + [Bucket(0, None)];
      }
      buckets := buckets[run := rows];
      var refused := OpenRound(RoundId(run, 0), BaseKey(run, 0), timing, now);
      return true;
    }

    method OpenRound(id: RoundId, base: Key, timing: Timing, now: int) returns (r: Option<Error>)
      modifies `rounds, `runs
      ensures var spec := Rounds.OpenRound(old(Tables()), id, base, timing, now);
        (spec.Ok? ==> r.None? && Tables() == spec.value) && (spec.Err? ==> r == Some(spec.error) && Tables() == old(Tables()))
    {
      if id in rounds { return Some(DuplicateRow); }
      if id.run !in runs { return Some(UnknownRun); }
      rounds := rounds[id := Round(base, Open, timing.targetSteps, timing.minSec, timing.maxSec, now, None)];
      runs := runs[id.run := runs[id.run].(current := id.idx)];
      return None;
    }

    // ---- leases ---------------------------------------------------------------------------

    method ExpireLeases(now: int) returns (count: nat)
      modifies `tasks
      ensures Tables() == Rounds.ExpireLeases(old(Tables()), now)
      ensures count == |set t | t in old(tasks) && Overdue(old(tasks)[t], now)|
    {
      var overdue := set t | t in tasks && Overdue(tasks[t], now);
      tasks := map t | t in tasks :: if t in overdue then tasks[t].(status := Expired) else tasks[t];
      return |overdue|;
    }

    /** Leases one task. A worker that already holds a lease in the round gets that one back. */
    method ClaimTask(c: Claim) returns (r: Result<ClaimOutcome, Error>, held: Option<string>)
      modifies `tasks, `buckets
      ensures Tables() == Rounds.ClaimTask(old(Tables()), c)
      ensures r == ClaimAnswer(old(Tables()), c)
      ensures r == Ok(Resumed) ==>
        held.Some? && held.value in tasks && Holds(Tables(), held.value, c.worker, CurrentId(Tables(), c.run))
      ensures r == Ok(Fresh) ==> held == Some(c.task)
    {
      held := None;
      if c.run !in runs || runs[c.run].status != Active { return Ok(NoWork), None; }
      if !c.eligible { return Err(NotEligible), None; }
      var id := RoundId(c.run, runs[c.run].current);
      if id !in rounds || rounds[id].status != Open { return Ok(NoWork), None; }
      var live := set t | t in tasks && tasks[t].status == Leased && tasks[t].worker == Some(c.worker) && tasks[t].round == id;
      if live != {} {
        var t :| t in live;
        assert Holds(Tables(), t, c.worker, id);
        return Ok(Resumed), Some(t);
      }
      assert !HoldsSome(Tables(), c.worker, id) by {
        assert forall t :: t in tasks && Holds(Tables(), t, c.worker, id) ==> t in live;
      }
      if c.offer.None? { return Ok(NoWork), None; }
      if c.task in tasks { return Err(DuplicateRow), None; }
      var table := if c.run in buckets then buckets[c.run] else [];
      var picked := BucketOrder.PickBuckets(table, c.offer.value.nBuckets, runs[c.run].numBuckets);
      tasks := tasks[c.task := Task(id, picked, c.offer.value.localSteps, Leased, Some(c.worker), Some(c.now + c.lease), None)];
      if c.run in buckets {
        BucketOrder.PickIsDistinct(table, c.offer.value.nBuckets, runs[c.run].numBuckets);
        var trained := MarkTrained(table, picked, id.idx);
        buckets := buckets[c.run := trained];
      }
      return Ok(Fresh), Some(c.task);
    }

    method Heartbeat(t: string, worker: string, steps: int, now: int, lease: int) returns (r: Option<Error>)
      modifies `tasks
      ensures var spec := Rounds.Heartbeat(old(Tables()), t, worker, steps, now, lease);
        (spec.Ok? ==> r.None? && Tables() == spec.value) && (spec.Err? ==> r == Some(spec.error) && Tables() == old(Tables()))
    {
      if t !in tasks || tasks[t].worker != Some(worker) { return Some(LeaseLost); }
      if tasks[t].status != Leased { return Some(LeaseLost); }
      var id := tasks[t].round;
      if id !in rounds || rounds[id].status != Open { return Some(RoundClosed); }
      tasks := tasks[t := tasks[t].(leaseExpires := Some(now + lease), heartbeat := Some(Further(tasks[t].heartbeat, steps)))];
      return None;
    }

    method Abandon(t: string, worker: string)
      modifies `tasks
      ensures Tables() == Rounds.Abandon(old(Tables()), t, worker)
    {
      if t in tasks && tasks[t].worker == Some(worker) && tasks[t].status == Leased {
        tasks := tasks[t := tasks[t].(status := Abandoned, leaseExpires := None)];
      }
    }

    // ---- submitting ----------------------------------------------------------------------------

    method RecordSubmission(t: string, worker: string, steps: int, metrics: Metrics, now: int) returns (r: Option<Error>)
      modifies `tasks, `subs
      ensures var spec := Rounds.RecordSubmission(old(Tables()), t, worker, steps, metrics, now);
        (spec.Ok? ==> r.None? && Tables() == spec.value) && (spec.Err? ==> r == Some(spec.error) && Tables() == old(Tables()))
    {
      if t !in tasks || tasks[t].worker != Some(worker) { return Some(LeaseLost); }
      if tasks[t].status != Leased { return Some(LeaseLost); }
      var id := tasks[t].round;
      if id !in rounds || rounds[id].status != Open { return Some(RoundClosed); }
      subs := subs[t := Submission(SubmissionKey(id.run, id.idx, t), steps, metrics, None, now)];
      tasks := tasks[t := tasks[t].(status := Submitted, leaseExpires := None)];
      return None;
    }

    method RecordVerdict(t: string, accepted: bool)
      modifies `subs
      ensures Tables() == Rounds.RecordVerdict(old(Tables()), t, accepted)
    {
      if t in subs {
        subs := subs[t := subs[t].(accepted := Some(accepted))];
      }
    }

    /** Gates a received submission; an artifact that cannot be read is rejected as missing, and
        without a submission there is nothing to record. */
    method GateSubmission(t: string, expected: Manifest) returns (verdict: Verdict)
      modifies `subs
      ensures t !in old(subs) ==> verdict == Rejected(NoSubmission) && Tables() == old(Tables())
      ensures t in old(subs) ==>
        && verdict == GateVerdict(old(World()), t, expected, true)
        && Tables() == Rounds.RecordVerdict(old(Tables()), t, verdict.Accepted?)
    {
      if t !in subs { return Rejected(NoSubmission); }
      var heartbeat := if t in tasks then tasks[t].heartbeat else None;
      var artifact := subs[t].artifact;
      if artifact !in store {
        verdict := Rejected(MissingArtifact);
      } else {
        verdict := CheckStructural(store[artifact], expected, subs[t].steps, heartbeat);
      }
      RecordVerdict(t, verdict.Accepted?);
    }

    // ---- the close rule ------------------------------------------------------------------------------

    /** Accumulated work: the steps of the submissions not rejected, and their number. */
    method RoundProgress(id: RoundId) returns (steps: int, submissions: nat)
      ensures steps == Progress(Tables(), id)
      ensures submissions == |Counted(Tables(), id)|
    {
      var left := set t | t in subs && t in tasks && tasks[t].round == id && subs[t].accepted != Some(false);
      assert left == Counted(Tables(), id);
      steps, submissions := 0, |left|;
      while left != {}
        invariant left <= subs.Keys
        invariant steps + StepsOf(subs, left) == Progress(Tables(), id)
        decreases |left|
      {
        var t :| t in left;
        StepsOfOne(subs, left, t);
        steps := steps + subs[t].steps;
        left := left - {t};
      }
    }

    method ShouldClose(id: RoundId, now: int) returns (close: bool)
      ensures close == Rounds.ShouldClose(Tables(), id, now)
    {
      if id !in rounds || rounds[id].status != Open { return false; }
      var elapsed := now - rounds[id].openedAt;
      var steps, submissions := RoundProgress(id);
      if steps >= rounds[id].targetSteps && elapsed >= rounds[id].minSec * SECOND { return true; }
      if elapsed >= rounds[id].maxSec * SECOND && submissions >= 1 { return true; }
      return false;
    }

    method ReopenEmptyRound(id: RoundId, now: int) returns (restarted: bool)
      modifies `rounds
      ensures restarted == ShouldRestart(old(Tables()), id, now)
      ensures Tables() == Rounds.ReopenEmptyRound(old(Tables()), id, now)
    {
      if id !in rounds || rounds[id].status != Open { return false; }
      if now - rounds[id].openedAt < rounds[id].maxSec * SECOND { return false; }
      var _, submissions := RoundProgress(id);
      if submissions > 0 { return false; }
      rounds := rounds[id := rounds[id].(openedAt := now)];
      return true;
    }

    // ---- closing ---------------------------------------------------------------------------------------

    /** The failure path: give the round back. */
    method ReleaseRound(id: RoundId)
      modifies `rounds
      ensures Tables() == ReleaseClose(old(Tables()), id)
    {
      if id in rounds && rounds[id].status == Closing {
        rounds := rounds[id := rounds[id].(status := Open)];
      }
    }

    /** Fetches the artifacts of a close in query order, dropping the ones that are gone. */
    method FetchKept(job: Job, base: Adapter, todo: seq<Entry>, ghost c: Choice, ghost cfg: Config) returns (kept: seq<Kept>)
      requires c.io
      modifies `subs
      ensures Finish(World(), Fetching(job, base, [], kept), c, cfg) == old(Finish(World(), Fetching(job, base, todo, []), c, cfg))
    {
      hide Finish, Fetch;
      kept := [];
      assert todo[0..] == todo;
      for i := 0 to |todo|
        invariant Finish(World(), Fetching(job, base, todo[i..], kept), c, cfg) == old(Finish(World(), Fetching(job, base, todo, []), c, cfg))
      {
        var e := todo[i];
        assert todo[i..][1..] == todo[i + 1..];
        AfterFetch(World(), job, base, todo[i..], kept, c, cfg);
        var got := Fetch(store, e.artifact);
        if got.Some? {
          kept := kept + [Kept(e.task, Contribution(got.value, e.steps), e.metrics)];
        } else {
          RecordVerdict(e.task, false);
        }
      }
      assert todo[|todo|..] == [];
    }

    /** Records gate 4's rejections and keeps the rest. */
    method KeepAccepted(job: Job, base: Adapter, kept: seq<Kept>, verdicts: seq<Verdict>, ghost c: Choice, ghost cfg: Config)
      returns (surviving: seq<Kept>)
      requires |kept| == |verdicts|
      modifies `subs
      ensures Finish(World(), Judging(job, base, [], surviving), c, cfg)
           == old(Finish(World(), Judging(job, base, Paired(kept, verdicts), []), c, cfg))
    {
      hide Finish;
      ghost var pending := Paired(kept, verdicts);
      surviving := [];
      assert pending[0..] == pending;
      for i := 0 to |kept|
        invariant Finish(World(), Judging(job, base, pending[i..], surviving), c, cfg)
               == old(Finish(World(), Judging(job, base, Paired(kept, verdicts), []), c, cfg))
      {
        assert pending[i..][1..] == pending[i + 1..] && pending[i] == Judged(kept[i], verdicts[i]);
        AfterJudgement(World(), job, base, pending[i..], surviving, c, cfg);
        if verdicts[i].Accepted? {
          surviving := surviving + [kept[i]];
        } else {
          RecordVerdict(kept[i].task, false);
        }
      }
      assert pending[|kept|..] == [];
    }

    /** The accepted submissions of a round, first received first. */
    method AcceptedInOrder(id: RoundId) returns (order: seq<string>)
      ensures IsQueryOrder(Tables(), id, order)
    {
      order := [];
      var all := set t | t in subs && t in tasks && tasks[t].round == id && subs[t].accepted == Some(true);
      var left := all;
      while left != {}
        invariant left <= all <= subs.Keys && (forall t :: t in order <==> t in all && t !in left)
        invariant forall i :: 0 <= i < |order| ==> order[i] in subs
        invariant forall i, j :: 0 <= i < j < |order| ==> order[i] != order[j]
        invariant forall i, j :: 0 <= i < j < |order| ==> subs[order[i]].receivedAt <= subs[order[j]].receivedAt
        invariant forall i, t :: 0 <= i < |order| && t in left ==> subs[order[i]].receivedAt <= subs[t].receivedAt
        decreases |left|
      {
        var t := Earliest(subs, left);
        order := order + [t];
        left := left - {t};
      }
    }

    /** Closes a round when nothing interferes and the store answers: claim, fetch, judge, combine,
        publish, commit, advance; on any exception the round is given back and the exception goes on. */
    method CloseRound(id: RoundId, now: int, cfg: Config) returns (claimed: bool, raised: bool, ghost order: seq<string>)
      modifies this
      ensures claimed == old(RoundIs(Tables(), id, Open))
      ensures claimed ==> IsQueryOrder(old(Tables()), id, order)
      ensures World() == CloseAll(old(World()), id, Choice(order, true, now), cfg)
      ensures raised == CloseRaises(old(World()), id, Choice(order, true, now), cfg)
    {
      hide Finish, IsQueryOrder, Load, Judge;
      order := [];
      if id !in rounds || rounds[id].status != Open { return false, false, order; }
      var accepted := AcceptedInOrder(id);
      order := accepted;
      QueryUnmoved(Tables(), id, order);
      rounds := rounds[id := rounds[id].(status := Closing)];
      raised := CloseClaimed(id, accepted, now, cfg);
      return true, raised, order;
    }

    /** The body of a close, after it has been claimed. */
    method CloseClaimed(id: RoundId, order: seq<string>, now: int, cfg: Config) returns (raised: bool)
      requires IsQueryOrder(Tables(), id, order) && forall t :: t in order ==> t in subs
      modifies this
      ensures Reached(World(), raised, old(Finish(World(), Claimed(id), Choice(order, true, now), cfg)))
    {
      hide Finish, IsQueryOrder, Judge, Fetch, Works, Verdicts;
      ghost var c := Choice(order, true, now);
      AfterClaim(World(), id, c, cfg);
      if id.run !in runs || id !in rounds {
        AfterFailure(World(), id, c, cfg);
        ReleaseRound(id);
        return true;
      }
      var job := Job(id, runs[id.run], rounds[id], []);
      var todo := Entries(Db(runs, rounds, tasks, subs, buckets), order);
      AfterLoad(World(), job, todo, c, cfg);
      var base := Fetch(store, job.round.base);
      if base.None? {
        AfterFailure(World(), id, c, cfg);
        ReleaseRound(id);
        return true;
      }
      var kept := FetchKept(job, base.value, todo, c, cfg);
      raised := JudgeAndCombine(job, base.value, kept, Choice(order, true, now), cfg);
    }

    /** Gate 4 and everything after it. */
    method JudgeAndCombine(job: Job, base: Adapter, kept: seq<Kept>, c: Choice, cfg: Config) returns (raised: bool)
      requires c.io
      modifies this
      ensures Reached(World(), raised, old(Finish(World(), Fetching(job, base, [], kept), c, cfg)))
    {
      hide Finish, Verdicts;
      AfterFetches(World(), job, base, kept, c, cfg);
      if kept == [] {
        raised := CombineAndPublish(job, base, [], c, cfg);
        return;
      }
      var verdicts := NormGate.CheckNorms(Adapters(Works(kept)), cfg.norm, cfg.normK);
      CheckedVerdicts(Adapters(Works(kept)), cfg, verdicts);
      if verdicts.None? {
        AfterFailure(World(), job.id, c, cfg);
        ReleaseRound(job.id);
        return true;
      }
      var surviving := KeepAccepted(job, base, kept, verdicts.value, c, cfg);
      AfterJudgements(World(), job, base, surviving, c, cfg);
      raised := CombineAndPublish(job, base, surviving, c, cfg);
    }

    /** The rest of a close, from the surviving work on. */
    method CombineAndPublish(job: Job, base: Adapter, kept: seq<Kept>, c: Choice, cfg: Config) returns (raised: bool)
      requires c.io
      modifies this
      ensures Reached(World(), raised, old(Finish(World(), Combining(job, base, kept), c, cfg)))
    {
      hide Finish, Published, Fetch, Divergence.Comparable;
      AfterCombine(World(), job, base, kept, c, cfg);
      if kept == [] {
        raised := CommitAndAdvance(job, None, c, cfg);
        return;
      }
      var momentum := if job.run.momentum.Some? then Fetch(store, job.run.momentum.value) else None;
      var outcome := CombineWork(base, Works(kept), cfg.cap, job.run, momentum);
      var measured := Divergence.MeasureDivergence(Adapters(Works(kept)));
      if outcome.None? || !measured {
        AfterFailure(World(), job.id, c, cfg);
        ReleaseRound(job.id);
        return true;
      }
      raised := PublishOutcome(WithRates(job, kept), outcome.value, c, cfg);
    }

    /** Puts the result and the momentum, then commits and advances. */
    method PublishOutcome(job: Job, outcome: OuterStep.Outcome, c: Choice, ghost cfg: Config) returns (raised: bool)
      requires c.io
      modifies this
      ensures Reached(World(), raised, old(Finish(World(), Publishing(job, outcome), c, cfg)))
    {
      hide Finish;
      AfterPublish(World(), job, outcome, c, cfg);
      store := store[ResultKey(job.id) := SaveAdapter(outcome.adapter)];
      if outcome.momentum.Some? {
        AfterMomentum(World(), job, outcome.momentum.value, c, cfg);
        store := store[MomentumKey(job.id.run) := SaveAdapter(outcome.momentum.value)];
        if job.id.run in runs {
          runs := runs[job.id.run := runs[job.id.run].(momentum := Some(MomentumKey(job.id.run)))];
        }
      }
      raised := CommitAndAdvance(job, Some(ResultKey(job.id)), c, cfg);
    }

    /** Commits the close, then folds the throughput and opens the next round or finishes the run. */
    method CommitAndAdvance(job: Job, result: Option<Key>, c: Choice, ghost cfg: Config) returns (raised: bool)
      modifies this
      ensures Reached(World(), raised, old(Finish(World(), Committing(job, result), c, cfg)))
    {
      hide Finish;
      AfterCommit(World(), job, result, c, cfg);
      if job.id in rounds {
        rounds := rounds[job.id := rounds[job.id].(status := Closed, result := result)];
        tasks := map t | t in tasks :: EndedWith(tasks[t], job.id);
      }
      if result.None? {
        FinishEnded(World(), c, cfg);
        return false;
      }
      raised := OpenNextOrFinish(job, result.value, c, cfg);
    }

    /** Reads every survivor's metrics before it opens anything: one that cannot be read raises. */
    method OpenNextOrFinish(job: Job, result: Key, c: Choice, ghost cfg: Config) returns (raised: bool)
      modifies this
      ensures Reached(World(), raised, old(Finish(World(), Advancing(job, result), c, cfg)))
    {
      hide Finish;
      AfterAdvance(World(), job, result, c, cfg);
      var folded := FoldRates(job.rates);
      if !folded {
        AfterFailure(World(), job.id, c, cfg);
        ReleaseRound(job.id);
        return true;
      }
      var next := RoundId(job.id.run, job.id.idx + 1);
      if next.idx < job.run.target {
        var refused := OpenRound(next, result, TimingOf(job.round), c.now);
        if refused.Some? {
          AfterFailure(World(), job.id, c, cfg);
          ReleaseRound(job.id);
          return true;
        }
      } else if job.id.run in runs {
        runs := runs[job.id.run := runs[job.id.run].(status := Done)];
      }
      FinishEnded(World(), c, cfg);
      return false;
    }

    /** One poll of a run: close its round if the rule says so, else restart it if it is empty. */
    method MaybeClose(run: string, now: int, cfg: Config) returns (raised: bool, ghost order: seq<string>)
      modifies this
      ensures World() == Polling.MaybeClose(old(World()), run, Choice(order, true, now), cfg)
      ensures raised == Polling.PollRaises(old(World()), run, Choice(order, true, now), cfg)
    {
      hide CloseAll, CloseRaises, Rounds.ShouldClose, Rounds.ReopenEmptyRound, IsQueryOrder;
      order := [];
      if run !in runs || runs[run].status != Active { return false, order; }
      var id := RoundId(run, runs[run].current);
      var close := ShouldClose(id, now);
      if close {
        var _, failed, rows := CloseRound(id, now, cfg);
        return failed, rows;
      }
      var _ := ReopenEmptyRound(id, now);
      return false, order;
    }

    /** A request for work when nothing interferes: reclaim expired leases, then go through the
        candidate runs, polling each and asking it for a lease, up to the first that answers or whose
        poll raises. */
    method PollForWork(claims: seq<Claim>, now: int, cfg: Config)
      returns (r: Option<Result<ClaimOutcome, Error>>, held: Option<string>, ghost orders: seq<seq<string>>)
      modifies this
      ensures |orders| == |claims|
      ensures (World(), r) == Polling.Asked(Closer.World(Rounds.ExpireLeases(old(Tables()), now), old(store)), claims, orders, cfg)
    {
      hide Polling.MaybeClose, Polling.PollRaises, Rounds.ClaimTask, Rounds.ExpireLeases, ClaimAnswer;
      var _ := ExpireLeases(now);
      ghost var start := World();
      orders := [];
      for i := 0 to |claims|
        invariant |orders| == i && Polling.Asked(start, claims[..i], orders, cfg) == (World(), None)
      {
        var c := claims[i];
        ghost var before, order := orders, [];
        var raised;
        raised, order := MaybeClose(c.run, c.now, cfg);
        orders := orders + [order];
        assert CloseRun.Upto(claims[..i + 1]) == claims[..i] && CloseRun.Upto(orders) == before;
        var answer, task := Err(CloseFailed), None;
        if !raised { answer, task := ClaimTask(c); }
        if raised || !Polling.GoesOn(answer) {
          assert Polling.Asked(start, claims[..i + 1], orders, cfg) == (World(), Some(answer));
          orders := orders + seq(|claims| - i - 1, _ => []);
          assert orders[..i + 1] == before + [order];
          Polling.AskedStops(start, claims, orders, i + 1, cfg);
          return Some(answer), task, orders;
        }
      }
      assert claims[..|claims|] == claims;
      return None, None, orders;
    }

    // ---- submitting, end to end --------------------------------------------------------------------------

    /** A submit request when nothing interferes: record, gate, evaluate the close rule. A base
        that cannot be loaded ends the request after the submission is on record, and a close that
        raises ends it without an answer about the submission. */
    method Submit(t: string, worker: string, steps: int, metrics: Metrics, now: int, cfg: Config)
      returns (r: Result<Verdict, Error>, ghost order: seq<string>)
      modifies this
      ensures var spec := Rounds.RecordSubmission(old(Tables()), t, worker, steps, metrics, now);
        && (spec.Err? ==> r == Err(spec.error) && World() == old(World()))
        && (spec.Ok? ==>
              var recorded := Closer.World(spec.value, old(store));
              && (Expected(recorded, t).None? ==> r == Err(UnknownRun) && World() == recorded)
              && (Expected(recorded, t).Some? ==>
                    && t in recorded.db.subs && t in recorded.db.tasks
                    && (var verdict := GateVerdict(recorded, t, Expected(recorded, t).value, true);
                        var gated := recorded.(db := Rounds.RecordVerdict(recorded.db, t, verdict.Accepted?));
                        var run, c := recorded.db.tasks[t].round.run, Choice(order, true, now);
                        && World() == Polling.MaybeClose(gated, run, c, cfg)
                        && r == if Polling.PollRaises(gated, run, c, cfg) then Err(CloseFailed) else Ok(verdict))))
    {
      hide CheckStructural, Fetch, Polling.MaybeClose, Polling.PollRaises;
      order := [];
      var failed := RecordSubmission(t, worker, steps, metrics, now);
      if failed.Some? { return Err(failed.value), order; }
      var expected := Expected(Closer.World(Db(runs, rounds, tasks, subs, buckets), store), t);
      if expected.None? { return Err(UnknownRun), order; }
      var run := tasks[t].round.run;
      var verdict := GateSubmission(t, expected.value);
      var raised;
      raised, order := MaybeClose(run, now, cfg);
      if raised { return Err(CloseFailed), order; }
      return Ok(verdict), order;
    }

    // ---- garbage collection ------------------------------------------------------------------------------

    /** The submissions of all but the newest `keep` closed rounds. */
    method GcCandidates(run: string, keep: nat) returns (keys: set<Key>)
      ensures keys == System.GcCandidates(World(), run, keep)
    {
      if run !in runs { return {}; }
      hide Protected, Stale, ClosedRounds;
      var db := Db(runs, rounds, tasks, subs, buckets);
      var closed := ClosedRounds(db, run);
      var stale := DropNewest(closed, keep);
      StaleIsRest(db, run, keep, stale);
      var protected := Protected(db, run);
      keys := set k | k in store && k.SubmissionKey? && k.run == run && k.idx in stale && k !in protected;
    }

    /** Deletes the candidates, one request at a time. */
    method CollectGarbage(run: string, keep: nat)
      modifies `store
      ensures store == old(store) - System.GcCandidates(old(World()), run, keep)
    {
      var left := GcCandidates(run, keep);
      ghost var all := left;
      while left != {}
        invariant left <= all && store == old(store) - (all - left)
        decreases |left|
      {
        var k :| k in left;
        store := store - {k};
        left := left - {k};
      }
    }

    // ---- backup and restore ---------------------------------------------------------------------------------

    /** The newest result of a run, if any round has one. */
    method LatestResultRef(run: string) returns (r: Option<Key>)
      ensures r == Disaster.LatestResult(Tables(), run)
    {
      hide Disaster.ResultRounds;
      var candidates := Disaster.ResultRounds(Db(runs, rounds, tasks, subs, buckets), run);
      forall idx: nat ensures idx in candidates <==> Disaster.HasResult(Tables(), run, idx) {
        Disaster.ResultRoundsAre(Tables(), run, idx);
      }
      if candidates == {} { return None; }
      var newest := Largest(candidates);
      assert Disaster.HasResult(Tables(), run, newest);
      Disaster.LatestIs(Tables(), run, newest);
      return rounds[RoundId(run, newest)].result;
    }

    /** Copies every run's latest result and momentum to the destination, skipping what is missing. */
    method Backup(dest: Store) returns (r: Store)
      ensures r == Disaster.Backup(Tables(), store, runs.Keys, dest)
    {
      hide Disaster.Backup, Disaster.LatestResult, CopiedKey;
      r := dest;
      var left := runs.Keys;
      BackupNone(Tables(), store, dest);
      assert runs.Keys - left == {};
      while left != {}
        invariant left <= runs.Keys && r == Disaster.Backup(Tables(), store, runs.Keys - left, dest)
        decreases |left|
      {
        var run :| run in left;
        ghost var done := runs.Keys - left;
        var result := LatestResultRef(run);
        r := CopiedKey(result, store, r);
        r := CopiedKey(runs[run].momentum, store, r);
        OneMoreRun(Tables(), store, done, run, dest);
        TakenOut(runs.Keys, left, run);
        left := left - {run};
      }
      assert runs.Keys - left == runs.Keys;
    }

    /** Starts one round over: its submissions dropped, its tasks released, its clock reset. */
    method RewindRound(id: RoundId, now: int)
      requires id in rounds
      modifies `subs, `tasks, `rounds
      ensures subs == map t | t in old(subs) && !(t in old(tasks) && old(tasks)[t].round == id) :: old(subs)[t]
      ensures tasks == map t | t in old(tasks) :: Released(old(tasks)[t], {id})
      ensures rounds == old(rounds)[id := old(rounds)[id].(status := Open, openedAt := now)]
    {
      subs := map t | t in subs && !(t in tasks && tasks[t].round == id) :: subs[t];
      tasks := map t | t in tasks :: Released(tasks[t], {id});
      rounds := rounds[id := rounds[id].(status := Open, openedAt := now)];
    }

    /** Rewinds every round in flight. */
    method Reconcile(now: int) returns (rewound: set<RoundId>)
      modifies `subs, `tasks, `rounds
      ensures Tables() == Disaster.Reconcile(old(Tables()), now)
      ensures rewound == set id | id in old(rounds) && Disaster.InFlight(old(Tables()), id)
    {
      hide Rewind, Released, Disaster.Reconcile, Disaster.InFlight;
      rewound := set id | id in rounds && Disaster.InFlight(Db(runs, rounds, tasks, subs, buckets), id);
      var left := rewound;
      assert rewound - left == {};
      RewindNone(Tables(), now);
      while left != {}
        invariant left <= rewound
        invariant Tables() == Rewind(old(Tables()), rewound - left, now)
        decreases |left|
      {
        var id :| id in left;
        ghost var done := rewound - left;
        RewindOne(old(Tables()), done, id, now);
        RewindRound(id, now);
        left := left - {id};
        assert rewound - left == done + {id};
      }
      assert rewound - left == rewound;
      RewindAll(old(Tables()), rewound, now);
    }

    /** Fetches every referenced object the primary store lacks; reports the ones nobody has. */
    method CopyAdapters(backup: Store) returns (missing: set<Key>)
      modifies `store
      ensures store == Disaster.CopyAdapters(Tables(), backup, old(store))
      ensures missing == Absent(Disaster.Referenced(Tables()), backup, old(store))
    {
      hide Disaster.Referenced, CopySome, Absent;
      missing := {};
      var refs := Disaster.Referenced(Db(runs, rounds, tasks, subs, buckets));
      var left := refs;
      assert refs - left == {};
      CopyNone(backup, store);
      while left != {}
        invariant left <= refs
        invariant store == CopySome(refs - left, backup, old(store))
        invariant missing == Absent(refs - left, backup, old(store))
        decreases |left|
      {
        var k :| k in left;
        ghost var done := refs - left;
        CopyOne(done, k, backup, old(store));
        if k !in store {
          if k in backup { store := store[k := backup[k]]; } else { missing := missing + {k}; }
        }
        left := left - {k};
        assert refs - left == done + {k};
      }
      assert refs - left == refs;
      CopyAll(Tables(), backup, old(store));
    }

    /** Whether each active run could go on from here. */
    method Verify() returns (problems: set<Disaster.Problem>)
      ensures forall p :: p in problems <==> Disaster.Reports(Tables(), store, p)
    {
      problems := {};
      var left := runs.Keys;
      while left != {}
        invariant left <= runs.Keys
        invariant forall p :: p in problems <==> Disaster.Reports(Tables(), store, p) && p.run !in left
        decreases |left|
      {
        var run :| run in left;
        if runs[run].status == Active {
          var id := RoundId(run, runs[run].current);
          if id !in rounds {
            problems := problems + {Disaster.CurrentMissing(run)};
          } else {
            if rounds[id].base !in store { problems := problems + {Disaster.BaseMissing(run)}; }
            if rounds[id].status != Open { problems := problems + {Disaster.NotOpen(run)}; }
          }
        }
        left := left - {run};
      }
    }

    /** Rebuilds this coordinator from a snapshot: fetch what it names, rewind, and check. */
    method Restore(snapshot: Db, backup: Store, now: int) returns (problems: set<Disaster.Problem>, missing: set<Key>)
      modifies this
      ensures World() == Disaster.Restored(snapshot, backup, old(store), now)
      ensures forall p :: p in problems <==> Disaster.Reports(Tables(), store, p)
      ensures missing == Absent(Disaster.Referenced(snapshot), backup, old(store))
    {
      hide Disaster.Reconcile, Disaster.CopyAdapters, Disaster.Reports, Disaster.Referenced, Absent;
      runs, rounds, tasks, subs, buckets := snapshot.runs, snapshot.rounds, snapshot.tasks, snapshot.subs, snapshot.buckets;
      missing := CopyAdapters(backup);
      var _ := Reconcile(now);
      problems := Verify();
    }
  }

  /** The primary store with the given keys fetched from the backup where it lacks them. */
  function CopySome(keys: set<Key>, backup: Store, primary: Store): Store {
    map k | k in primary.Keys + backup.Keys && (k in primary || k in keys) :: if k in primary then primary[k] else backup[k]
  }

  /** Which of the given keys neither store has. */
  function Absent(keys: set<Key>, backup: Store, primary: Store): set<Key> {
    set k | k in keys && k !in primary && k !in backup
  }

  lemma CopyNone(backup: Store, primary: Store)
    ensures CopySome({}, backup, primary) == primary && Absent({}, backup, primary) == {}
  {
  }

  lemma CopyOne(done: set<Key>, k: Key, backup: Store, primary: Store)
    requires k !in done
    ensures var s, n := CopySome(done, backup, primary), CopySome(done + {k}, backup, primary);
      && (k in s <==> k in primary)
      && n == (if k !in s && k in backup then s[k := backup[k]] else s)
    ensures var m := Absent(done, backup, primary);
      Absent(done + {k}, backup, primary) == (if k !in primary && k !in backup then m + {k} else m)
  {
  }

  lemma CopyAll(db: Db, backup: Store, primary: Store)
    ensures CopySome(Disaster.Referenced(db), backup, primary) == Disaster.CopyAdapters(db, backup, primary)
  {
    hide Disaster.Referenced;
  }

  // ---- helpers of the disaster paths ------------------------------------------------------------------------

  function Released(t: Task, ids: set<RoundId>): Task {
    if t.round in ids && (t.status == Leased || t.status == Submitted)
    then t.(status := Expired, worker := None, leaseExpires := None) else t
  }

  /** The given rounds rewound, and no others. */
  function Rewind(db: Db, ids: set<RoundId>, now: int): Db {
    db.(subs := map t | t in db.subs && !(t in db.tasks && db.tasks[t].round in ids) :: db.subs[t],
        tasks := map t | t in db.tasks :: Released(db.tasks[t], ids),
        rounds := map id | id in db.rounds :: if id in ids then db.rounds[id].(status := Open, openedAt := now) else db.rounds[id])
  }

  lemma RewindNone(db: Db, now: int)
    ensures Rewind(db, {}, now) == db
  {
    var n := Rewind(db, {}, now);
    assert n.subs == db.subs && n.tasks == db.tasks && n.rounds == db.rounds;
  }

  lemma RewindOne(db: Db, ids: set<RoundId>, id: RoundId, now: int)
    requires id !in ids && id in db.rounds
    ensures var mid, n := Rewind(db, ids, now), Rewind(db, ids + {id}, now);
      && id in mid.rounds && mid.rounds[id] == db.rounds[id]
      && n.subs == (map t | t in mid.subs && !(t in mid.tasks && mid.tasks[t].round == id) :: mid.subs[t])
      && n.tasks == (map t | t in mid.tasks :: Released(mid.tasks[t], {id}))
      && n.rounds == mid.rounds[id := mid.rounds[id].(status := Open, openedAt := now)]
      && n.runs == mid.runs && n.buckets == mid.buckets
  {
  }

  lemma RewindAll(db: Db, ids: set<RoundId>, now: int)
    requires ids == set id | id in db.rounds && Disaster.InFlight(db, id)
    ensures Rewind(db, ids, now) == Disaster.Reconcile(db, now)
  {
    var a, b := Rewind(db, ids, now), Disaster.Reconcile(db, now);
    assert a.subs == b.subs;
    assert a.tasks == b.tasks;
    assert a.rounds == b.rounds;
  }

  lemma BackedUpMore(db: Db, done: set<string>, run: string, k: Key)
    requires run in db.runs
    ensures (exists other :: other in done + {run} && Disaster.BackedUp(db, other, k))
       <==> (exists other :: other in done && Disaster.BackedUp(db, other, k)) || Disaster.BackedUp(db, run, k)
  {
    hide Disaster.BackedUp;
    if Disaster.BackedUp(db, run, k) { assert run in done + {run}; }
    if other :| other in done && Disaster.BackedUp(db, other, k) { assert other in done + {run}; }
  }

  /** Copies one object if the source has it. */
  function CopiedKey(ref: Option<Key>, store: Store, dest: Store): Store {
    if ref.Some? && ref.value in store then dest[ref.value := store[ref.value]] else dest
  }

  lemma BackupNone(db: Db, store: Store, dest: Store)
    ensures Disaster.Backup(db, store, {}, dest) == dest
  {
    hide Disaster.BackedUp;
  }

  lemma TakenOut<T>(all: set<T>, left: set<T>, x: T)
    requires left <= all && x in left
    ensures all - (left - {x}) == (all - left) + {x}
  {
  }

  lemma OneMoreRun(db: Db, store: Store, done: set<string>, run: string, dest: Store)
    requires run in db.runs
    ensures CopiedKey(db.runs[run].momentum, store, CopiedKey(Disaster.LatestResult(db, run), store, Disaster.Backup(db, store, done, dest)))
         == Disaster.Backup(db, store, done + {run}, dest)
  {
    hide Disaster.LatestResult;
    var mid, n := Disaster.Backup(db, store, done, dest), Disaster.Backup(db, store, done + {run}, dest);
    var two := CopiedKey(db.runs[run].momentum, store, CopiedKey(Disaster.LatestResult(db, run), store, mid));
    forall k ensures (k in two <==> k in n) && (k in two ==> two[k] == n[k]) {
      BackedUpMore(db, done, run, k);
    }
  }

  /** The largest member. */
  method Largest(xs: set<nat>) returns (m: nat)
    requires xs != {}
    ensures m in xs && forall x :: x in xs ==> x <= m
  {
    m :| m in xs;
    var left := xs - {m};
    while left != {}
      invariant m in xs && left <= xs && forall x :: x in xs && x !in left ==> x <= m
      decreases |left|
    {
      var x :| x in left;
      if m < x { m := x; }
      left := left - {x};
    }
  }

  /** What is left once the newest `keep` have been set aside. */
  method DropNewest(xs: set<nat>, keep: nat) returns (rest: set<nat>)
    ensures rest <= xs && forall x, y :: x in rest && y in xs - rest ==> x < y
    ensures |xs - rest| == keep || (rest == {} && |xs - rest| <= keep)
  {
    rest := xs;
    var k := 0;
    while k < keep && rest != {}
      invariant k <= keep && rest <= xs && |xs - rest| == k
      invariant forall x, y :: x in rest && y in xs - rest ==> x < y
    {
      var m := Largest(rest);
      assert xs - (rest - {m}) == (xs - rest) + {m};
      rest := rest - {m};
      k := k + 1;
    }
  }

  lemma StaleIsRest(db: Db, run: string, keep: nat, rest: set<nat>)
    requires var xs := ClosedRounds(db, run);
      && rest <= xs && (forall x, y :: x in rest && y in xs - rest ==> x < y)
      && (|xs - rest| == keep || (rest == {} && |xs - rest| <= keep))
    ensures rest == Stale(db, run, keep)
  {
    var xs := ClosedRounds(db, run);
    hide ClosedRounds;
    forall idx | idx in xs ensures idx in rest <==> |ClosedAfter(db, run, idx)| >= keep {
      var later := ClosedAfter(db, run, idx);
      if idx in rest {
        SmallerSet(xs - rest, later);
      } else {
        forall y | y in later ensures y in xs - rest - {idx} {
          assert idx in xs - rest;
        }
        SmallerSet(later, xs - rest - {idx});
      }
    }
  }


  // ---- helpers of closing --------------------------------------------------------------------

  lemma CheckedVerdicts(adapters: seq<Adapter>, cfg: Config, r: Option<seq<Verdict>>)
    requires r.Some? <==> |adapters| < 3 || NormGate.SharedNames(adapters)
    requires r.Some? ==> |r.value| == |adapters|
    requires r.Some? && |adapters| < 3 ==> forall i :: 0 <= i < |adapters| ==> r.value[i] == Accepted
    requires r.Some? && |adapters| >= 3 ==>
      forall i :: 0 <= i < |adapters| ==> r.value[i] == NormGate.VerdictOf(adapters, cfg.norm, cfg.normK, i)
    ensures r == Verdicts(adapters, cfg)
  {
    hide NormGate.VerdictOf, NormGate.SharedNames;
    if r.Some? {
      assert r.value == Verdicts(adapters, cfg).value;
    }
  }

  /** A method has reached the end of a close, and tells whether it raised. */
  ghost predicate Reached(w: Closer.World, raised: bool, end: (Closer.World, Pc, bool)) {
    w == end.0 && raised == end.2
  }

  /** Reads the reported rates one by one; false is an exception in the source. */
  method FoldRates(rates: seq<Metrics>) returns (folded: bool)
    ensures folded <==> Foldable(rates)
  {
    for i := 0 to |rates|
      invariant forall k :: 0 <= k < i ==> !rates[k].Unreadable?
    {
      if rates[i].Unreadable? { return false; }
    }
    return true;
  }

  /** A submission received no later than any other of the set. */
  method Earliest(subs: map<string, Submission>, ts: set<string>) returns (t: string)
    requires ts != {} && ts <= subs.Keys
    ensures t in ts && forall u :: u in ts ==> subs[t].receivedAt <= subs[u].receivedAt
  {
    t :| t in ts;
    var left := ts - {t};
    while left != {}
      invariant t in ts && left <= ts && forall u :: u in ts && u !in left ==> subs[t].receivedAt <= subs[u].receivedAt
      decreases |left|
    {
      var u :| u in left;
      if subs[u].receivedAt < subs[t].receivedAt { t := u; }
      left := left - {u};
    }
  }

  /** Weights, then the outer step; None is an exception. */
  method CombineWork(base: Adapter, work: seq<Contribution>, cap: Option<real>, run: Run, momentum: Option<Adapter>)
    returns (r: Option<OuterStep.Outcome>)
    ensures r == Published(base, work, cap, run.mode, run.lr, run.beta, momentum)
  {
    hide OuterStep.Combined, DominanceCap.FinalShares, DominanceCap.Spread;
    var weights := DominanceCap.DenseWeights(Contributions.Steps(work), base.Keys, cap);
    if weights.None? { return None; }
    DominanceCap.FinalSharesLength(Contributions.Steps(work), cap);
    SpreadLength(SharesOf(work, cap).value, base.Keys);
    r := OuterStep.Combine(base, Adapters(work), weights.value, run.mode, run.lr, run.beta, momentum);
  }

  /** Marks each picked bucket as trained once more, in this round. */
  method MarkTrained(table: seq<Bucket>, picked: seq<int>, idx: nat) returns (r: seq<Bucket>)
    requires BucketOrder.Distinct(picked)
    ensures r == Trained(table, picked, idx)
  {
    r := table;
    for k := 0 to |picked|
      invariant r == Trained(table, picked[..k], idx)
    {
      var b := picked[k];
      assert picked[..k + 1] == picked[..k] + [b];
      assert b !in picked[..k];
      if 0 <= b < |r| {
        r := r[b := Bucket(r[b].times + 1, Some(idx))];
      }
    }
    assert picked[..|picked|] == picked;
  }
}
