/** What the close rule counts: every submission of the round with all its steps, from the moment it
    is recorded until it is rejected. */
module CloseRule {
  import opened Wrappers
  import opened Tables
  import opened Rounds
  import opened Closer
  import opened Polling

  // ---- one submission at a time ------------------------------------------------------------

  lemma {:induction false} SameSteps(subs: map<string, Submission>, n: map<string, Submission>, ts: set<string>)
    requires ts <= subs.Keys && ts <= n.Keys && forall t :: t in ts ==> n[t].steps == subs[t].steps
    ensures StepsOf(n, ts) == StepsOf(subs, ts)
    decreases |ts|
  {
    if ts != {} {
      var t :| t in ts;
      SameSteps(subs, n, ts - {t});
      StepsOfOne(subs, ts, t);
      StepsOfOne(n, ts, t);
    }
  }

  /** Whether a submission that a table holds is counted in a round, by what the rows say. */
  predicate CountsIn(db: Db, id: RoundId, t: string) {
    t in db.subs && t in db.tasks && db.tasks[t].round == id && (db.subs[t].accepted.None? || db.subs[t].accepted.value)
  }

  function StepsIn(db: Db, id: RoundId, t: string): int {
    if CountsIn(db, id, t) then db.subs[t].steps else 0
  }

  /** Two tables that differ in one submission differ in the total by what that submission counts. */
  lemma OneSubmission(db: Db, n: Db, id: RoundId, t: string)
    requires forall u :: u != t ==> (u in n.subs <==> u in db.subs) && (u in db.subs ==> n.subs[u] == db.subs[u])
    requires forall u :: u in db.subs || u in n.subs ==>
      (u in n.tasks <==> u in db.tasks) && (u in db.tasks ==> n.tasks[u].round == db.tasks[u].round)
    ensures Progress(n, id) == Progress(db, id) - StepsIn(db, id, t) + StepsIn(n, id, t)
  {
    hide StepsOf;
    var before, after := Counted(db, id), Counted(n, id);
    assert before - {t} == after - {t};
    SameSteps(db.subs, n.subs, before - {t});
    if t in before { StepsOfOne(db.subs, before, t); } else { assert before - {t} == before; }
    if t in after { StepsOfOne(n.subs, after, t); } else { assert after - {t} == after; }
  }

  /** Recording a submission raises its round's total by its steps, and no other's. */
  lemma RecordingCounts(db: Db, t: string, worker: string, steps: int, metrics: Metrics, now: int, id: RoundId)
    requires RecordSubmission(db, t, worker, steps, metrics, now).Ok? && t !in db.subs
    ensures var n := RecordSubmission(db, t, worker, steps, metrics, now).value;
      && t in db.tasks
      && Progress(n, id) == Progress(db, id) + (if db.tasks[t].round == id then steps else 0)
      && (db.tasks[t].round == id ==> Counted(n, id) == Counted(db, id) + {t})
  {
    hide Progress;
    var n := RecordSubmission(db, t, worker, steps, metrics, now).value;
    OneSubmission(db, n, id, t);
  }

  /** Accepting a submission that has not been rejected changes no total, rejecting one takes exactly
      its steps off its round's, and no other round is touched. */
  lemma VerdictCounts(db: Db, t: string, accepted: bool, id: RoundId)
    requires t in db.subs && t in db.tasks && db.subs[t].accepted != Some(false)
    ensures var n := RecordVerdict(db, t, accepted);
      Progress(n, id) == Progress(db, id) - (if !accepted && db.tasks[t].round == id then db.subs[t].steps else 0)
  {
    hide Progress;
    OneSubmission(db, RecordVerdict(db, t, accepted), id, t);
  }

  /** Steps that touch no submission and move no task to another round change no total. */
  lemma OthersKeepProgress(db: Db, n: Db, id: RoundId)
    requires n.subs == db.subs
    requires forall t :: t in db.subs ==> (t in n.tasks <==> t in db.tasks) && (t in db.tasks ==> n.tasks[t].round == db.tasks[t].round)
    ensures Progress(n, id) == Progress(db, id)
  {
    assert Counted(n, id) == Counted(db, id);
  }

  // ---- the rule -----------------------------------------------------------------------------

  /** The steps of the submissions in a list, one after another. */
  function StepsAlong(subs: map<string, Submission>, order: seq<string>): int
    requires forall t :: t in order ==> t in subs
  {
    if order == [] then 0 else subs[order[0]].steps + StepsAlong(subs, order[1..])
  }

  lemma {:induction false} AlongIsOf(subs: map<string, Submission>, order: seq<string>)
    requires forall t :: t in order ==> t in subs
    requires forall i, j :: 0 <= i < j < |order| ==> order[i] != order[j]
    ensures StepsAlong(subs, order) == StepsOf(subs, set t | t in order)
  {
    var all := set t | t in order;
    if order != [] {
      var rest := order[1..];
      AlongIsOf(subs, rest);
      assert order == [order[0]] + rest;
      assert order[0] !in rest by {
        forall j | 0 <= j < |rest| ensures rest[j] != order[0] { assert rest[j] == order[j + 1]; }
      }
      assert (set t | t in rest) == all - {order[0]};
      StepsOfOne(subs, all, order[0]);
    } else {
      assert all == {};
    }
  }

  lemma {:induction false} StepsOfBoth(subs: map<string, Submission>, a: set<string>, b: set<string>)
    requires a + b <= subs.Keys && a !! b
    ensures StepsOf(subs, a + b) == StepsOf(subs, a) + StepsOf(subs, b)
    decreases |a|
  {
    if a == {} {
      assert a + b == b;
    } else {
      var t :| t in a;
      StepsOfBoth(subs, a - {t}, b);
      StepsOfOne(subs, a, t);
      StepsOfOne(subs, a + b, t);
      assert a + b - {t} == (a - {t}) + b;
    }
  }

  lemma CountedSplits(db: Db, id: RoundId, order: seq<string>)
    requires IsQueryOrder(db, id, order)
    ensures Counted(db, id) == (set t | t in order) + Ungated(db, id) && (set t | t in order) !! Ungated(db, id)
    ensures Counted(db, id) <= db.subs.Keys
  {
    forall t | t in Counted(db, id) ensures t in order || t in Ungated(db, id) {
      ThreeVerdicts(db.subs[t].accepted);
    }
  }

  /** The close rule for any round: the steps of the accepted submissions, which its close aggregates,
      and of those not yet gated together reach the target after the least time, or there is any such
      submission after the greatest. */
  lemma RuleCountsAcceptedAndUngated(db: Db, id: RoundId, order: seq<string>, now: int)
    requires IsQueryOrder(db, id, order)
    ensures forall t :: t in order ==> t in db.subs
    ensures ShouldClose(db, id, now) <==>
      && RoundIs(db, id, Open)
      && (var r := db.rounds[id];
          var steps := StepsAlong(db.subs, order) + StepsOf(db.subs, Ungated(db, id));
          || (steps >= r.targetSteps && now - r.openedAt >= r.minSec * SECOND)
          || (now - r.openedAt >= r.maxSec * SECOND && (order != [] || Ungated(db, id) != {})))
  {
    hide StepsOf, StepsAlong, Counted, Ungated;
    CountedSplits(db, id, order);
    hide IsQueryOrder;
    var accepted := set t | t in order;
    AlongIsOf(db.subs, order);
    StepsOfBoth(db.subs, accepted, Ungated(db, id));
    if order != [] { assert order[0] in accepted; }
  }

  /** When everybody has been gated, a round that holds its target in accepted steps closes on the next
      poll after its least time. */
  lemma TargetCloses(db: Db, id: RoundId, order: seq<string>, now: int)
    requires IsQueryOrder(db, id, order) && RoundIs(db, id, Open) && Ungated(db, id) == {}
    requires forall t :: t in order ==> t in db.subs
    requires StepsAlong(db.subs, order) >= db.rounds[id].targetSteps
    requires now - db.rounds[id].openedAt >= db.rounds[id].minSec * SECOND
    ensures ShouldClose(db, id, now)
  {
    hide IsQueryOrder, ShouldClose, StepsAlong, Ungated;
    NothingCounted(db.subs);
    RuleCountsAcceptedAndUngated(db, id, order, now);
  }

  /** An empty round restarts exactly when it is open, past its greatest time, and holds neither accepted
      nor ungated work. */
  lemma RestartsExactlyWhen(db: Db, id: RoundId, order: seq<string>, now: int)
    requires IsQueryOrder(db, id, order)
    ensures ShouldRestart(db, id, now) <==>
      RoundIs(db, id, Open) && now - db.rounds[id].openedAt >= db.rounds[id].maxSec * SECOND && order == [] && Ungated(db, id) == {}
  {
    hide Ungated, Counted;
    CountedSplits(db, id, order);
    hide IsQueryOrder;
    var accepted := set t | t in order;
    if order == [] { assert accepted == {}; } else { assert order[0] in accepted; }
  }

  /** A poll that neither closes nor restarts its round changes nothing at all; one that restarts it sets
      the round's clock and nothing else. */
  lemma PollTouchesNothingElse(w: World, run: string, c: Choice, cfg: Config)
    requires RunActive(w.db, run) ==> !ShouldClose(w.db, CurrentId(w.db, run), c.now)
    ensures var n := MaybeClose(w, run, c, cfg);
      if RunActive(w.db, run) && ShouldRestart(w.db, CurrentId(w.db, run), c.now) then
        var id := CurrentId(w.db, run);
        n == w.(db := w.db.(rounds := w.db.rounds[id := w.db.rounds[id].(openedAt := c.now)]))
      else n == w
  {
    hide Progress, Counted;
  }
}
