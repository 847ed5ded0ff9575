/** Polls, closes and retries in the states the system can reach. */
module ReachableCloses {
  import opened Wrappers
  import opened Tensors
  import opened ObjectKeys
  import opened Tables
  import opened Rounds
  import opened Closer
  import opened System
  import opened CloseSafety
  import opened LeaseSafety
  import opened RefSafety
  import opened RefSteps
  import opened RefCloses
  import opened CloseRun
  import opened Leftovers
  import opened Attempts
  import opened Retry
  import opened TidyClose
  import opened Polling
  import opened Stranding

  // ---- an undisturbed close as a run of actions ------------------------------------------------

  lemma {:induction false} OnwardFirst(s: Sys, a: Action, actions: seq<Action>, cfg: Config)
    ensures Onward(s, [a] + actions, cfg) == Onward(Apply(s, a, cfg), actions, cfg)
  {
    hide Apply;
    if actions == [] {
      assert ([a] + [])[..0] == [] && [a] + [] == [a];
      assert Onward(s, [], cfg) == s;
    } else {
      var n := |actions| - 1;
      assert ([a] + actions)[..n + 1] == [a] + actions[..n];
      OnwardFirst(s, a, actions[..n], cfg);
    }
  }

  lemma {:induction false} OnwardAfter(actions: seq<Action>, more: seq<Action>, cfg: Config)
    ensures Onward(After(actions, cfg), more, cfg) == After(actions + more, cfg)
  {
    hide Apply;
    if more == [] {
      assert actions + more == actions;
    } else {
      var n := |more| - 1;
      var all := actions + more;
      assert all[..|all| - 1] == actions + more[..n];
      OnwardAfter(actions, more[..n], cfg);
    }
  }

  lemma StepLeavesClaim(w: World, pc: Pc, c: Choice, cfg: Config)
    requires CanStep(w, pc, c)
    ensures !Step(w, pc, c, cfg).1.Claimed?
  {
    hide CombineKept, Verdicts, IsQueryOrder, Fetch, SaveAdapter, Works, CommitClose, RecordVerdict, OpenRound, FinishRun;
  }

  /** The steps left of a close, each as an action of its own. */
  lemma {:induction false} FinishByActions(s: Sys, p: nat, c: Choice, cfg: Config) returns (actions: seq<Action>)
    requires p in s.closers && CanStep(s.w, s.closers[p], c)
    ensures var f := Finish(s.w, s.closers[p], c, cfg);
      f.1.Ended? && Onward(s, actions, cfg) == s.(w := f.0, closers := s.closers[p := Ended])
    ensures forall i :: 0 <= i < |actions| ==> actions[i].StepClose?
    decreases StepsLeft(s.closers[p], |c.order|)
  {
    hide Step, IsQueryOrder;
    var pc := s.closers[p];
    if pc.Ended? {
      actions := [];
      assert s.closers[p := Ended] == s.closers;
      FinishEnded(s.w, c, cfg);
    } else {
      FinishStep(s.w, pc, c, cfg);
      StepGoesOn(s.w, pc, c, cfg);
      StepLeavesClaim(s.w, pc, c, cfg);
      var a := StepClose(p, c);
      var next := Apply(s, a, cfg);
      assert next.closers[p] == Step(s.w, pc, c, cfg).1;
      var rest := FinishByActions(next, p, c, cfg);
      actions := [a] + rest;
      OnwardFirst(s, a, rest, cfg);
      assert next.closers[p := Ended] == s.closers[p := Ended];
    }
  }

  lemma FreshCloser(closers: map<nat, Pc>) returns (p: nat)
    ensures p !in closers
  {
    p := Above(closers.Keys);
  }

  lemma {:induction false} Above(xs: set<nat>) returns (p: nat)
    ensures forall x :: x in xs ==> x < p
  {
    if xs == {} {
      p := 0;
    } else {
      var x :| x in xs;
      var q := Above(xs - {x});
      assert forall y :: y in xs ==> y == x || y in xs - {x};
      p := if x < q then q else x + 1;
    }
  }

  /** A close that nothing disturbs is a run of the system. */
  lemma CloseByActions(s: Sys, id: RoundId, c: Choice, cfg: Config) returns (actions: seq<Action>, p: nat)
    requires RoundIs(s.w.db, id, Open) && IsQueryOrder(s.w.db, id, c.order)
    ensures p !in s.closers
    ensures Onward(s, actions, cfg) == s.(w := CloseAll(s.w, id, c, cfg), closers := s.closers[p := Ended])
    ensures forall i :: 0 <= i < |actions| ==> actions[i].StartClose? || actions[i].StepClose?
  {
    hide IsQueryOrder;
    p := FreshCloser(s.closers);
    var a := StartClose(p, id);
    var claimed := Apply(s, a, cfg);
    QueryUnmoved(s.w.db, id, c.order);
    assert claimed.w == Claiming(s.w, id) && claimed.closers[p] == Claimed(id);
    var rest := FinishByActions(claimed, p, c, cfg);
    actions := [a] + rest;
    OnwardFirst(s, a, rest, cfg);
    assert claimed.closers[p := Ended] == s.closers[p := Ended];
  }

  // ---- polls of reachable states ------------------------------------------------------------------

  lemma TidyAllSound(actions: seq<Action>, cfg: Config)
    requires TidyRun(actions, cfg)
    ensures AllSound(After(actions, cfg), true) && CapPositive(cfg)
  {
    hide After, Sound, WorkSound, RefsSound, TidyRun;
    EveryRunIsSound(actions, cfg);
    EveryRunKeepsLeases(actions, cfg);
    EveryRunKeepsRefs(actions, cfg, true);
    TidyCap(actions, cfg);
  }

  lemma OpenIsLast(s: Sys, id: RoundId)
    requires Sound(s) && RoundIs(s.w.db, id, Open)
    ensures id.run in s.w.db.runs && RoundId(id.run, id.idx + 1) !in s.w.db.rounds
    ensures forall p :: p in s.closers && s.closers[p].Advancing? ==> s.closers[p].job.id != id
  {
    hide CreationsSound, Exclusive, RunSound, JobSound;
    var next := RoundId(id.run, id.idx + 1);
    assert RoundSound(s.w.db, id);
    assert next in s.w.db.rounds ==> RoundSound(s.w.db, next);
    forall p | p in s.closers && s.closers[p].Advancing? ensures s.closers[p].job.id != id {
      assert PcSound(s.w.db, s.closers[p]);
    }
  }

  lemma StrandedByClose(s: Sys, run: string, n: World, p: nat)
    requires Sound(s) && RunActive(s.w.db, run) && RoundIs(s.w.db, CurrentId(s.w.db, run), Open)
    requires run in n.db.runs && SamePlace(s.w.db, n.db, run) && RoundIs(n.db, CurrentId(s.w.db, run), Closed) && p !in s.closers
    ensures Stranded(s.(w := n, closers := s.closers[p := Ended]), run)
  {
    hide Sound;
    OpenIsLast(s, CurrentId(s.w.db, run));
  }

  /** What a poll that closes a round leads to, in any state of a tidy run. If some accepted
      submission's artifact loads and gate 4 does not condemn it, the round has a result; if everybody
      who so passes has readable metrics as well, the run goes on. Otherwise it is stranded: without a
      result, whatever ungated work the close rule had counted, or with one, on metrics that cannot be
      read, and then the poll raises. */
  lemma {:induction false} PollPublishesExactlyWhen(actions: seq<Action>, cfg: Config, run: string, c: Choice)
    returns (more: seq<Action>)
    requires TidyRun(actions, cfg) && RunActive(After(actions, cfg).w.db, run)
    requires var db := After(actions, cfg).w.db;
      ShouldClose(db, CurrentId(db, run), c.now) && IsQueryOrder(db, CurrentId(db, run), c.order) && c.io
    ensures AllAccepted(After(actions, cfg).w.db, c.order)
    ensures var s := After(actions, cfg);
      var id, n, end := CurrentId(s.w.db, run), MaybeClose(s.w, run, c, cfg), After(actions + more, cfg);
      && end.w == n && RoundIs(n.db, id, Closed)
      && (n.db.rounds[id].result.Some? <==> exists t :: Passes(s.w, c.order, cfg, t))
      && (n.db.rounds[id].result.Some? ==> n.db.rounds[id].result == Some(ResultKey(id)))
      && (n.db.rounds[id].result.Some? && AllReadable(s.w, c.order, cfg) ==> Continues(s.w, n, id, c.now))
      && (Stranded(end, run) <==> n.db.rounds[id].result.None? || !AllReadable(s.w, c.order, cfg))
      && (PollRaises(s.w, run, c, cfg) <==> !AllReadable(s.w, c.order, cfg))
  {
    hide After, TidyRun, AllSound, Sound, IsQueryOrder, CloseAll, CloseRaises, Passes, AllReadable, Progress, Counted, CanClose;
    var s := After(actions, cfg);
    var id := CurrentId(s.w.db, run);
    TidyAllSound(actions, cfg);
    AllSoundIsSound(s);
    OpenIsLast(s, id);
    TidyCloseGoesThrough(s, id, c, cfg);
    GoesThroughExactlyWhen(s.w, id, c, cfg);
    ClosePublishesExactlyWhen(s.w, id, c, cfg);
    CloseRaisesExactlyWhen(s.w, id, c, cfg);
    var p: nat;
    more, p := CloseByActions(s, id, c, cfg);
    OnwardAfter(actions, more, cfg);
    var n := MaybeClose(s.w, run, c, cfg);
    if n.db.rounds[id].result.None? || !AllReadable(s.w, c.order, cfg) {
      StrandedByClose(s, run, n, p);
    } else {
      ContinuesUnstranded(s, n, run, p, c.now);
    }
  }

  lemma AllSoundIsSound(s: Sys)
    requires AllSound(s, true)
    ensures Sound(s) && WorkSound(s)
  {
  }

  lemma ContinuesUnstranded(s: Sys, n: World, run: string, p: nat, now: int)
    requires run in s.w.db.runs && CurrentId(s.w.db, run) in s.w.db.rounds && Continues(s.w, n, CurrentId(s.w.db, run), now)
    requires RoundIs(n.db, CurrentId(s.w.db, run), Closed)
    ensures !Stranded(s.(w := n, closers := s.closers[p := Ended]), run)
  {
  }

  /** In a tidy run no overdue round survives a poll: it is closed, or its clock starts again. */
  lemma {:induction false} PollClearsOverdue(actions: seq<Action>, cfg: Config, run: string, c: Choice)
    requires TidyRun(actions, cfg) && RunActive(After(actions, cfg).w.db, run)
    requires var db := After(actions, cfg).w.db;
      var id := CurrentId(db, run);
      && IsQueryOrder(db, id, c.order) && c.io
      && id in db.rounds && db.rounds[id].targetSteps >= 1 && db.rounds[id].maxSec > 0
    ensures var s := After(actions, cfg); !OverdueRound(MaybeClose(s.w, run, c, cfg).db, CurrentId(s.w.db, run), c.now)
  {
    hide After, TidyRun, AllSound, IsQueryOrder, CloseAll, CanClose, MaybeClose, Counted;
    var s := After(actions, cfg);
    var id := CurrentId(s.w.db, run);
    TidyAllSound(actions, cfg);
    OverdueSurvivesExactlyWhen(s.w, run, c, cfg);
    if RoundIs(s.w.db, id, Open) {
      TidyCohort(s, id, c.order);
      TidyCloseGoesThrough(s, id, c, cfg);
      GoesThroughExactlyWhen(s.w, id, c, cfg);
    }
  }

  /** A poll that finds nothing accepted closes on ungated work and strands the run. */
  lemma {:induction false} UngatedWorkStrands(actions: seq<Action>, cfg: Config, run: string, c: Choice) returns (more: seq<Action>)
    requires TidyRun(actions, cfg) && RunActive(After(actions, cfg).w.db, run)
    requires var db := After(actions, cfg).w.db;
      ShouldClose(db, CurrentId(db, run), c.now) && IsQueryOrder(db, CurrentId(db, run), []) && c.order == [] && c.io
    ensures After(actions + more, cfg).w == MaybeClose(After(actions, cfg).w, run, c, cfg) && Stranded(After(actions + more, cfg), run)
  {
    hide After, TidyRun, IsQueryOrder, CloseAll, Progress, Counted, MaybeClose, Stranded;
    var db := After(actions, cfg).w.db;
    more := PollPublishesExactlyWhen(actions, cfg, run, c);
    UngatedWorkCloses(db, CurrentId(db, run), c.now);
  }

  // ---- retries in reachable states ------------------------------------------------------------------

  lemma ReachableInPlace(s: Sys, id: RoundId)
    requires Sound(s) && WorkSound(s) && RoundIs(s.w.db, id, Open)
    ensures InPlace(s.w.db, id)
  {
    hide ClosersSound, CreationsSound, WorkSound;
    assert RoundSound(s.w.db, id);
    assert RunSound(s.w.db, id.run);
    SubmissionsInPlace(s);
  }

  /** Exactly when a close may fail and be retried, in every state of a tidy run: whatever the store
      failed to answer, the retry ends where the uninterrupted close would have if and only if gate 4
      and the momentum agree. */
  lemma {:induction false} TidyRetryExactlyWhen(actions: seq<Action>, cfg: Config, id: RoundId, c: Choice, answers: seq<bool>)
    requires TidyRun(actions, cfg) && RoundIs(After(actions, cfg).w.db, id, Open)
    requires var w := After(actions, cfg).w;
      IsQueryOrder(w.db, id, c.order) && c.io && BeforeCommit(Attempt(w, id, c.order, answers, cfg).1)
    ensures var w := After(actions, cfg).w;
      var v := Reopened(Attempt(w, id, c.order, answers, cfg).0, id);
      && id.run in w.db.runs && id.run in v.db.runs && AllAccepted(w.db, c.order) && AllAccepted(v.db, Still(v.db, c.order))
      && (EndsAlike(w, v, id, c, cfg) <==> CohortAgrees(w, v, c.order, cfg) && StoreAgrees(w, v, id, c.order, cfg))
  {
    hide After, TidyRun, AllSound, Sound, WorkSound, IsQueryOrder, CloseAll, Attempt, CohortAgrees, StoreAgrees, EndsAlike,
      InPlace, BeforeCommit, Still;
    var s := After(actions, cfg);
    TidyAllSound(actions, cfg);
    AllSoundIsSound(s);
    ReachableInPlace(s, id);
    InPlaceMeans(s.w.db, id);
    TidyCloseGoesThrough(s, id, c, cfg);
    RetryExactlyWhen(s.w, id, c, answers, cfg);
  }

  /** In every reachable state: a failed close may be retried freely until gate 4 has rejected
      somebody or the momentum it put is named. */
  lemma {:induction false} ReachableRetryIsSafe(actions: seq<Action>, cfg: Config, id: RoundId, c: Choice, answers: seq<bool>)
    requires RoundIs(After(actions, cfg).w.db, id, Open)
    requires var w := After(actions, cfg).w;
      IsQueryOrder(w.db, id, c.order) && c.io && BeforeCommit(Attempt(w, id, c.order, answers, cfg).1)
    requires forall i :: 0 <= i < |answers| ==> answers[i]
    ensures var w := After(actions, cfg).w;
      var a := Attempt(w, id, c.order, answers, cfg);
      var v := Reopened(a.0, id);
      && id.run in w.db.runs && AllAccepted(w.db, c.order) && AllAccepted(v.db, Still(v.db, c.order))
      && (Cohort(v, Still(v.db, c.order)) == Cohort(w, c.order) && !MomentumSeen(w, id, a.1) ==> EndsAlike(w, v, id, c, cfg))
  {
    hide After, Sound, WorkSound, IsQueryOrder, CloseAll, Attempt, EndsAlike, InPlace, BeforeCommit, Still, Cohort, MomentumSeen;
    var s := After(actions, cfg);
    EveryRunIsSound(actions, cfg);
    EveryRunKeepsLeases(actions, cfg);
    ReachableInPlace(s, id);
    InPlaceMeans(s.w.db, id);
    RetryIsSafe(s.w, id, c, answers, cfg);
  }

  /** In every state of a tidy run the query may return submissions received at the same moment in
      any order: the closed round is the same, rows and objects alike. */
  lemma {:induction false} CloseIsOrderFree(actions: seq<Action>, cfg: Config, id: RoundId, c: Choice, other: seq<string>)
    requires TidyRun(actions, cfg) && RoundIs(After(actions, cfg).w.db, id, Open) && c.io
    requires IsQueryOrder(After(actions, cfg).w.db, id, c.order) && IsQueryOrder(After(actions, cfg).w.db, id, other)
    ensures CloseAll(After(actions, cfg).w, id, c.(order := other), cfg) == CloseAll(After(actions, cfg).w, id, c, cfg)
  {
    hide After, TidyRun, AllSound, IsQueryOrder, CloseAll;
    TidyAllSound(actions, cfg);
    CloseIgnoresOrder(After(actions, cfg), id, c, other, cfg);
  }
}
