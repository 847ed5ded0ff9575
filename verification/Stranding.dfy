/** The ways a run can be left without an open round: a close that published nothing, a failure
    after the commit, a crash before it. */
module Stranding {
  import opened Wrappers
  import opened Tensors
  import opened ObjectKeys
  import opened Tables
  import opened Rounds
  import opened Closer
  import opened System
  import opened CloseSafety
  import opened LeaseSafety
  import opened CloseRun
  import opened Leftovers
  import opened Retry
  import opened Polling

  ghost function Onward(s: Sys, actions: seq<Action>, cfg: Config): Sys {
    if actions == [] then s else Apply(Onward(s, actions[..|actions| - 1], cfg), actions[|actions| - 1], cfg)
  }

  // ---- stranded runs -----------------------------------------------------------------------

  /** The run is not done, points at a closed round, and nobody is about to open the next. */
  ghost predicate Stranded(s: Sys, run: string) {
    && RunActive(s.w.db, run) && RoundIs(s.w.db, CurrentId(s.w.db, run), Closed)
    && forall p :: p in s.closers && s.closers[p].Advancing? ==> s.closers[p].job.id != CurrentId(s.w.db, run)
  }

  ghost predicate SamePlace(db: Db, n: Db, run: string)
    requires run in db.runs && run in n.runs
  {
    n.runs[run].current == db.runs[run].current && n.runs[run].status == db.runs[run].status
  }

  lemma StrandedLoud(w: World, pc: Pc, c: Choice, cfg: Config, run: string)
    requires !QuietPc(pc) && PcSound(w.db, pc) && run in w.db.runs && RoundIs(w.db, CurrentId(w.db, run), Closed)
    requires pc.Advancing? ==> pc.job.id != CurrentId(w.db, run)
    ensures var n := Step(w, pc, c, cfg);
      && run in n.0.db.runs && SamePlace(w.db, n.0.db, run)
      && (n.1.Advancing? ==> n.1.job.id != CurrentId(w.db, run))
  {
  }

  lemma StrandedQuiet(w: World, pc: Pc, c: Choice, cfg: Config, run: string)
    requires QuietPc(pc) && CanStep(w, pc, c)
    ensures var n := Step(w, pc, c, cfg); n.0.db.runs == w.db.runs && !n.1.Advancing?
  {
    if HasJob(pc) {
      hide Step, IsQueryOrder;
      JobStep(w, pc, c, cfg);
    } else {
      hide IsQueryOrder, Entries;
    }
  }

  lemma StrandedStep(s: Sys, p: nat, c: Choice, cfg: Config, run: string)
    requires Sound(s) && Stranded(s, run)
    ensures var n := DoStepClose(s, p, c, cfg);
      && run in n.w.db.runs && SamePlace(s.w.db, n.w.db, run)
      && (p in n.closers && n.closers[p].Advancing? ==> n.closers[p].job.id != CurrentId(s.w.db, run))
  {
    hide Step, IsQueryOrder, Chain, Exclusive, CreationsSound, PcSound;
    if p in s.closers && CanStep(s.w, s.closers[p], c) {
      if QuietPc(s.closers[p]) {
        StrandedQuiet(s.w, s.closers[p], c, cfg, run);
      } else {
        StrandedLoud(s.w, s.closers[p], c, cfg, run);
      }
    }
  }

  lemma StrandedElsewhere(s: Sys, a: Action, cfg: Config, run: string)
    requires Sound(s) && Stranded(s, run) && !a.StepClose?
    ensures var n := Apply(s, a, cfg);
      && run in n.w.db.runs && SamePlace(s.w.db, n.w.db, run)
      && forall p :: p in n.closers && n.closers[p].Advancing? ==> p in s.closers && s.closers[p] == n.closers[p]
  {
    hide Apply, Sound;
    if TaskAction(a) {
      TaskActionFrame(s, a, cfg);
    } else if StoreAction(a) {
      StoreActionFrame(s, a, cfg);
    } else {
      StrandedHasFirst(s, run);
      StrandedOtherwise(s, a, cfg, run);
    }
  }

  /** The run keeps its current round, and nobody new is advancing. */
  ghost predicate StaysPut(s: Sys, n: Sys, run: string) {
    && run in s.w.db.runs && run in n.w.db.runs && SamePlace(s.w.db, n.w.db, run)
    && forall p :: p in n.closers && n.closers[p].Advancing? ==> p in s.closers && s.closers[p] == n.closers[p]
  }

  lemma StrandedCreation(s: Sys, a: Action, cfg: Config, run: string)
    requires RoundId(run, 0) in s.w.db.rounds && run in s.w.db.runs && (a.AddRun? || a.OpenFirst?)
    ensures StaysPut(s, Apply(s, a, cfg), run)
  {
  }

  lemma StrandedStart(s: Sys, p: nat, id: RoundId, run: string)
    requires run in s.w.db.runs
    ensures StaysPut(s, DoStartClose(s, p, id), run)
  {
  }

  lemma StrandedFailure(s: Sys, p: nat, run: string)
    requires run in s.w.db.runs
    ensures StaysPut(s, DoFailClose(s, p), run) && StaysPut(s, s.(closers := s.closers - {p}), run)
  {
  }

  lemma StrandedRestart(s: Sys, id: RoundId, now: int, run: string)
    requires run in s.w.db.runs
    ensures StaysPut(s, WithDb(s, ReopenEmptyRound(s.w.db, id, now)), run)
  {
    hide ShouldRestart;
  }

  lemma StrandedOtherwise(s: Sys, a: Action, cfg: Config, run: string)
    requires RoundId(run, 0) in s.w.db.rounds && run in s.w.db.runs && !a.StepClose? && !Bystander(a)
    ensures StaysPut(s, Apply(s, a, cfg), run)
  {
    hide Bystander, StaysPut, ReopenEmptyRound, DoAddRun, DoOpenFirst, DoStartClose, DoFailClose;
    BystandersOnly(a);
    if a.AddRun? || a.OpenFirst? {
      StrandedCreation(s, a, cfg, run);
    } else if a.Restart? {
      StrandedRestart(s, a.id, a.now, run);
    } else if a.StartClose? {
      StrandedStart(s, a.p, a.id, run);
    } else {
      StrandedFailure(s, a.p, run);
    }
  }

  lemma StrandedHasFirst(s: Sys, run: string)
    requires Sound(s) && Stranded(s, run)
    ensures RoundId(run, 0) in s.w.db.rounds
  {
    EarlierRoundsExist(s.w.db, CurrentId(s.w.db, run), 0);
  }

  lemma StrandedStays(s: Sys, a: Action, cfg: Config, run: string)
    requires Sound(s) && Stranded(s, run)
    ensures Stranded(Apply(s, a, cfg), run) && CurrentId(Apply(s, a, cfg).w.db, run) == CurrentId(s.w.db, run)
  {
    hide Apply, Sound, DoStepClose;
    ClosedStays(s, a, cfg, CurrentId(s.w.db, run));
    if a.StepClose? {
      StrandedStep(s, a.p, a.choice, cfg, run);
      StepFrame(s, a.p, a.choice, cfg);
      ApplyStep(s, a, cfg);
    } else {
      StrandedElsewhere(s, a, cfg, run);
    }
  }

  lemma ApplyStep(s: Sys, a: Action, cfg: Config)
    requires a.StepClose?
    ensures Apply(s, a, cfg) == DoStepClose(s, a.p, a.choice, cfg)
  {
    hide DoStepClose;
  }

  lemma StepFrame(s: Sys, p: nat, c: Choice, cfg: Config)
    ensures var n := DoStepClose(s, p, c, cfg);
      forall q :: q in n.closers && q != p ==> q in s.closers && n.closers[q] == s.closers[q]
  {
    hide Step, IsQueryOrder;
  }

  /** A stranded run never moves again, whatever anyone does: it stays at its closed round, and no
      worker is ever given work on it. */
  lemma {:induction false} StrandedForEver(s: Sys, actions: seq<Action>, cfg: Config, run: string)
    requires Sound(s) && Stranded(s, run)
    ensures var n := Onward(s, actions, cfg);
      Sound(n) && Stranded(n, run) && CurrentId(n.w.db, run) == CurrentId(s.w.db, run) && !Workable(n.w.db, run)
  {
    hide Apply, Sound;
    if actions != [] {
      var before := actions[..|actions| - 1];
      StrandedForEver(s, before, cfg, run);
      var mid := Onward(s, before, cfg);
      StrandedStays(mid, actions[|actions| - 1], cfg, run);
      ActionKeepsSound(mid, actions[|actions| - 1], cfg);
    }
  }

  // ---- failing ---------------------------------------------------------------------------------

  lemma OthersOffRound(s: Sys, p: nat, q: nat)
    requires Sound(s) && p in s.closers && q in s.closers && q != p && s.closers[p].Advancing? && s.closers[q].Advancing?
    ensures s.closers[q].job.id != s.closers[p].job.id
  {
    hide Chain, PcSound, CreationsSound;
    assert RoundOf(s.closers[q]) != RoundOf(s.closers[p]);
  }

  lemma CrashAfterCommitStrands(s: Sys, p: nat)
    requires Sound(s) && p in s.closers && s.closers[p].Advancing?
    ensures Stranded(s.(closers := s.closers - {p}), s.closers[p].job.id.run)
  {
    hide Chain, CreationsSound, Exclusive;
    assert PcSound(s.w.db, s.closers[p]);
    forall q | q in s.closers && q != p && s.closers[q].Advancing? ensures s.closers[q].job.id != s.closers[p].job.id {
      OthersOffRound(s, p, q);
    }
  }

  lemma ReleaseLeavesClosed(db: Db, id: RoundId)
    requires RoundIs(db, id, Closed)
    ensures ReleaseClose(db, id) == db
  {
  }

  /** How a run gets there, two: neither a crash nor an exception after the commit is undone. The
      failure path finds the round closed and leaves it so. */
  lemma FailureAfterCommitStrands(s: Sys, p: nat, c: Choice, cfg: Config)
    requires Sound(s) && p in s.closers && s.closers[p].Advancing?
    ensures var run := s.closers[p].job.id.run;
      && Stranded(s.(closers := s.closers - {p}), run)
      && Stranded(DoStepClose(DoFailClose(s, p), p, c, cfg), run)
  {
    hide Sound, PcSound, DoStepClose, DoFailClose;
    CrashAfterCommitStrands(s, p);
    AdvancingClosed(s, p);
    ReleaseLeavesClosed(s.w.db, s.closers[p].job.id);
    UnwoundWorld(s, p, c, cfg);
    forall q | q in s.closers && q != p && s.closers[q].Advancing? ensures s.closers[q].job.id != s.closers[p].job.id {
      OthersOffRound(s, p, q);
    }
  }

  lemma AdvancingClosed(s: Sys, p: nat)
    requires Sound(s) && p in s.closers && s.closers[p].Advancing?
    ensures RoundIs(s.w.db, s.closers[p].job.id, Closed)
    ensures s.closers[p].job.id.run in s.w.db.runs && CurrentId(s.w.db, s.closers[p].job.id.run) == s.closers[p].job.id
  {
    hide Chain, CreationsSound, Exclusive;
    assert PcSound(s.w.db, s.closers[p]);
  }

  lemma UnwoundWorld(s: Sys, p: nat, c: Choice, cfg: Config)
    requires p in s.closers && s.closers[p].Advancing? && ReleaseClose(s.w.db, s.closers[p].job.id) == s.w.db
    ensures var n := DoStepClose(DoFailClose(s, p), p, c, cfg); n.w == s.w && n.closers == s.closers[p := Ended]
  {
    hide ReleaseClose;
    var f := DoFailClose(s, p);
    assert f.closers[p] == Unwinding(s.closers[p].job.id) && f.w == s.w;
  }

  lemma CloserRound(s: Sys, p: nat)
    requires Sound(s) && p in s.closers && RoundOf(s.closers[p]).Some?
    ensures var pc, id := s.closers[p], RoundOf(s.closers[p]).value;
      id in s.w.db.rounds && (BeforeCommit(pc) ==> RoundIs(s.w.db, id, Closing)) && (pc.Advancing? ==> RoundIs(s.w.db, id, Closed))
  {
    hide Chain, CreationsSound, Exclusive, JobSound;
    assert PcSound(s.w.db, s.closers[p]);
  }

  /** An exception in a close gives the round back exactly when it comes before the commit. */
  lemma FailureGivesBackExactlyWhen(s: Sys, p: nat, c: Choice, cfg: Config)
    requires Sound(s) && p in s.closers && RoundOf(s.closers[p]).Some? && !s.closers[p].Unwinding?
    ensures var id, n := RoundOf(s.closers[p]).value, DoStepClose(DoFailClose(s, p), p, c, cfg);
      && (RoundIs(n.w.db, id, Open) <==> BeforeCommit(s.closers[p]))
      && n.w == s.w.(db := ReleaseClose(s.w.db, id)) && n.closers == s.closers[p := Ended]
  {
    hide Sound;
    CloserRound(s, p);
    var f := DoFailClose(s, p);
    assert f.closers[p] == Unwinding(RoundOf(s.closers[p]).value) && f.w == s.w;
  }

  // ---- wedged rounds -------------------------------------------------------------------------------

  /** The round is being closed and nobody is closing it. */
  ghost predicate Wedged(s: Sys, id: RoundId) {
    RoundIs(s.w.db, id, Closing) && forall p :: p in s.closers ==> RoundOf(s.closers[p]) != Some(id)
  }

  /** A crash wedges its round exactly when it comes before the round has changed hands again: before
      the commit, or before the failure path has given it back. */
  lemma CrashWedgesExactlyWhen(s: Sys, p: nat)
    requires Sound(s) && p in s.closers && RoundOf(s.closers[p]).Some?
    ensures var id := RoundOf(s.closers[p]).value;
      && (Wedged(s.(closers := s.closers - {p}), id) <==> RoundIs(s.w.db, id, Closing))
      && (BeforeCommit(s.closers[p]) ==> RoundIs(s.w.db, id, Closing))
      && (s.closers[p].Advancing? ==> !RoundIs(s.w.db, id, Closing))
  {
  }

  /** The round keeps its row, and whoever is closing it was closing it before. */
  ghost predicate StaysWedged(s: Sys, n: Sys, id: RoundId) {
    && id in s.w.db.rounds && id in n.w.db.rounds && n.w.db.rounds[id] == s.w.db.rounds[id]
    && forall q :: q in n.closers && RoundOf(n.closers[q]) == Some(id) ==> q in s.closers && RoundOf(s.closers[q]) == Some(id)
  }

  lemma QuietStepRound(w: World, pc: Pc, c: Choice, cfg: Config, id: RoundId)
    requires QuietPc(pc) && CanStep(w, pc, c) && id in w.db.rounds
    ensures var n := Step(w, pc, c, cfg); n.0.db.rounds == w.db.rounds && (RoundOf(n.1) == Some(id) ==> RoundOf(pc) == Some(id))
  {
    if HasJob(pc) {
      hide Step, IsQueryOrder;
      JobStep(w, pc, c, cfg);
    } else {
      hide IsQueryOrder, Entries;
    }
  }

  lemma LoudStepRound(w: World, pc: Pc, c: Choice, cfg: Config, id: RoundId)
    requires !QuietPc(pc) && id in w.db.rounds && RoundOf(pc) != Some(id)
    ensures var n := Step(w, pc, c, cfg); id in n.0.db.rounds && n.0.db.rounds[id] == w.db.rounds[id] && RoundOf(n.1) != Some(id)
  {
    hide EndedWith, TimingOf;
  }

  lemma WedgedStep(s: Sys, p: nat, c: Choice, cfg: Config, id: RoundId)
    requires Wedged(s, id)
    ensures StaysWedged(s, DoStepClose(s, p, c, cfg), id)
  {
    hide Step, IsQueryOrder;
    if p in s.closers && CanStep(s.w, s.closers[p], c) {
      assert RoundOf(s.closers[p]) != Some(id);
      if QuietPc(s.closers[p]) {
        QuietStepRound(s.w, s.closers[p], c, cfg, id);
      } else {
        LoudStepRound(s.w, s.closers[p], c, cfg, id);
      }
    }
  }

  lemma WedgedOtherwise(s: Sys, a: Action, cfg: Config, id: RoundId)
    requires Wedged(s, id) && !a.StepClose? && !Bystander(a)
    ensures StaysWedged(s, Apply(s, a, cfg), id)
  {
    hide Bystander, Counted, Progress;
    BystandersOnly(a);
  }

  lemma WedgedElsewhere(s: Sys, a: Action, cfg: Config, id: RoundId)
    requires Wedged(s, id) && Bystander(a)
    ensures StaysWedged(s, Apply(s, a, cfg), id)
  {
    hide Apply;
    if TaskAction(a) {
      TaskActionFrame(s, a, cfg);
    } else {
      StoreActionFrame(s, a, cfg);
    }
  }

  lemma WedgedStays(s: Sys, a: Action, cfg: Config, id: RoundId)
    requires Wedged(s, id)
    ensures Wedged(Apply(s, a, cfg), id) && Apply(s, a, cfg).w.db.rounds[id] == s.w.db.rounds[id]
  {
    hide Apply, DoStepClose, Bystander;
    if a.StepClose? {
      WedgedStep(s, a.p, a.choice, cfg, id);
      ApplyStep(s, a, cfg);
    } else if Bystander(a) {
      WedgedElsewhere(s, a, cfg, id);
    } else {
      WedgedOtherwise(s, a, cfg, id);
    }
  }

  /** A wedged round is never opened, closed or claimed again, whatever anyone does, and its run
      gives out no more work. */
  lemma {:induction false} WedgedForEver(s: Sys, actions: seq<Action>, cfg: Config, id: RoundId)
    requires Sound(s) && Wedged(s, id)
    ensures var n := Onward(s, actions, cfg);
      Sound(n) && Wedged(n, id) && n.w.db.rounds[id] == s.w.db.rounds[id] && !Workable(n.w.db, id.run)
  {
    hide Apply, Sound;
    if actions != [] {
      var before := actions[..|actions| - 1];
      WedgedForEver(s, before, cfg, id);
      var mid := Onward(s, before, cfg);
      WedgedStays(mid, actions[|actions| - 1], cfg, id);
      ActionKeepsSound(mid, actions[|actions| - 1], cfg);
    }
    WedgedUnworkable(Onward(s, actions, cfg), id);
  }

  lemma WedgedUnworkable(s: Sys, id: RoundId)
    requires Sound(s) && Wedged(s, id)
    ensures !Workable(s.w.db, id.run)
  {
    hide ClosersSound, CreationsSound;
    assert RoundSound(s.w.db, id);
  }
}
