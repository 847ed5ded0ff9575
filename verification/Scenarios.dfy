/** Runs of the system that bring any cohort of fitting adapters into one open round: the starting
    point of the inputs on which a promise fails. */
module Scenarios {
  import opened Wrappers
  import opened Tensors
  import opened OuterStep
  import opened Contributions
  import opened ObjectKeys
  import opened Tables
  import opened Rounds
  import opened Closer
  import opened System
  import opened CloseSafety
  import opened LeaseSafety
  import opened RefSafety
  import opened RefSteps
  import opened RefCloses
  import opened CloseRun

  const RUN := "run"
  const WORKER := "worker"

  function FirstRound(): RoundId {
    RoundId(RUN, 0)
  }

  /** A different name for every task. */
  function TaskName(k: nat): string {
    seq(k + 1, _ => 't')
  }

  lemma NamesDiffer(i: nat, j: nat)
    ensures TaskName(i) == TaskName(j) ==> i == j
  {
    assert |TaskName(i)| == i + 1 && |TaskName(j)| == j + 1;
  }

  ghost function Names(k: nat): set<string> {
    if k == 0 then {} else Names(k - 1) + {TaskName(k - 1)}
  }

  lemma {:induction false} NamesAre(k: nat)
    ensures forall t :: t in Names(k) <==> exists i: nat :: i < k && t == TaskName(i)
  {
    if k > 0 {
      NamesAre(k - 1);
      forall t | t in Names(k) ensures exists i: nat :: i < k && t == TaskName(i) {
        if t in Names(k - 1) {
          var i: nat :| i < k - 1 && t == TaskName(i);
          assert i < k;
        } else {
          assert k - 1 < k && t == TaskName(k - 1);
        }
      }
    }
  }

  lemma NameIsFresh(k: nat)
    ensures TaskName(k) !in Names(k)
  {
    NamesAre(k);
    forall i: nat | i < k ensures TaskName(i) != TaskName(k) {
      NamesDiffer(i, k);
    }
  }

  /** The run's momentum decay, and what every worker reports of its speed. */
  datatype Setting = Setting(beta: real, metrics: Metrics)

  function RowOf(beta: real): Run {
    Run(Active, 0, 2, "mean", 1.0, beta, None, 1)
  }

  function OpenRow(): Round {
    Round(BaseKey(RUN, 0), Open, 1, 0, 1, 0, None)
  }

  function ArtifactKey(k: nat): Key {
    SubmissionKey(RUN, 0, TaskName(k))
  }

  /** One run with its first round open. */
  ghost predicate OneRound(s: Sys, seed: Adapter, o: Setting) {
    && s.w.db.runs == map[RUN := RowOf(o.beta)] && s.w.db.rounds == map[FirstRound() := OpenRow()]
    && BaseKey(RUN, 0) in s.w.store && s.w.store[BaseKey(RUN, 0)] == SaveAdapter(seed)
    && s.creations == map[] && s.closers == map[] && s.doomed == {}
  }

  /** Task k has been submitted with this adapter and accepted. */
  ghost predicate Worked(s: Sys, o: Setting, k: nat, a: Adapter) {
    var t := TaskName(k);
    && t in s.w.db.tasks && s.w.db.tasks[t].round == FirstRound() && s.w.db.tasks[t].status == Submitted
    && t in s.w.db.subs && s.w.db.subs[t] == Submission(ArtifactKey(k), 1, o.metrics, Some(true), k)
    && ArtifactKey(k) in s.w.store && s.w.store[ArtifactKey(k)] == SaveAdapter(a)
  }

  ghost predicate AllWorked(s: Sys, o: Setting, works: seq<Adapter>) {
    forall k: nat :: k < |works| ==> Worked(s, o, k, works[k])
  }

  /** The round holds exactly this cohort, all accepted. */
  ghost predicate Prepared(s: Sys, seed: Adapter, o: Setting, works: seq<Adapter>) {
    && OneRound(s, seed, o) && AllWorked(s, o, works)
    && s.w.db.tasks.Keys == Names(|works|) && s.w.db.subs.Keys == Names(|works|) && s.gates == map[]
  }

  // ---- one worker's turn ---------------------------------------------------------------------

  function ClaimOf(k: nat): Claim {
    Claim(RUN, WORKER, true, Some(Offer(1, 1)), TaskName(k), k, 1)
  }

  /** The turn of task k, up to its submission and before its gating. */
  ghost predicate Turn(s: Sys, seed: Adapter, o: Setting, works: seq<Adapter>) {
    && OneRound(s, seed, o) && AllWorked(s, o, works) && s.w.db.tasks.Keys == Names(|works| + 1)
    && TaskName(|works|) in s.w.db.tasks && s.w.db.tasks[TaskName(|works|)].round == FirstRound()
    && s.w.db.tasks[TaskName(|works|)].heartbeat.None?
  }

  ghost predicate Leasing(s: Sys, seed: Adapter, o: Setting, works: seq<Adapter>) {
    && Turn(s, seed, o, works) && s.w.db.subs.Keys == Names(|works|) && s.gates == map[]
    && s.w.db.tasks[TaskName(|works|)].status == Leased && s.w.db.tasks[TaskName(|works|)].worker == Some(WORKER)
  }

  ghost predicate Uploaded(s: Sys, k: nat, a: Adapter) {
    ArtifactKey(k) in s.w.store && s.w.store[ArtifactKey(k)] == SaveAdapter(a)
  }

  ghost predicate Gating(s: Sys, seed: Adapter, o: Setting, works: seq<Adapter>, g: Gate) {
    && Turn(s, seed, o, works) && s.w.db.subs.Keys == Names(|works| + 1)
    && TaskName(|works|) in s.w.db.subs && s.gates == map[TaskName(|works|) := g]
    && s.w.db.tasks[TaskName(|works|)].status == Submitted
    && s.w.db.subs[TaskName(|works|)] == Submission(ArtifactKey(|works|), 1, o.metrics, None, |works|)
  }

  lemma WorkedStays(s: Sys, n: Sys, o: Setting, works: seq<Adapter>)
    requires AllWorked(s, o, works)
    requires forall t :: t in Names(|works|) && t in s.w.db.tasks && t in s.w.db.subs ==>
      t in n.w.db.tasks && n.w.db.tasks[t] == s.w.db.tasks[t] && t in n.w.db.subs && n.w.db.subs[t] == s.w.db.subs[t]
    requires forall k: nat :: k < |works| && ArtifactKey(k) in s.w.store ==>
      ArtifactKey(k) in n.w.store && n.w.store[ArtifactKey(k)] == s.w.store[ArtifactKey(k)]
    ensures AllWorked(n, o, works)
  {
    hide TaskName;
    NamesAre(|works|);
    forall k: nat | k < |works| ensures Worked(n, o, k, works[k]) {
      assert Worked(s, o, k, works[k]);
      assert TaskName(k) in Names(|works|);
    }
  }

  lemma GrantsTurn(s: Sys, seed: Adapter, o: Setting, works: seq<Adapter>)
    requires Prepared(s, seed, o, works)
    ensures Grants(s.w.db, ClaimOf(|works|)) && CurrentId(s.w.db, RUN) == FirstRound()
  {
    hide TaskName;
    NameIsFresh(|works|);
    NamesAre(|works|);
    forall t | t in s.w.db.tasks ensures !Holds(s.w.db, t, WORKER, FirstRound()) {
      var k: nat :| k < |works| && t == TaskName(k);
      assert Worked(s, o, k, works[k]);
    }
  }

  lemma GrantedRows(db: Db, c: Claim)
    requires Grants(db, c)
    ensures var n := ClaimTask(db, c);
      && n.runs == db.runs && n.rounds == db.rounds && n.subs == db.subs
      && c.task in n.tasks && n.tasks == db.tasks[c.task := n.tasks[c.task]]
      && n.tasks[c.task].round == CurrentId(db, c.run) && n.tasks[c.task].status == Leased
      && n.tasks[c.task].worker == Some(c.worker) && n.tasks[c.task].heartbeat.None?
  {
    hide Picked, Trained, HoldsSome;
  }

  lemma ClaimTurn(s: Sys, seed: Adapter, o: Setting, works: seq<Adapter>, cfg: Config)
    requires Prepared(s, seed, o, works)
    ensures Leasing(Apply(s, ClaimWork(ClaimOf(|works|)), cfg), seed, o, works)
  {
    hide ClaimTask, Grants, TaskName, Worked;
    GrantsTurn(s, seed, o, works);
    GrantedRows(s.w.db, ClaimOf(|works|));
    NameIsFresh(|works|);
    WorkedStays(s, Apply(s, ClaimWork(ClaimOf(|works|)), cfg), o, works);
  }

  lemma UploadTurn(s: Sys, seed: Adapter, o: Setting, works: seq<Adapter>, a: Adapter, cfg: Config)
    requires Leasing(s, seed, o, works)
    ensures var n := Apply(s, Upload(TaskName(|works|), SaveAdapter(a)), cfg); Leasing(n, seed, o, works) && Uploaded(n, |works|, a)
  {
    hide TaskName;
    var n := Apply(s, Upload(TaskName(|works|), SaveAdapter(a)), cfg);
    assert ArtifactOf(s.w.db, TaskName(|works|)) == ArtifactKey(|works|);
    forall k: nat | k < |works| ensures ArtifactKey(k) != ArtifactKey(|works|) {
      NamesDiffer(k, |works|);
    }
    WorkedStays(s, n, o, works);
  }

  lemma SubmitTurn(s: Sys, seed: Adapter, o: Setting, works: seq<Adapter>, a: Adapter, cfg: Config)
    requires Leasing(s, seed, o, works) && Uploaded(s, |works|, a)
    ensures var n := Apply(s, Submit(TaskName(|works|), WORKER, 1, o.metrics, |works|), cfg);
      Gating(n, seed, o, works, Received) && Uploaded(n, |works|, a)
  {
    hide TaskName, Worked;
    var n := Apply(s, Submit(TaskName(|works|), WORKER, 1, o.metrics, |works|), cfg);
    assert HolderError(s.w.db, TaskName(|works|), WORKER).None?;
    assert ArtifactOf(s.w.db, TaskName(|works|)) == ArtifactKey(|works|);
    NameIsFresh(|works|);
    WorkedStays(s, n, o, works);
  }

  /** A seed that a run can start from. */
  ghost predicate GoodSeed(seed: Adapter) {
    WellFormedAdapter(seed) && Finite(seed) && seed != map[]
  }

  lemma VerdictOfTurn(s: Sys, seed: Adapter, o: Setting, works: seq<Adapter>, a: Adapter)
    requires Gating(s, seed, o, works, Received) && Uploaded(s, |works|, a) && GoodSeed(seed) && Fits(a, seed)
    ensures Expected(s.w, TaskName(|works|)) == Some(ManifestOf(seed))
    ensures GateVerdict(s.w, TaskName(|works|), ManifestOf(seed), true).Accepted?
  {
    hide TaskName, CheckStructural;
    LoadUndoesSave(seed);
    LoadUndoesSave(a);
    GateIsExact(SaveAdapter(a), ManifestOf(seed), 1, None);
  }

  lemma GateTurn(s: Sys, seed: Adapter, o: Setting, works: seq<Adapter>, a: Adapter, cfg: Config)
    requires Gating(s, seed, o, works, Received) && Uploaded(s, |works|, a) && GoodSeed(seed) && Fits(a, seed)
    ensures var n := Apply(s, GateRead(TaskName(|works|), true), cfg);
      n.w == s.w && Gating(n, seed, o, works, Decided(true)) && Uploaded(n, |works|, a)
  {
    hide TaskName, GateVerdict, Expected;
    VerdictOfTurn(s, seed, o, works, a);
  }

  lemma WriteTurn(s: Sys, seed: Adapter, o: Setting, works: seq<Adapter>, a: Adapter, cfg: Config)
    requires Gating(s, seed, o, works, Decided(true)) && Uploaded(s, |works|, a)
    ensures Prepared(Apply(s, GateWrite(TaskName(|works|)), cfg), seed, o, works + [a])
  {
    hide TaskName, Worked;
    var n := Apply(s, GateWrite(TaskName(|works|)), cfg);
    NameIsFresh(|works|);
    WorkedStays(s, n, o, works);
    LastWorked(s, seed, o, works, a, cfg);
    OneMoreWorked(n, o, works, a);
  }

  lemma LastWorked(s: Sys, seed: Adapter, o: Setting, works: seq<Adapter>, a: Adapter, cfg: Config)
    requires Gating(s, seed, o, works, Decided(true)) && Uploaded(s, |works|, a)
    ensures Worked(Apply(s, GateWrite(TaskName(|works|)), cfg), o, |works|, a)
  {
    hide TaskName, AllWorked;
  }

  lemma OneMoreWorked(s: Sys, o: Setting, works: seq<Adapter>, a: Adapter)
    requires AllWorked(s, o, works) && Worked(s, o, |works|, a)
    ensures AllWorked(s, o, works + [a])
  {
    hide Worked;
    forall k: nat | k < |works + [a]| ensures Worked(s, o, k, (works + [a])[k]) {
      if k < |works| { assert Worked(s, o, k, works[k]); }
    }
  }

  // ---- the runs -------------------------------------------------------------------------------

  lemma AfterOne(actions: seq<Action>, a: Action, cfg: Config)
    ensures After(actions + [a], cfg) == Apply(After(actions, cfg), a, cfg)
  {
    hide Apply;
    assert (actions + [a])[..|actions|] == actions;
  }

  lemma TidyOne(actions: seq<Action>, a: Action, cfg: Config)
    requires TidyRun(actions, cfg) && TidyAction(After(actions, cfg), a)
    ensures TidyRun(actions + [a], cfg)
  {
    hide After, TidyAction;
    var all := actions + [a];
    forall i | 0 <= i < |all| ensures TidyAction(After(all[..i], cfg), all[i]) {
      if i < |actions| {
        assert all[..i] == actions[..i];
      } else {
        assert all[..i] == actions;
      }
    }
  }

  /** A tidy run may be continued by a tidy step. */
  ghost predicate Reaches(actions: seq<Action>, cfg: Config, s: Sys) {
    TidyRun(actions, cfg) && After(actions, cfg) == s
  }

  lemma ReachOne(actions: seq<Action>, cfg: Config, s: Sys, a: Action)
    requires Reaches(actions, cfg, s) && TidyAction(s, a)
    ensures Reaches(actions + [a], cfg, Apply(s, a, cfg))
  {
    hide After, TidyRun, TidyAction, Apply;
    AfterOne(actions, a, cfg);
    TidyOne(actions, a, cfg);
  }

  lemma StartState(seed: Adapter, o: Setting, cfg: Config)
    requires GoodSeed(seed)
    ensures var a := Apply(Empty(), PutSeed(RUN, seed), cfg);
      var b := Apply(a, AddRun(RUN, RowOf(o.beta)), cfg);
      Prepared(Apply(b, OpenFirst(RUN, Timing(1, 0, 1), 0), cfg), seed, o, [])
  {
    hide FreshBuckets, WellFormedAdapter, Finite;
  }

  lemma StartRun(seed: Adapter, o: Setting, cfg: Config) returns (actions: seq<Action>, s: Sys)
    requires GoodSeed(seed) && CapPositive(cfg)
    ensures Reaches(actions, cfg, s) && Prepared(s, seed, o, [])
  {
    hide Apply, Prepared;
    StartState(seed, o, cfg);
    var put, add, open := PutSeed(RUN, seed), AddRun(RUN, RowOf(o.beta)), OpenFirst(RUN, Timing(1, 0, 1), 0);
    var a := Apply(Empty(), put, cfg);
    var b := Apply(a, add, cfg);
    s := Apply(b, open, cfg);
    assert Reaches([], cfg, Empty());
    ReachOne([], cfg, Empty(), put);
    ReachOne([] + [put], cfg, a, add);
    ReachOne([] + [put] + [add], cfg, b, open);
    actions := [] + [put] + [add] + [open];
  }

  /** Up to the moment a worker has submitted and nothing has been gated. */
  lemma SubmitOne(actions: seq<Action>, s: Sys, seed: Adapter, o: Setting, works: seq<Adapter>, a: Adapter, cfg: Config)
    returns (more: seq<Action>, n: Sys)
    requires Reaches(actions, cfg, s) && Prepared(s, seed, o, works)
    ensures Reaches(more, cfg, n) && Gating(n, seed, o, works, Received) && Uploaded(n, |works|, a)
  {
    hide Apply, Prepared, Leasing, Gating, Reaches, TaskName;
    var claim, upload, submit := ClaimWork(ClaimOf(|works|)), Upload(TaskName(|works|), SaveAdapter(a)),
      Submit(TaskName(|works|), WORKER, 1, o.metrics, |works|);
    ClaimTurn(s, seed, o, works, cfg);
    var one := Apply(s, claim, cfg);
    UploadTurn(one, seed, o, works, a, cfg);
    var two := Apply(one, upload, cfg);
    SubmitTurn(two, seed, o, works, a, cfg);
    n := Apply(two, submit, cfg);
    ReachOne(actions, cfg, s, claim);
    NotSubmitted(one, seed, o, works);
    ReachOne(actions + [claim], cfg, one, upload);
    ReachOne(actions + [claim] + [upload], cfg, two, submit);
    more := actions + [claim] + [upload] + [submit];
  }

  lemma NotSubmitted(s: Sys, seed: Adapter, o: Setting, works: seq<Adapter>)
    requires Leasing(s, seed, o, works)
    ensures TaskName(|works|) !in s.w.db.subs
  {
    NameIsFresh(|works|);
  }

  lemma AcceptOne(actions: seq<Action>, s: Sys, seed: Adapter, o: Setting, works: seq<Adapter>, a: Adapter, cfg: Config)
    returns (more: seq<Action>, n: Sys)
    requires Reaches(actions, cfg, s) && Prepared(s, seed, o, works) && GoodSeed(seed) && Fits(a, seed)
    ensures Reaches(more, cfg, n) && Prepared(n, seed, o, works + [a])
  {
    hide Apply, Prepared, Gating, Reaches, TaskName;
    var submitted, mid := SubmitOne(actions, s, seed, o, works, a, cfg);
    var read, write := GateRead(TaskName(|works|), true), GateWrite(TaskName(|works|));
    GateTurn(mid, seed, o, works, a, cfg);
    var decided := Apply(mid, read, cfg);
    WriteTurn(decided, seed, o, works, a, cfg);
    n := Apply(decided, write, cfg);
    ReachOne(submitted, cfg, mid, read);
    ReachOne(submitted + [read], cfg, decided, write);
    more := submitted + [read] + [write];
  }

  /** Any cohort of adapters that fit the seed can stand accepted in an open round. */
  lemma {:induction false} CohortIsReachable(seed: Adapter, o: Setting, works: seq<Adapter>, cfg: Config)
    returns (actions: seq<Action>, s: Sys)
    requires GoodSeed(seed) && CapPositive(cfg) && forall i :: 0 <= i < |works| ==> Fits(works[i], seed)
    ensures Reaches(actions, cfg, s) && Prepared(s, seed, o, works)
  {
    hide Prepared, Reaches, Fits;
    if works == [] {
      actions, s := StartRun(seed, o, cfg);
    } else {
      var rest := Upto(works);
      actions, s := CohortIsReachable(seed, o, rest, cfg);
      actions, s := AcceptOne(actions, s, seed, o, rest, Last(works), cfg);
      assert rest + [Last(works)] == works;
    }
  }

  /** An artifact overwritten after its gate. */
  lemma OverwriteOne(s: Sys, seed: Adapter, o: Setting, works: seq<Adapter>, i: nat, a: Adapter, cfg: Config)
    requires Prepared(s, seed, o, works) && i < |works|
    ensures Prepared(Apply(s, Upload(TaskName(i), SaveAdapter(a)), cfg), seed, o, works[i := a])
  {
    hide TaskName;
    var n, after := Apply(s, Upload(TaskName(i), SaveAdapter(a)), cfg), works[i := a];
    assert Worked(s, o, i, works[i]);
    assert ArtifactOf(s.w.db, TaskName(i)) == ArtifactKey(i);
    forall k: nat | k < |after| ensures Worked(n, o, k, after[k]) {
      assert Worked(s, o, k, works[k]);
      NamesDiffer(i, k);
    }
  }

  // ---- the cohort as a close sees it ---------------------------------------------------------------

  ghost function OrderOf(k: nat): seq<string> {
    seq(k, i requires 0 <= i < k => TaskName(i))
  }

  ghost function CohortOf(works: seq<Adapter>, metrics: Metrics): seq<Kept> {
    seq(|works|, i requires 0 <= i < |works| => Kept(TaskName(i), Contribution(works[i], 1), metrics))
  }

  lemma PreparedOrder(s: Sys, seed: Adapter, o: Setting, works: seq<Adapter>)
    requires Prepared(s, seed, o, works)
    ensures IsQueryOrder(s.w.db, FirstRound(), OrderOf(|works|))
  {
    hide TaskName;
    var order := OrderOf(|works|);
    NamesAre(|works|);
    forall i: nat | i < |works| ensures Worked(s, o, i, works[i]) && order[i] == TaskName(i) {}
    forall i: nat, j: nat | i < j < |works| ensures order[i] != order[j] {
      NamesDiffer(i, j);
    }
    forall t | t in s.w.db.subs ensures t in order {
      var k: nat :| k < |works| && t == TaskName(k);
      assert order[k] == t;
    }
    forall t | t in order
      ensures t in s.w.db.subs && t in s.w.db.tasks && s.w.db.tasks[t].round == FirstRound() && s.w.db.subs[t].accepted == Some(true)
    {
      var k: nat :| k < |works| && order[k] == t;
    }
  }

  lemma {:induction false} PreparedArrives(s: Sys, o: Setting, works: seq<Adapter>, d: nat)
    requires AllWorked(s, o, works) && d <= |works| && (forall i :: 0 <= i < |works| ==> WellFormedAdapter(works[i]))
    ensures forall t :: t in OrderOf(d) ==> t in s.w.db.subs
    ensures Arrived(s.w.store, Entries(s.w.db, OrderOf(d))) == CohortOf(works[..d], o.metrics)
  {
    hide TaskName, WellFormedAdapter;
    forall t | t in OrderOf(d) ensures t in s.w.db.subs {
      var i: nat :| i < d && OrderOf(d)[i] == t;
      assert Worked(s, o, i, works[i]);
    }
    if d > 0 {
      PreparedArrives(s, o, works, d - 1);
      var todo := Entries(s.w.db, OrderOf(d));
      assert Upto(todo) == Entries(s.w.db, OrderOf(d - 1));
      assert Worked(s, o, d - 1, works[d - 1]);
      LoadUndoesSave(works[d - 1]);
      var last := Kept(TaskName(d - 1), Contribution(works[d - 1], 1), o.metrics);
      assert CohortOf(works[..d], o.metrics) == CohortOf(works[..d - 1], o.metrics) + [last];
    }
  }

  lemma PreparedCohort(s: Sys, seed: Adapter, o: Setting, works: seq<Adapter>)
    requires Prepared(s, seed, o, works) && (forall i :: 0 <= i < |works| ==> WellFormedAdapter(works[i]))
    ensures forall t :: t in OrderOf(|works|) ==> t in s.w.db.subs
    ensures Cohort(s.w, OrderOf(|works|)) == CohortOf(works, o.metrics)
    ensures RoundIs(s.w.db, FirstRound(), Open) && RunActive(s.w.db, RUN) && CurrentId(s.w.db, RUN) == FirstRound()
  {
    hide Worked;
    PreparedArrives(s, o, works, |works|);
    assert works[..|works|] == works;
  }
}
