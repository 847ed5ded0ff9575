/** A close over what an earlier attempt left behind: some verdicts already turned, some objects
    already put. When it ends exactly where an undisturbed close would have. */
module Leftovers {
  import opened Wrappers
  import opened Tensors
  import opened OuterStep
  import opened Contributions
  import opened ObjectKeys
  import opened Tables
  import opened Rounds
  import opened Closer
  import opened System
  import opened CloseRun
  import opened RefSafety

  // ---- part of a cohort ------------------------------------------------------------------

  /** The entries whose verdict has not been turned. */
  function Unturned(todo: seq<Entry>, turned: set<string>): seq<Entry> {
    if todo == [] then []
    else Unturned(Upto(todo), turned) + (if Last(todo).task in turned then [] else [Last(todo)])
  }

  function StillOf(kept: seq<Kept>, turned: set<string>): seq<Kept> {
    if kept == [] then []
    else StillOf(Upto(kept), turned) + (if Last(kept).task in turned then [] else [Last(kept)])
  }

  /** The submissions of a query that are still accepted. */
  function Still(db: Db, order: seq<string>): seq<string> {
    if order == [] then []
    else
      var t := Last(order);
      Still(db, Upto(order)) + (if t in db.subs && db.subs[t].accepted == Some(true) then [t] else [])
  }

  function Again(db: Db, c: Choice): Choice {
    c.(order := Still(db, c.order))
  }

  function Tasks(kept: seq<Kept>): set<string> {
    set k | k in kept :: k.task
  }

  ghost predicate DistinctTasks(kept: seq<Kept>) {
    forall i, j :: 0 <= i < j < |kept| ==> kept[i].task != kept[j].task
  }

  lemma {:induction false} StillMembers(kept: seq<Kept>, turned: set<string>)
    ensures forall k :: k in StillOf(kept, turned) <==> k in kept && k.task !in turned
  {
    if kept != [] {
      StillMembers(Upto(kept), turned);
      assert kept == Upto(kept) + [Last(kept)];
    }
  }

  lemma StillTasks(kept: seq<Kept>, turned: set<string>)
    ensures Tasks(StillOf(kept, turned)) == Tasks(kept) - turned
  {
    StillMembers(kept, turned);
    hide StillOf;
  }

  lemma {:induction false} StillSame(kept: seq<Kept>, a: set<string>, b: set<string>)
    requires forall k :: k in kept ==> (k.task in a <==> k.task in b)
    ensures StillOf(kept, a) == StillOf(kept, b)
  {
    if kept != [] {
      assert forall k :: k in Upto(kept) ==> k in kept;
      assert Last(kept) in kept;
      StillSame(Upto(kept), a, b);
    }
  }

  lemma {:induction false} StillTwice(kept: seq<Kept>, a: set<string>, b: set<string>)
    ensures StillOf(StillOf(kept, a), b) == StillOf(kept, a + b)
  {
    if kept != [] {
      StillTwice(Upto(kept), a, b);
      var rest := StillOf(Upto(kept), a);
      if Last(kept).task !in a {
        assert Upto(rest + [Last(kept)]) == rest && Last(rest + [Last(kept)]) == Last(kept);
      } else {
        assert rest + [] == rest;
      }
    }
  }

  lemma {:induction false} ArrivedUnturned(store: Store, todo: seq<Entry>, turned: set<string>)
    ensures Arrived(store, Unturned(todo, turned)) == StillOf(Arrived(store, todo), turned)
  {
    hide Fetch;
    if todo != [] {
      ArrivedUnturned(store, Upto(todo), turned);
      var rest, all := Unturned(Upto(todo), turned), Arrived(store, Upto(todo));
      var e := Last(todo);
      if e.task !in turned {
        assert Upto(rest + [e]) == rest && Last(rest + [e]) == e;
      } else {
        assert rest + [] == rest;
      }
      if Fetch(store, e.artifact).Some? {
        var k := Kept(e.task, Contribution(Fetch(store, e.artifact).value, e.steps), e.metrics);
        assert Upto(all + [k]) == all && Last(all + [k]) == k;
      } else {
        assert all + [] == all;
      }
    }
  }

  lemma {:induction false} UnturnedMembers(todo: seq<Entry>, turned: set<string>)
    ensures forall e :: e in Unturned(todo, turned) <==> e in todo && e.task !in turned
  {
    if todo != [] {
      UnturnedMembers(Upto(todo), turned);
      assert todo == Upto(todo) + [Last(todo)];
    }
  }

  lemma GoneUnturned(store: Store, todo: seq<Entry>, turned: set<string>)
    ensures Gone(store, Unturned(todo, turned)) == Gone(store, todo) - turned
  {
    hide Fetch, Unturned;
    UnturnedMembers(todo, turned);
  }

  // ---- a cohort and its verdicts -----------------------------------------------------------

  lemma {:induction false} ArrivedTasks(store: Store, todo: seq<Entry>)
    ensures forall k :: k in Arrived(store, todo) <==>
      exists e :: e in todo && Fetch(store, e.artifact).Some?
        && k == Kept(e.task, Contribution(Fetch(store, e.artifact).value, e.steps), e.metrics)
  {
    hide Fetch;
    if todo != [] {
      ArrivedTasks(store, Upto(todo));
      assert todo == Upto(todo) + [Last(todo)];
      assert forall e :: e in todo <==> e in Upto(todo) || e == Last(todo);
    }
  }

  ghost predicate DistinctEntries(todo: seq<Entry>) {
    forall i, j :: 0 <= i < j < |todo| ==> todo[i].task != todo[j].task
  }

  lemma {:induction false} ArrivedDistinct(store: Store, todo: seq<Entry>)
    requires DistinctEntries(todo)
    ensures DistinctTasks(Arrived(store, todo))
  {
    hide Fetch;
    if todo != [] {
      ArrivedDistinct(store, Upto(todo));
      ArrivedTasks(store, Upto(todo));
      assert forall e :: e in Upto(todo) ==> e.task != Last(todo).task;
      var rest := Arrived(store, Upto(todo));
      forall k | k in rest ensures k.task != Last(todo).task {
        var e :| e in Upto(todo) && Fetch(store, e.artifact).Some?
          && k == Kept(e.task, Contribution(Fetch(store, e.artifact).value, e.steps), e.metrics);
      }
      assert forall i :: 0 <= i < |rest| ==> rest[i] in rest;
    }
  }

  /** A submission either loads or is gone. */
  lemma ArrivedOrGone(store: Store, todo: seq<Entry>)
    requires DistinctEntries(todo)
    ensures Tasks(Arrived(store, todo)) + Gone(store, todo) == set e | e in todo :: e.task
    ensures Tasks(Arrived(store, todo)) !! Gone(store, todo)
  {
    hide Fetch, Arrived;
    ArrivedTasks(store, todo);
    var some := Arrived(store, todo);
    forall e | e in todo && Fetch(store, e.artifact).Some? ensures e.task in Tasks(some) {
      var k := Kept(e.task, Contribution(Fetch(store, e.artifact).value, e.steps), e.metrics);
      assert k in some;
    }
    forall t | t in Tasks(some) ensures t !in Gone(store, todo) && exists e :: e in todo && e.task == t {
      var k :| k in some && k.task == t;
      var e :| e in todo && Fetch(store, e.artifact).Some?
        && k == Kept(e.task, Contribution(Fetch(store, e.artifact).value, e.steps), e.metrics);
      forall other | other in todo && other.task == t ensures other == e {
        var i :| 0 <= i < |todo| && todo[i] == e;
        var j :| 0 <= j < |todo| && todo[j] == other;
      }
    }
  }

  lemma {:induction false} PassedUpto(judged: seq<Judged>, kept: seq<Kept>, d: nat)
    requires d <= |judged| == |kept| && DistinctTasks(kept) && forall i :: 0 <= i < |kept| ==> judged[i].kept == kept[i]
    ensures Passed(judged[..d]) == StillOf(kept[..d], Failed(judged))
  {
    if d > 0 {
      PassedUpto(judged, kept, d - 1);
      assert Upto(judged[..d]) == judged[..d - 1] && Upto(kept[..d]) == kept[..d - 1];
      var j := judged[d - 1];
      assert j in judged;
      if j.kept.task in Failed(judged) {
        var k :| k in judged && !k.verdict.Accepted? && k.kept.task == j.kept.task;
        var i :| 0 <= i < |judged| && judged[i] == k;
        assert kept[i].task == kept[d - 1].task;
      }
    }
  }

  /** The tasks gate 4 rejects in a cohort. */
  ghost function Sentenced(kept: seq<Kept>, cfg: Config): set<string>
    requires Judgements(kept, cfg).Some?
  {
    Failed(Judgements(kept, cfg).value)
  }

  ghost function Survivors(kept: seq<Kept>, cfg: Config): seq<Kept>
    requires Judgements(kept, cfg).Some?
  {
    Passed(Judgements(kept, cfg).value)
  }

  lemma SurvivorsAreStill(kept: seq<Kept>, cfg: Config)
    requires Judgements(kept, cfg).Some? && DistinctTasks(kept)
    ensures Survivors(kept, cfg) == StillOf(kept, Sentenced(kept, cfg)) && Sentenced(kept, cfg) <= Tasks(kept)
  {
    hide Judgements;
    var judged := Judgements(kept, cfg).value;
    PassedUpto(judged, kept, |kept|);
    assert judged[..|kept|] == judged && kept[..|kept|] == kept;
    forall t | t in Sentenced(kept, cfg) ensures t in Tasks(kept) {
      var j :| j in judged && j.kept.task == t;
      var i :| 0 <= i < |judged| && judged[i] == j;
      assert kept[i] in kept;
    }
  }

  /** Gate 4 on what is left agrees with gate 4 on the whole cohort: whoever has lost a verdict was
      to lose it, and of the others the same ones are rejected. */
  ghost predicate GateAgrees(cohort: seq<Kept>, left: seq<Kept>, cfg: Config) {
    && Judgements(cohort, cfg).Some? && Judgements(left, cfg).Some?
    && (Tasks(cohort) - Tasks(left)) + Sentenced(left, cfg) == Sentenced(cohort, cfg)
  }

  lemma SameSurvivors(cohort: seq<Kept>, turned: set<string>, cfg: Config)
    requires DistinctTasks(cohort) && GateAgrees(cohort, StillOf(cohort, turned), cfg)
    ensures Survivors(StillOf(cohort, turned), cfg) == Survivors(cohort, cfg)
  {
    hide Judgements, StillOf, Sentenced, Survivors;
    var left := StillOf(cohort, turned);
    StillDistinct(cohort, turned);
    SurvivorsAreStill(cohort, cfg);
    SurvivorsAreStill(left, cfg);
    StillTwice(cohort, turned, Sentenced(left, cfg));
    StillTasks(cohort, turned);
    forall k | k in cohort ensures k.task in turned + Sentenced(left, cfg) <==> k.task in Sentenced(cohort, cfg) {
      assert k.task in Tasks(cohort);
    }
    StillSame(cohort, turned + Sentenced(left, cfg), Sentenced(cohort, cfg));
  }

  lemma {:induction false} StillDistinct(kept: seq<Kept>, turned: set<string>)
    requires DistinctTasks(kept)
    ensures DistinctTasks(StillOf(kept, turned))
  {
    if kept != [] {
      StillDistinct(Upto(kept), turned);
      StillMembers(Upto(kept), turned);
      assert forall k :: k in Upto(kept) ==> k.task != Last(kept).task;
    }
  }

  // ---- a world with leftovers ----------------------------------------------------------------

  /** Where the keys of a round's close come from. */
  ghost predicate InPlace(db: Db, id: RoundId) {
    && RoundIs(db, id, Open) && id.run in db.runs
    && db.rounds[id].base == BaseKey(id.run, id.idx)
    && (db.runs[id.run].momentum.Some? ==> db.runs[id.run].momentum == Some(MomentumKey(id.run)))
    && (forall t :: t in db.subs ==> db.subs[t].artifact.SubmissionKey?)
  }

  /** The world with an attempt's leftovers: these verdicts turned, and at most the round's result
      and the run's momentum put, the latter perhaps already named. */
  ghost predicate Leftover(w: World, id: RoundId, order: seq<string>, turned: set<string>, v: World)
    requires id.run in w.db.runs
  {
    && v.db == Reject(w.db, turned).(runs := v.db.runs) && (forall t :: t in turned ==> t in order)
    && (v.db.runs == w.db.runs || v.db.runs == NameMomentum(w.db, id.run).runs)
    && (forall k :: k != ResultKey(id) && k != MomentumKey(id.run) ==> SameAt(w.store, v.store, k))
    && (w.db.runs[id.run].beta == 0.0 ==> v.db.runs == w.db.runs && SameAt(w.store, v.store, MomentumKey(id.run)))
  }

  ghost predicate AllAccepted(db: Db, order: seq<string>) {
    forall t :: t in order ==> t in db.subs && db.subs[t].accepted == Some(true)
  }

  ghost predicate InOrder(db: Db, order: seq<string>) {
    && (forall i, j :: 0 <= i < j < |order| ==> order[i] != order[j])
    && (forall i, j :: 0 <= i < j < |order| && order[i] in db.subs && order[j] in db.subs
          ==> db.subs[order[i]].receivedAt <= db.subs[order[j]].receivedAt)
  }

  lemma {:induction false} StillMeans(db: Db, n: Db, order: seq<string>, turned: set<string>)
    requires AllAccepted(db, order) && n.subs == Reject(db, turned).subs
    ensures forall t :: t in Still(n, order) <==> t in order && t !in turned
  {
    if order != [] {
      StillMeans(db, n, Upto(order), turned);
      assert order == Upto(order) + [Last(order)];
      assert Last(order) in order;
    }
  }

  lemma OneMoreEntry(db: Db, order: seq<string>)
    requires order != [] && forall t :: t in order ==> t in db.subs
    ensures var all, t := Entries(db, order), Last(order);
      Upto(all) == Entries(db, Upto(order)) && Last(all) == Entry(t, db.subs[t].artifact, db.subs[t].steps, db.subs[t].metrics)
  {
    assert Last(order) in order;
  }

  lemma EntriesAppend(db: Db, order: seq<string>, t: string)
    requires t in db.subs && forall u :: u in order ==> u in db.subs
    ensures forall u :: u in order + [t] ==> u in db.subs
    ensures Entries(db, order + [t]) == Entries(db, order) + [Entry(t, db.subs[t].artifact, db.subs[t].steps, db.subs[t].metrics)]
  {
  }

  lemma LastOf<T>(xs: seq<T>)
    requires xs != []
    ensures |Upto(xs)| == |xs| - 1 && xs == Upto(xs) + [Last(xs)] && Last(xs) in xs && forall x :: x in Upto(xs) ==> x in xs
  {
  }

  lemma {:induction false} StillEntries(db: Db, n: Db, order: seq<string>, turned: set<string>)
    requires AllAccepted(db, order) && n.subs == Reject(db, turned).subs
    ensures forall t :: t in Still(n, order) ==> t in n.subs
    ensures Entries(n, Still(n, order)) == Unturned(Entries(db, order), turned)
    decreases |order|
  {
    hide Entries, Upto, Last;
    if order == [] {
      NoEntries(db);
      NoEntries(n);
    } else {
      var rest, t := Upto(order), Last(order);
      LastOf(order);
      StillEntries(db, n, rest, turned);
      StillMeans(db, n, order, turned);
      StillMeans(db, n, rest, turned);
      OneMoreEntry(db, order);
      var some := Still(n, rest);
      if t in turned {
        assert some + [] == some;
      } else {
        EntriesAppend(n, some, t);
      }
    }
  }

  lemma NoEntries(db: Db)
    ensures Entries(db, []) == []
  {
  }

  lemma {:induction false} StillInOrder(db: Db, n: Db, order: seq<string>, turned: set<string>)
    requires AllAccepted(db, order) && n.subs == Reject(db, turned).subs && InOrder(db, order)
    ensures InOrder(n, Still(n, order))
  {
    if order != [] {
      StillInOrder(db, n, Upto(order), turned);
      StillMeans(db, n, Upto(order), turned);
      assert forall t :: t in Upto(order) ==> t != Last(order) && db.subs[t].receivedAt <= db.subs[Last(order)].receivedAt;
    }
  }

  /** What is left of the query is what the query would now return. */
  lemma LeftoverQuery(w: World, id: RoundId, order: seq<string>, turned: set<string>, v: World)
    requires id.run in w.db.runs && IsQueryOrder(w.db, id, order) && Leftover(w, id, order, turned, v)
    ensures AllAccepted(w.db, order) && IsQueryOrder(v.db, id, Still(v.db, order))
    ensures Entries(v.db, Still(v.db, order)) == Unturned(Entries(w.db, order), turned)
  {
    hide Still, Entries, Unturned;
    StillMeans(w.db, v.db, order, turned);
    StillEntries(w.db, v.db, order, turned);
    StillInOrder(w.db, v.db, order, turned);
  }

  lemma {:induction false} ArrivedSame(store: Store, n: Store, todo: seq<Entry>)
    requires forall i :: 0 <= i < |todo| ==> SameAt(store, n, todo[i].artifact)
    ensures Arrived(n, todo) == Arrived(store, todo) && Gone(n, todo) == Gone(store, todo)
  {
    forall e | e in todo ensures Fetch(n, e.artifact) == Fetch(store, e.artifact) {
      var i :| 0 <= i < |todo| && todo[i] == e;
      assert SameAt(store, n, todo[i].artifact);
    }
    ArrivedSameLoads(store, n, todo);
  }

  lemma {:induction false} ArrivedSameLoads(store: Store, n: Store, todo: seq<Entry>)
    requires forall e :: e in todo ==> Fetch(n, e.artifact) == Fetch(store, e.artifact)
    ensures Arrived(n, todo) == Arrived(store, todo)
  {
    hide Fetch;
    if todo != [] {
      assert Last(todo) in todo && forall e :: e in Upto(todo) ==> e in todo;
      ArrivedSameLoads(store, n, Upto(todo));
    }
  }

  /** A close over leftovers fetches what is left of the cohort: the retried gate judges exactly the
      work whose verdict the attempt had not turned. */
  lemma LeftoverCohort(w: World, id: RoundId, order: seq<string>, turned: set<string>, v: World)
    requires InPlace(w.db, id) && IsQueryOrder(w.db, id, order) && Leftover(w, id, order, turned, v)
    ensures AllAccepted(w.db, order) && IsQueryOrder(v.db, id, Still(v.db, order)) && AllAccepted(v.db, Still(v.db, order))
    ensures Cohort(v, Still(v.db, order)) == StillOf(Cohort(w, order), turned)
    ensures Gone(v.store, Entries(v.db, Still(v.db, order))) == Gone(w.store, Entries(w.db, order)) - turned
    ensures Fetch(v.store, v.db.rounds[id].base) == Fetch(w.store, w.db.rounds[id].base)
  {
    hide StillOf, Arrived, Gone, Still, Unturned;
    LeftoverQuery(w, id, order, turned, v);
    var all, left := Entries(w.db, order), Entries(v.db, Still(v.db, order));
    UnturnedMembers(all, turned);
    forall i | 0 <= i < |left| ensures SameAt(w.store, v.store, left[i].artifact) {
      assert left[i] in left;
      assert left[i] in all;
      assert left[i].artifact.SubmissionKey?;
    }
    ArrivedSame(w.store, v.store, left);
    ArrivedUnturned(w.store, all, turned);
    GoneUnturned(w.store, all, turned);
    assert SameAt(w.store, v.store, w.db.rounds[id].base);
  }

  // ---- the same end ------------------------------------------------------------------------------

  lemma NamingTwice(db: Db, run: string, n: Db)
    requires n.runs == db.runs || n.runs == NameMomentum(db, run).runs
    ensures NameMomentum(n, run).runs == NameMomentum(db, run).runs
  {
  }

  /** The advance does not depend on whether an earlier attempt had named the momentum. */
  lemma SameMove(db: Db, runs: map<string, Run>, job: Job, again: Job, o: Outcome, now: int)
    requires runs == db.runs || (o.momentum.Some? && runs == NameMomentum(db, job.id.run).runs)
    requires again.id == job.id && again.round == job.round && again.run.target == job.run.target && again.rates == job.rates
    ensures MovedOn(db.(runs := runs), again, o, now) == MovedOn(db, job, o, now)
  {
    hide CommitClose, OpenRound, FinishRun, ReleaseClose, Foldable;
    NamingTwice(db, job.id.run, db.(runs := runs));
  }

  lemma SameObjects(store: Store, n: Store, job: Job, again: Job, o: Outcome)
    requires again.id == job.id
    requires forall k :: k != ResultKey(job.id) && (k != MomentumKey(job.id.run) || o.momentum.None?) ==> SameAt(store, n, k)
    ensures WithOutcome(n, again, o) == WithOutcome(store, job, o)
  {
    var a, b := WithOutcome(n, again, o), WithOutcome(store, job, o);
    forall k ensures (k in a <==> k in b) && (k in a ==> a[k] == b[k]) {
      assert k != ResultKey(job.id) && (k != MomentumKey(job.id.run) || o.momentum.None?) ==> SameAt(store, n, k);
    }
  }

  lemma ObjectsTell(store: Store, n: Store, job: Job, again: Job, o: Outcome, other: Outcome)
    requires again.id == job.id && WithOutcome(n, again, other) == WithOutcome(store, job, o)
    requires o.momentum.Some? <==> other.momentum.Some?
    ensures other == o
  {
    var a := WithOutcome(store, job, o);
    assert a[ResultKey(job.id)] == SaveAdapter(o.adapter) && a[ResultKey(job.id)] == SaveAdapter(other.adapter);
    if o.momentum.Some? {
      assert a[MomentumKey(job.id.run)] == SaveAdapter(o.momentum.value) && a[MomentumKey(job.id.run)] == SaveAdapter(other.momentum.value);
    }
  }

  lemma MomentumFollowsBeta(store: Store, job: Job, base: Adapter, kept: seq<Kept>, io: bool, cfg: Config)
    ensures var r := CombineKept(store, job, base, kept, io, cfg); r.Some? ==> (r.value.momentum.Some? <==> job.run.beta != 0.0)
  {
    hide TensorStep, SharesOf, StoredMomentum, Adapters;
  }

  lemma MovedOnCloses(db: Db, job: Job, o: Outcome, now: int)
    requires job.id in db.rounds
    ensures RoundIs(MovedOn(db, job, o, now), job.id, Closed)
  {
    hide EndedWith, TimingOf;
  }

  lemma CommitKeepsSubs(db: Db, id: RoundId, result: Option<Key>)
    ensures CommitClose(db, id, result).subs == db.subs
  {
  }

  lemma AdvanceKeepsSubs(db: Db, id: RoundId, base: Key, timing: Timing, now: int)
    ensures OpenRound(db, id, base, timing, now).Ok? ==> OpenRound(db, id, base, timing, now).value.subs == db.subs
    ensures FinishRun(db, id.run).subs == db.subs && ReleaseClose(db, id).subs == db.subs && NameMomentum(db, id.run).subs == db.subs
  {
  }

  lemma MovedOnKeepsSubs(db: Db, job: Job, o: Outcome, now: int)
    ensures MovedOn(db, job, o, now).subs == db.subs
  {
    hide CommitClose, OpenRound, FinishRun, ReleaseClose, NameMomentum, TimingOf, Foldable;
    var named := if o.momentum.Some? then NameMomentum(db, job.id.run) else db;
    var closed := CommitClose(named, job.id, Some(ResultKey(job.id)));
    AdvanceKeepsSubs(db, job.id, ResultKey(job.id), TimingOf(job.round), now);
    CommitKeepsSubs(named, job.id, Some(ResultKey(job.id)));
    AdvanceKeepsSubs(closed, job.id, ResultKey(job.id), TimingOf(job.round), now);
    AdvanceKeepsSubs(closed, RoundId(job.id.run, job.id.idx + 1), ResultKey(job.id), TimingOf(job.round), now);
  }

  lemma SettleKeepsSubs(w: World, job: Job, base: Adapter, kept: seq<Kept>, now: int, cfg: Config)
    ensures Settle(w, job, base, kept, now, cfg).db.subs == w.db.subs
  {
    hide CombineKept, CommitClose, ReleaseClose, MovedOn, WithOutcome;
    CommitKeepsSubs(w.db, job.id, None);
    AdvanceKeepsSubs(w.db, job.id, ResultKey(job.id), TimingOf(job.round), now);
    if kept != [] && CombineKept(w.store, job, base, kept, true, cfg).Some? {
      MovedOnKeepsSubs(w.db, WithRates(job, kept), CombineKept(w.store, job, base, kept, true, cfg).value, now);
    }
  }

  lemma SettleCloses(w: World, job: Job, base: Adapter, kept: seq<Kept>, now: int, cfg: Config)
    requires RoundIs(w.db, job.id, Closing)
    ensures RoundIs(Settle(w, job, base, kept, now, cfg).db, job.id, Closed)
       <==> kept == [] || CombineKept(w.store, job, base, kept, true, cfg).Some?
  {
    hide CombineKept, MovedOn, WithOutcome;
    if kept != [] && CombineKept(w.store, job, base, kept, true, cfg).Some? {
      MovedOnCloses(w.db, WithRates(job, kept), CombineKept(w.store, job, base, kept, true, cfg).value, now);
    }
  }

  /** What a close over leftovers must publish for the worlds to agree. */
  ghost predicate SameEnd(w: World, id: RoundId, v: World, base: Adapter, kept: seq<Kept>, cfg: Config)
    requires RoundIs(w.db, id, Open) && id.run in w.db.runs && RoundIs(v.db, id, Open) && id.run in v.db.runs
  {
    if kept == [] then v.db.runs == w.db.runs && v.store == w.store
    else CombineKept(v.store, JobOf(v.db, id), base, kept, true, cfg) == CombineKept(w.store, JobOf(w.db, id), base, kept, true, cfg)
  }

  /** Two jobs of one close, the second perhaps after the momentum was named. */
  ghost predicate SameJob(job: Job, again: Job) {
    again == job.(run := job.run.(momentum := again.run.momentum))
  }

  lemma JobsAgree(w: World, id: RoundId, order: seq<string>, turned: set<string>, v: World)
    requires InPlace(w.db, id) && Leftover(w, id, order, turned, v)
    ensures RoundIs(v.db, id, Open) && id.run in v.db.runs && SameJob(JobOf(w.db, id), JobOf(v.db, id))
  {
  }

  lemma SettleAgrees(
    w: World, id: RoundId, order: seq<string>, turned: set<string>, v: World, db: Db, base: Adapter, kept: seq<Kept>, now: int, cfg: Config)
    requires InPlace(w.db, id) && Leftover(w, id, order, turned, v) && db.runs == w.db.runs && RoundIs(db, id, Closing)
    requires RoundIs(v.db, id, Open) && id.run in v.db.runs && SameJob(JobOf(w.db, id), JobOf(v.db, id))
    requires RoundIs(Settle(World(db, w.store), JobOf(w.db, id), base, kept, now, cfg).db, id, Closed)
    ensures Settle(World(db.(runs := v.db.runs), v.store), JobOf(v.db, id), base, kept, now, cfg)
         == Settle(World(db, w.store), JobOf(w.db, id), base, kept, now, cfg)
       <==> SameEnd(w, id, v, base, kept, cfg)
  {
    hide CombineKept, MovedOn, WithOutcome, CommitClose, ReleaseClose, Reject, JobOf, NameMomentum, SameAt;
    var job, again := JobOf(w.db, id), JobOf(v.db, id);
    var first, second := WithRates(job, kept), WithRates(again, kept);
    JobIds(w.db, id);
    SettleCloses(World(db, w.store), job, base, kept, now, cfg);
    SettleCloses(World(db.(runs := v.db.runs), v.store), again, base, kept, now, cfg);
    if kept == [] {
      EmptyCommitTells(db, v.db.runs, id);
    } else {
      var o := CombineKept(w.store, job, base, kept, true, cfg).value;
      MomentumFollowsBeta(w.store, job, base, kept, true, cfg);
      MomentumFollowsBeta(v.store, again, base, kept, true, cfg);
      if CombineKept(v.store, again, base, kept, true, cfg) == Some(o) {
        LeftoverRuns(w, id, order, turned, v, db);
        SameMove(db, v.db.runs, first, second, o, now);
        SameObjects(w.store, v.store, first, second, o);
      } else if CombineKept(v.store, again, base, kept, true, cfg).Some? {
        var other := CombineKept(v.store, again, base, kept, true, cfg).value;
        if WithOutcome(v.store, second, other) == WithOutcome(w.store, first, o) {
          ObjectsTell(w.store, v.store, first, second, o, other);
        }
      }
    }
  }

  lemma JobIds(db: Db, id: RoundId)
    requires RoundIs(db, id, Open) && id.run in db.runs
    ensures JobOf(db, id).id == id && JobOf(db, id).run == db.runs[id.run]
  {
  }

  lemma LeftoverRuns(w: World, id: RoundId, order: seq<string>, turned: set<string>, v: World, db: Db)
    requires id.run in w.db.runs && Leftover(w, id, order, turned, v) && db.runs == w.db.runs
    ensures v.db.runs == db.runs || (w.db.runs[id.run].beta != 0.0 && v.db.runs == NameMomentum(db, id.run).runs)
  {
  }

  lemma EmptyCommitTells(db: Db, runs: map<string, Run>, id: RoundId)
    ensures CommitClose(db.(runs := runs), id, None) == CommitClose(db, id, None) <==> runs == db.runs
  {
    assert CommitClose(db.(runs := runs), id, None) == CommitClose(db, id, None).(runs := runs);
    assert CommitClose(db, id, None).runs == db.runs;
  }

  // ---- exactly when a close over leftovers ends where it should -----------------------------------

  /** The tables of a close that has rejected these submissions and not yet committed. */
  function Rejecting(w: World, id: RoundId, ts: set<string>): Db
    requires RoundIs(w.db, id, Open)
  {
    Reject(Claiming(w, id).db, ts)
  }

  lemma LeftoverFetched(w: World, id: RoundId, order: seq<string>, turned: set<string>, v: World)
    requires InPlace(w.db, id) && IsQueryOrder(w.db, id, order) && Leftover(w, id, order, turned, v)
    ensures RoundIs(v.db, id, Open) && forall t :: t in Still(v.db, order) ==> t in v.db.subs
    ensures var gone := Gone(w.store, Entries(w.db, order));
      Fetched(v, id, Still(v.db, order)) == World(Rejecting(w, id, turned + gone).(runs := v.db.runs), v.store)
  {
    hide IsQueryOrder, Still, Gone, Entries, SameAt;
    LeftoverCohort(w, id, order, turned, v);
    var gone := Gone(w.store, Entries(w.db, order));
    RejectMore(Claiming(w, id).db, turned, gone - turned);
    assert turned + (gone - turned) == turned + gone;
    assert Claiming(v, id).db == Reject(Claiming(w, id).db, turned).(runs := v.db.runs);
  }

  lemma RejectedTogether(
    w: World, id: RoundId, base: Adapter, kept: seq<Kept>, ts: set<string>, store: Store, job: Job, runs: map<string, Run>,
    now: int, cfg: Config)
    requires RoundIs(w.db, id, Open) && Judgements(kept, cfg).Some?
    ensures JudgeAndSettle(World(Rejecting(w, id, ts).(runs := runs), store), job, base, kept, now, cfg)
         == Settle(World(Rejecting(w, id, ts + Sentenced(kept, cfg)).(runs := runs), store), job, base, Survivors(kept, cfg), now, cfg)
  {
    hide Judgements, Settle;
    RejectMore(Claiming(w, id).db, ts, Sentenced(kept, cfg));
    var db := Rejecting(w, id, ts);
    assert Reject(db.(runs := runs), Sentenced(kept, cfg)) == Reject(db, Sentenced(kept, cfg)).(runs := runs);
  }

  /** The two closes, both in closed form. */
  lemma BothCloses(w: World, id: RoundId, c: Choice, cfg: Config, turned: set<string>, v: World)
    requires InPlace(w.db, id) && IsQueryOrder(w.db, id, c.order) && c.io && Leftover(w, id, c.order, turned, v)
    requires Fetch(w.store, w.db.rounds[id].base).Some?
    ensures RoundIs(v.db, id, Open) && id.run in v.db.runs && AllAccepted(w.db, c.order) && AllAccepted(v.db, Still(v.db, c.order))
    ensures var base, gone := Fetch(w.store, w.db.rounds[id].base).value, Gone(w.store, Entries(w.db, c.order));
      && CloseAll(w, id, c, cfg)
         == JudgeAndSettle(World(Rejecting(w, id, gone).(runs := w.db.runs), w.store), JobOf(w.db, id), base, Cohort(w, c.order), c.now, cfg)
      && CloseAll(v, id, Again(v.db, c), cfg)
         == JudgeAndSettle(World(Rejecting(w, id, turned + gone).(runs := v.db.runs), v.store), JobOf(v.db, id), base,
                           StillOf(Cohort(w, c.order), turned), c.now, cfg)
  {
    hide IsQueryOrder, JudgeAndSettle, CloseAll, Still, Gone, Entries, Cohort, SameAt, Fetch, JobOf, StillOf, Reject;
    LeftoverCohort(w, id, c.order, turned, v);
    LeftoverFetched(w, id, c.order, turned, v);
    JobsAgree(w, id, c.order, turned, v);
    CloseAllIs(w, id, c, cfg);
    CloseAllIs(v, id, Again(v.db, c), cfg);
    var gone := Gone(w.store, Entries(w.db, c.order));
    assert Rejecting(w, id, gone).(runs := w.db.runs) == Rejecting(w, id, gone) by { RejectKeepsRuns(Claiming(w, id).db, gone); }
  }

  lemma RejectKeepsRuns(db: Db, ts: set<string>)
    ensures Reject(db, ts).runs == db.runs && Reject(db, ts).rounds == db.rounds
  {
  }

  lemma CohortTasks(w: World, id: RoundId, order: seq<string>)
    requires IsQueryOrder(w.db, id, order)
    ensures AllAccepted(w.db, order) && DistinctTasks(Cohort(w, order))
    ensures var gone := Gone(w.store, Entries(w.db, order));
      Tasks(Cohort(w, order)) !! gone && forall t :: t in order <==> t in Tasks(Cohort(w, order)) || t in gone
  {
    hide Arrived, Gone;
    var todo := Entries(w.db, order);
    ArrivedDistinct(w.store, todo);
    ArrivedOrGone(w.store, todo);
    forall t | t in order ensures exists e :: e in todo && e.task == t {
      var i :| 0 <= i < |order| && order[i] == t;
      assert todo[i] in todo;
    }
    forall e | e in todo ensures e.task in order {
      var i :| 0 <= i < |todo| && todo[i] == e;
    }
  }

  /** The verdicts two closes of one round end with tell which submissions each rejected. */
  lemma SubsTell(w: World, id: RoundId, ts: set<string>, us: set<string>, t: string)
    requires RoundIs(w.db, id, Open) && t in w.db.subs && w.db.subs[t].accepted == Some(true)
    requires Rejecting(w, id, ts).subs == Rejecting(w, id, us).subs
    ensures t in ts <==> t in us
  {
    assert Rejecting(w, id, ts).subs[t] == Rejecting(w, id, us).subs[t];
  }

  lemma GateTells(
    w: World, id: RoundId, c: Choice, cfg: Config, turned: set<string>, left: seq<Kept>)
    requires RoundIs(w.db, id, Open) && IsQueryOrder(w.db, id, c.order) && AllAccepted(w.db, c.order)
    requires forall t :: t in turned ==> t in c.order
    requires left == StillOf(Cohort(w, c.order), turned)
    requires Judgements(Cohort(w, c.order), cfg).Some? && Judgements(left, cfg).Some?
    requires var gone := Gone(w.store, Entries(w.db, c.order));
      Rejecting(w, id, turned + gone + Sentenced(left, cfg)).subs == Rejecting(w, id, gone + Sentenced(Cohort(w, c.order), cfg)).subs
    ensures GateAgrees(Cohort(w, c.order), left, cfg)
  {
    hide Judgements, Gone, Entries, Cohort, StillOf, Sentenced, Reject, IsQueryOrder;
    var cohort, gone := Cohort(w, c.order), Gone(w.store, Entries(w.db, c.order));
    CohortTasks(w, id, c.order);
    StillTasks(cohort, turned);
    StillDistinct(cohort, turned);
    SurvivorsAreStill(cohort, cfg);
    SurvivorsAreStill(left, cfg);
    forall t | t in Tasks(cohort) ensures t in turned || t in Sentenced(left, cfg) <==> t in Sentenced(cohort, cfg) {
      assert t in c.order;
      SubsTell(w, id, turned + gone + Sentenced(left, cfg), gone + Sentenced(cohort, cfg), t);
    }
  }

  lemma SameRejects(w: World, id: RoundId, order: seq<string>, turned: set<string>, cfg: Config)
    requires RoundIs(w.db, id, Open) && IsQueryOrder(w.db, id, order) && AllAccepted(w.db, order)
    requires forall t :: t in turned ==> t in order
    requires GateAgrees(Cohort(w, order), StillOf(Cohort(w, order), turned), cfg)
    ensures var gone := Gone(w.store, Entries(w.db, order));
      turned + gone + Sentenced(StillOf(Cohort(w, order), turned), cfg) == gone + Sentenced(Cohort(w, order), cfg)
  {
    hide Judgements, Gone, Entries, Cohort, StillOf, Sentenced, IsQueryOrder;
    CohortTasks(w, id, order);
    StillTasks(Cohort(w, order), turned);
  }

  /** A close over leftovers ends exactly where an undisturbed close would have, when that close
      goes through, if and only if gate 4 agrees on who is rejected and the combine publishes the
      same from the momentum it now finds. */
  lemma LeftoverExactlyWhen(w: World, id: RoundId, c: Choice, cfg: Config, turned: set<string>, v: World)
    requires InPlace(w.db, id) && IsQueryOrder(w.db, id, c.order) && c.io && Leftover(w, id, c.order, turned, v)
    requires RoundIs(CloseAll(w, id, c, cfg).db, id, Closed)
    ensures RoundIs(v.db, id, Open) && id.run in v.db.runs && AllAccepted(w.db, c.order)
    ensures Fetch(w.store, w.db.rounds[id].base).Some? && Judgements(Cohort(w, c.order), cfg).Some?
    ensures CloseAll(v, id, Again(v.db, c), cfg) == CloseAll(w, id, c, cfg) <==>
      && GateAgrees(Cohort(w, c.order), StillOf(Cohort(w, c.order), turned), cfg)
      && SameEnd(w, id, v, Fetch(w.store, w.db.rounds[id].base).value, Survivors(Cohort(w, c.order), cfg), cfg)
  {
    hide Judgements, Gone, Entries, Cohort, StillOf, Sentenced, Survivors, IsQueryOrder, CloseAll, SameEnd, Settle, JobOf,
      Reject, Still, SameAt, Fetch;
    CloseAllIs(w, id, c, cfg);
    assert Fetch(w.store, w.db.rounds[id].base).Some?;
    BothCloses(w, id, c, cfg, turned, v);
    JobsAgree(w, id, c.order, turned, v);
    LeftoverMeans(w, id, c.order, turned, v);
    var base, gone, cohort := Fetch(w.store, w.db.rounds[id].base).value, Gone(w.store, Entries(w.db, c.order)), Cohort(w, c.order);
    var left, job, again := StillOf(cohort, turned), JobOf(w.db, id), JobOf(v.db, id);
    RejectingMeans(w, id, gone, w.db.runs, w.store);
    RejectingMeans(w, id, turned + gone, v.db.runs, v.store);
    JobIds(w.db, id);
    assert Judgements(cohort, cfg).Some?;
    RejectedTogether(w, id, base, cohort, gone, w.store, job, w.db.runs, c.now, cfg);
    var rejected := gone + Sentenced(cohort, cfg);
    RejectingMeans(w, id, rejected, w.db.runs, w.store);
    if Judgements(left, cfg).Some? {
      RejectedTogether(w, id, base, left, turned + gone, v.store, again, v.db.runs, c.now, cfg);
      if CloseAll(v, id, Again(v.db, c), cfg) == CloseAll(w, id, c, cfg) {
        SettleKeepsSubs(World(Rejecting(w, id, rejected).(runs := w.db.runs), w.store), job, base, Survivors(cohort, cfg), c.now, cfg);
        SettleKeepsSubs(World(Rejecting(w, id, turned + gone + Sentenced(left, cfg)).(runs := v.db.runs), v.store), again,
          base, Survivors(left, cfg), c.now, cfg);
        GateTells(w, id, c, cfg, turned, left);
      }
      if GateAgrees(cohort, left, cfg) {
        SameRejects(w, id, c.order, turned, cfg);
        CohortTasks(w, id, c.order);
        SameSurvivors(cohort, turned, cfg);
        SettleAgrees(w, id, c.order, turned, v, Rejecting(w, id, rejected), base, Survivors(cohort, cfg), c.now, cfg);
      }
    }
  }

  lemma LeftoverMeans(w: World, id: RoundId, order: seq<string>, turned: set<string>, v: World)
    requires id.run in w.db.runs && Leftover(w, id, order, turned, v)
    ensures forall t :: t in turned ==> t in order
  {
  }

  lemma RejectingMeans(w: World, id: RoundId, ts: set<string>, runs: map<string, Run>, store: Store)
    requires RoundIs(w.db, id, Open)
    ensures Rejecting(w, id, ts).runs == w.db.runs && RoundIs(Rejecting(w, id, ts), id, Closing)
    ensures !RoundIs(ReleaseClose(Rejecting(w, id, ts).(runs := runs), id), id, Closed)
    ensures Rejecting(w, id, ts).(runs := w.db.runs) == Rejecting(w, id, ts)
  {
  }
}
