/** An attempt at a close, cut off somewhere: what it has done by then, whatever the store did or
    did not answer on the way. */
module Attempts {
  import opened Wrappers
  import opened Tensors
  import opened OuterStep
  import opened Contributions
  import opened ObjectKeys
  import opened Tables
  import opened Rounds
  import opened Closer
  import opened System
  import opened CloseRun
  import opened Leftovers
  import opened RefSafety

  ghost function Go(w: World, pc: Pc, c: Choice, cfg: Config): (World, Pc) {
    if CanStep(w, pc, c) then Step(w, pc, c, cfg) else (w, pc)
  }

  /** A first attempt: one step for each answer of the store. */
  ghost function Attempt(w: World, id: RoundId, order: seq<string>, answers: seq<bool>, cfg: Config): (World, Pc)
    requires RoundIs(w.db, id, Open)
    decreases |answers|
  {
    if answers == [] then (Claiming(w, id), Claimed(id))
    else
      var mid := Attempt(w, id, order, Upto(answers), cfg);
      Go(mid.0, mid.1, Choice(order, Last(answers), 0), cfg)
  }

  /** The failure path gives the round back. */
  function Reopened(w: World, id: RoundId): World {
    w.(db := ReleaseClose(w.db, id))
  }

  function Keeps(pending: seq<Judged>): (r: seq<Kept>)
    ensures |r| == |pending|
  {
    seq(|pending|, i requires 0 <= i < |pending| => pending[i].kept)
  }

  // ---- what an attempt holds -----------------------------------------------------------------

  function BaseOf(w: World, id: RoundId): Option<Adapter> {
    if id in w.db.rounds then Fetch(w.store, w.db.rounds[id].base) else None
  }

  /** The work whose verdict still stands. */
  function InHand(w: World, order: seq<string>, turned: set<string>): seq<Kept>
    requires forall t :: t in order ==> t in w.db.subs
  {
    Arrived(w.store, Unturned(Entries(w.db, order), turned))
  }

  /** What the attempt combines, when it gets that far; `io` says whether the momentum was read. */
  ghost function Made(w: World, id: RoundId, order: seq<string>, turned: set<string>, io: bool, cfg: Config): Option<Outcome>
    requires RoundIs(w.db, id, Open) && id.run in w.db.runs && forall t :: t in order ==> t in w.db.subs
  {
    if BaseOf(w, id).None? || InHand(w, order, turned) == [] then None
    else CombineKept(w.store, JobOf(w.db, id), BaseOf(w, id).value, InHand(w, order, turned), io, cfg)
  }

  /** At each point before the commit, what the attempt holds and what it has put. */
  ghost predicate Stage(w: World, id: RoundId, order: seq<string>, turned: set<string>, io: bool, cfg: Config, now: World, pc: Pc)
    requires RoundIs(w.db, id, Open) && id.run in w.db.runs && forall t :: t in order ==> t in w.db.subs
  {
    var todo, made := Entries(w.db, order), Made(w, id, order, turned, io, cfg);
    var done := WithRates(JobOf(w.db, id), InHand(w, order, turned));
    match pc
    case Claimed(o) => o == id && turned == {} && now.store == w.store
    case Loading(job, left) => job == JobOf(w.db, id) && left == todo && turned == {} && now.store == w.store
    case Fetching(job, base, left, kept) =>
      && job == JobOf(w.db, id) && BaseOf(w, id) == Some(base) && now.store == w.store && |left| <= |todo|
      && left == todo[|todo| - |left|..] && (forall e :: e in left ==> e.task !in turned)
      && kept == Arrived(w.store, Unturned(todo[..|todo| - |left|], turned))
    case Judging(job, base, pending, kept) =>
      && job == JobOf(w.db, id) && BaseOf(w, id) == Some(base) && now.store == w.store
      && kept + Keeps(pending) == InHand(w, order, turned)
    case Combining(job, base, kept) =>
      && job == JobOf(w.db, id) && BaseOf(w, id) == Some(base) && now.store == w.store && kept == InHand(w, order, turned)
    case Publishing(job, o) => job == done && now.store == w.store && made == Some(o)
    case SavingMomentum(job, m) =>
      && job == done && made.Some? && made.value.momentum == Some(m)
      && now.store == w.store[ResultKey(id) := SaveAdapter(made.value.adapter)]
    case NamingMomentum(job) =>
      job == done && made.Some? && made.value.momentum.Some? && now.store == WithOutcome(w.store, job, made.value)
    case Committing(job, result) =>
      && BaseOf(w, id).Some?
      && (result.None? ==> job == JobOf(w.db, id) && now.store == w.store && InHand(w, order, turned) == [])
      && (result.Some? ==> job == done && result == Some(ResultKey(id)) && made.Some? && now.store == WithOutcome(w.store, job, made.value))
    case _ => true
  }

  /** Once the attempt's momentum is named, the run's row names it. */
  ghost predicate HasNamed(w: World, id: RoundId, order: seq<string>, turned: set<string>, io: bool, cfg: Config, pc: Pc)
    requires RoundIs(w.db, id, Open) && id.run in w.db.runs && forall t :: t in order ==> t in w.db.subs
  {
    pc.Committing? && pc.result.Some? && Made(w, id, order, turned, io, cfg).Some? && Made(w, id, order, turned, io, cfg).value.momentum.Some?
  }

  ghost predicate Underway(w: World, id: RoundId, order: seq<string>, turned: set<string>, io: bool, cfg: Config, now: World, pc: Pc)
    requires RoundIs(w.db, id, Open) && id.run in w.db.runs && forall t :: t in order ==> t in w.db.subs
  {
    && (forall t :: t in turned ==> t in order)
    && now.db == Rejecting(w, id, turned).(
         runs := if HasNamed(w, id, order, turned, io, cfg, pc) then NameMomentum(w.db, id.run).runs else w.db.runs)
    && Stage(w, id, order, turned, io, cfg, now, pc)
  }

  // ---- one step of it ------------------------------------------------------------------------------

  lemma RejectedNow(w: World, id: RoundId, turned: set<string>, t: string)
    requires RoundIs(w.db, id, Open)
    ensures RecordVerdict(Rejecting(w, id, turned).(runs := w.db.runs), t, false) == Rejecting(w, id, turned + {t}).(runs := w.db.runs)
  {
    RejectOne(Claiming(w, id).db, turned, t);
  }

  lemma FirstOfRest<T>(xs: seq<T>, rest: seq<T>)
    requires rest != [] && |rest| <= |xs| && rest == xs[|xs| - |rest|..]
    ensures var d := |xs| - |rest|;
      rest[0] == xs[d] && rest[1..] == xs[d + 1..] && xs[..d + 1] == xs[..d] + [xs[d]] && Upto(xs[..d + 1]) == xs[..d]
  {
  }

  lemma {:induction false} UnturnedSame(todo: seq<Entry>, a: set<string>, b: set<string>)
    requires forall i :: 0 <= i < |todo| ==> (todo[i].task in a <==> todo[i].task in b)
    ensures Unturned(todo, a) == Unturned(todo, b)
  {
    if todo != [] {
      UnturnedSame(Upto(todo), a, b);
    }
  }

  /** What is held once one more artifact has been asked for. */
  lemma FetchedOneMore(store: Store, todo: seq<Entry>, left: seq<Entry>, turned: set<string>, got: bool)
    requires DistinctEntries(todo) && left != [] && |left| <= |todo| && left == todo[|todo| - |left|..]
    requires forall e :: e in left ==> e.task !in turned
    requires got ==> Fetch(store, left[0].artifact).Some?
    ensures var d, e := |todo| - |left|, left[0];
      var after := turned + (if got then {} else {e.task});
      && left[1..] == todo[d + 1..] && (forall other :: other in left[1..] ==> other.task !in after)
      && Arrived(store, Unturned(todo[..d + 1], after))
         == Arrived(store, Unturned(todo[..d], turned))
            + (if got then [Kept(e.task, Contribution(Fetch(store, e.artifact).value, e.steps), e.metrics)] else [])
  {
    hide Fetch, Unturned, Arrived;
    var d, e := |todo| - |left|, left[0];
    var after := turned + (if got then {} else {e.task});
    FirstOfRest(todo, left);
    TurnedElsewhere(todo, left, d, turned, after);
    if got {
      assert after == turned;
      HeldOneMore(store, todo[..d + 1], turned);
    } else {
      HeldNoMore(store, todo[..d + 1], after);
      assert Arrived(store, Unturned(todo[..d], turned)) + [] == Arrived(store, Unturned(todo[..d], turned));
    }
  }

  lemma TurnedElsewhere(todo: seq<Entry>, left: seq<Entry>, d: nat, turned: set<string>, after: set<string>)
    requires DistinctEntries(todo) && d < |todo| && left == todo[d..]
    requires after == turned || after == turned + {todo[d].task}
    requires forall e :: e in left ==> e.task !in turned
    ensures forall other :: other in left[1..] ==> other.task !in after
    ensures Unturned(todo[..d], after) == Unturned(todo[..d], turned)
    ensures todo[d].task !in turned
  {
    assert left[0] == todo[d] && left[0] in left;
    UnturnedSame(todo[..d], turned, after);
    forall other | other in left[1..] ensures other.task !in after {
      var i :| 0 <= i < |left| - 1 && left[1..][i] == other;
      assert left[i + 1] == other && other in left;
    }
  }

  /** An attempt among its fetches. */
  ghost predicate Midway(w: World, id: RoundId, order: seq<string>, turned: set<string>, now: World, pc: Pc)
    requires RoundIs(w.db, id, Open) && id.run in w.db.runs && (forall t :: t in order ==> t in w.db.subs) && pc.Fetching?
  {
    var todo := Entries(w.db, order);
    && (forall t :: t in turned ==> t in order)
    && now.db == Rejecting(w, id, turned).(runs := w.db.runs) && now.store == w.store
    && pc.job == JobOf(w.db, id) && BaseOf(w, id) == Some(pc.base) && |pc.todo| <= |todo|
    && pc.todo == todo[|todo| - |pc.todo|..] && (forall e :: e in pc.todo ==> e.task !in turned)
    && pc.kept == Arrived(w.store, Unturned(todo[..|todo| - |pc.todo|], turned))
  }

  lemma MidwayIsUnderway(w: World, id: RoundId, order: seq<string>, turned: set<string>, io: bool, cfg: Config, now: World, pc: Pc)
    requires RoundIs(w.db, id, Open) && id.run in w.db.runs && (forall t :: t in order ==> t in w.db.subs) && pc.Fetching?
    ensures Underway(w, id, order, turned, io, cfg, now, pc) <==> Midway(w, id, order, turned, now, pc)
  {
    hide Fetch, Made, Rejecting, Entries, Unturned, Arrived, InHand, WithRates;
  }

  /** The next artifact: fetched and held, or its verdict turned. */
  lemma FetchUnderway(
    w: World, id: RoundId, order: seq<string>, turned: set<string>, io: bool, cfg: Config, now: World, pc: Pc, answer: bool)
    returns (after: set<string>)
    requires RoundIs(w.db, id, Open) && id.run in w.db.runs && IsQueryOrder(w.db, id, order)
    requires pc.Fetching? && pc.todo != [] && Underway(w, id, order, turned, io, cfg, now, pc)
    ensures forall t :: t in order ==> t in w.db.subs
    ensures var n := FetchNext(now, pc, answer); Underway(w, id, order, after, io, cfg, n.0, n.1)
    ensures after == turned + (if answer && Fetch(w.store, pc.todo[0].artifact).Some? then {} else {pc.todo[0].task})
  {
    hide Fetch, IsQueryOrder, Underway, RecordVerdict, Reject, Entries, Unturned, Arrived, Rejecting, DistinctEntries;
    EntriesDistinct(w.db, id, order);
    MidwayIsUnderway(w, id, order, turned, io, cfg, now, pc);
    var got := answer && Fetch(w.store, pc.todo[0].artifact).Some?;
    after := turned + (if got then {} else {pc.todo[0].task});
    FetchedOneMore(w.store, Entries(w.db, order), pc.todo, turned, got);
    RejectedNow(w, id, turned, pc.todo[0].task);
    FirstOfRest(Entries(w.db, order), pc.todo);
    assert pc.todo[0] in Entries(w.db, order);
    assert got ==> after == turned;
    assert pc.kept + [] == pc.kept;
    var n := FetchNext(now, pc, answer);
    MidwayIsUnderway(w, id, order, after, io, cfg, n.0, n.1);
  }

  lemma EntriesDistinct(db: Db, id: RoundId, order: seq<string>)
    requires IsQueryOrder(db, id, order)
    ensures forall t :: t in order ==> t in db.subs
    ensures DistinctEntries(Entries(db, order)) && forall e :: e in Entries(db, order) ==> e.task in order
  {
  }

  lemma HeldOneMore(store: Store, todo: seq<Entry>, turned: set<string>)
    requires todo != [] && Last(todo).task !in turned && Fetch(store, Last(todo).artifact).Some?
    ensures var e := Last(todo);
      Arrived(store, Unturned(todo, turned))
      == Arrived(store, Unturned(Upto(todo), turned)) + [Kept(e.task, Contribution(Fetch(store, e.artifact).value, e.steps), e.metrics)]
  {
    hide Fetch;
    var rest, e := Unturned(Upto(todo), turned), Last(todo);
    assert Upto(rest + [e]) == rest && Last(rest + [e]) == e;
  }

  lemma HeldNoMore(store: Store, todo: seq<Entry>, turned: set<string>)
    requires todo != [] && Last(todo).task in turned
    ensures Arrived(store, Unturned(todo, turned)) == Arrived(store, Unturned(Upto(todo), turned))
  {
    hide Fetch;
    var rest := Unturned(Upto(todo), turned);
    assert rest + [] == rest;
  }

  lemma LastKept(kept: seq<Kept>, turned: set<string>)
    requires kept != [] && forall i :: 0 <= i < |kept| ==> kept[i].task !in turned
    ensures Upto(kept) + [Last(kept)] == kept && Last(kept).task !in turned
    ensures forall i :: 0 <= i < |Upto(kept)| ==> Upto(kept)[i].task !in turned
  {
  }

  lemma {:induction false} StillAll(kept: seq<Kept>, turned: set<string>)
    requires forall i :: 0 <= i < |kept| ==> kept[i].task !in turned
    ensures StillOf(kept, turned) == kept
    decreases |kept|
  {
    if kept != [] {
      LastKept(kept, turned);
      ShorterBy(kept);
      hide Upto, Last;
      StillAll(Upto(kept), turned);
    }
  }

  lemma ShorterBy<T>(xs: seq<T>)
    requires xs != []
    ensures |Upto(xs)| == |xs| - 1
  {
  }

  lemma {:induction false} StillConcat(a: seq<Kept>, b: seq<Kept>, turned: set<string>)
    ensures StillOf(a + b, turned) == StillOf(a, turned) + StillOf(b, turned)
  {
    if b == [] {
      assert a + b == a;
    } else {
      assert Upto(a + b) == a + Upto(b) && Last(a + b) == Last(b);
      StillConcat(a, Upto(b), turned);
    }
  }

  lemma StillWithoutOne(a: seq<Kept>, k: Kept, b: seq<Kept>)
    requires DistinctTasks(a + [k] + b)
    ensures StillOf(a + [k] + b, {k.task}) == a + b
  {
    hide StillOf;
    StillConcat(a + [k], b, {k.task});
    StillConcat(a, [k], {k.task});
    OthersDistinct(a, k, b);
    StillAll(a, {k.task});
    StillAll(b, {k.task});
    StillNone(k);
    assert a + [] + b == a + b;
  }

  lemma StillNone(k: Kept)
    ensures StillOf([k], {k.task}) == []
  {
    assert Upto([k]) == [] && Last([k]) == k;
  }

  lemma OthersDistinct(a: seq<Kept>, k: Kept, b: seq<Kept>)
    requires DistinctTasks(a + [k] + b)
    ensures forall i :: 0 <= i < |a| ==> a[i].task != k.task
    ensures forall i :: 0 <= i < |b| ==> b[i].task != k.task
  {
    var all := a + [k] + b;
    assert all[|a|] == k;
    forall i | 0 <= i < |a| ensures a[i].task != k.task {
      assert all[i] == a[i];
    }
    forall i | 0 <= i < |b| ensures b[i].task != k.task {
      assert all[|a| + 1 + i] == b[i];
    }
  }

  lemma HeldLess(w: World, id: RoundId, order: seq<string>, turned: set<string>, a: seq<Kept>, k: Kept, b: seq<Kept>)
    requires IsQueryOrder(w.db, id, order) && (forall t :: t in order ==> t in w.db.subs) && InHand(w, order, turned) == a + [k] + b
    ensures InHand(w, order, turned + {k.task}) == a + b && k.task in order
  {
    hide Fetch, StillOf, Unturned, Arrived;
    EntriesDistinct(w.db, id, order);
    var todo := Entries(w.db, order);
    ArrivedUnturned(w.store, todo, turned);
    ArrivedUnturned(w.store, todo, turned + {k.task});
    StillTwice(Arrived(w.store, todo), turned, {k.task});
    ArrivedDistinct(w.store, todo);
    StillDistinct(Arrived(w.store, todo), turned);
    StillWithoutOne(a, k, b);
    StillMembers(Arrived(w.store, todo), turned);
    assert (a + [k] + b)[|a|] == k;
    assert k in InHand(w, order, turned);
    ArrivedTasks(w.store, todo);
  }

  /** The next verdict: the work passes, or its verdict is turned. */
  lemma JudgeUnderway(
    w: World, id: RoundId, order: seq<string>, turned: set<string>, io: bool, cfg: Config, now: World, pc: Pc)
    returns (after: set<string>)
    requires RoundIs(w.db, id, Open) && id.run in w.db.runs && IsQueryOrder(w.db, id, order)
    requires pc.Judging? && pc.pending != [] && Underway(w, id, order, turned, io, cfg, now, pc)
    ensures forall t :: t in order ==> t in w.db.subs
    ensures var n := JudgeNext(now, pc); Underway(w, id, order, after, io, cfg, n.0, n.1)
    ensures after == turned + (if pc.pending[0].verdict.Accepted? then {} else {pc.pending[0].kept.task})
  {
    hide Fetch, IsQueryOrder, Made, RecordVerdict, Reject, InHand, Rejecting;
    EntriesDistinct(w.db, id, order);
    var j := pc.pending[0];
    after := turned + (if j.verdict.Accepted? then {} else {j.kept.task});
    assert Keeps(pc.pending) == [j.kept] + Keeps(pc.pending[1..]);
    assert pc.kept + Keeps(pc.pending) == pc.kept + [j.kept] + Keeps(pc.pending[1..]);
    if j.verdict.Accepted? {
      assert after == turned;
    } else {
      HeldLess(w, id, order, turned, pc.kept, j.kept, Keeps(pc.pending[1..]));
      RejectedNow(w, id, turned, j.kept.task);
    }
  }

  lemma QueryUnderway(w: World, id: RoundId, order: seq<string>, io: bool, cfg: Config, now: World, pc: Pc)
    requires RoundIs(w.db, id, Open) && id.run in w.db.runs && IsQueryOrder(w.db, id, order)
    requires (forall t :: t in order ==> t in w.db.subs) && pc.Claimed? && Underway(w, id, order, {}, io, cfg, now, pc)
    ensures forall t :: t in order ==> t in now.db.subs
    ensures Underway(w, id, order, {}, io, cfg, now, Query(now, id, order))
  {
    hide IsQueryOrder, Made;
    RejectNone(Claiming(w, id).db);
    assert now.db == Claiming(w, id).db;
    assert Entries(now.db, order) == Entries(w.db, order);
  }

  lemma LoadUnderway(w: World, id: RoundId, order: seq<string>, io: bool, cfg: Config, now: World, pc: Pc, answer: bool)
    requires RoundIs(w.db, id, Open) && id.run in w.db.runs
    requires (forall t :: t in order ==> t in w.db.subs) && pc.Loading? && Underway(w, id, order, {}, io, cfg, now, pc)
    requires !Load(now, pc.job, pc.todo, answer).Unwinding?
    ensures Underway(w, id, order, {}, io, cfg, now, Load(now, pc.job, pc.todo, answer))
  {
    hide Fetch, Made, Reject;
    var todo := Entries(w.db, order);
    assert todo[0..] == todo && todo[..0] == [];
  }

  lemma GateUnderway(w: World, id: RoundId, order: seq<string>, turned: set<string>, io: bool, cfg: Config, now: World, pc: Pc)
    requires RoundIs(w.db, id, Open) && id.run in w.db.runs && (forall t :: t in order ==> t in w.db.subs)
    requires pc.Fetching? && pc.todo == [] && Underway(w, id, order, turned, io, cfg, now, pc)
    requires !Judge(pc.job, pc.base, pc.kept, cfg).Unwinding?
    ensures Underway(w, id, order, turned, io, cfg, now, Judge(pc.job, pc.base, pc.kept, cfg))
    ensures pc.kept == InHand(w, order, turned)
  {
    hide Made, Reject, Verdicts, Works, Arrived, Unturned;
    var todo := Entries(w.db, order);
    assert todo[..|todo|] == todo;
    var next := Judge(pc.job, pc.base, pc.kept, cfg);
    if next.Judging? { assert [] + Keeps(next.pending) == pc.kept; }
  }

  lemma JudgedUnderway(w: World, id: RoundId, order: seq<string>, turned: set<string>, io: bool, cfg: Config, now: World, pc: Pc)
    requires RoundIs(w.db, id, Open) && id.run in w.db.runs && (forall t :: t in order ==> t in w.db.subs)
    requires pc.Judging? && pc.pending == [] && Underway(w, id, order, turned, io, cfg, now, pc)
    ensures Underway(w, id, order, turned, io, cfg, now, Combining(pc.job, pc.base, pc.kept))
  {
    hide Made, Reject, InHand;
    assert pc.kept + Keeps([]) == pc.kept;
  }

  lemma CombineUnderway(
    w: World, id: RoundId, order: seq<string>, turned: set<string>, io: bool, cfg: Config, now: World, pc: Pc, answer: bool)
    requires RoundIs(w.db, id, Open) && id.run in w.db.runs && (forall t :: t in order ==> t in w.db.subs)
    requires pc.Combining? && Underway(w, id, order, turned, io, cfg, now, pc) && !CombineStep(now, pc, answer, cfg).Unwinding?
    ensures Underway(w, id, order, turned, answer, cfg, now, CombineStep(now, pc, answer, cfg))
  {
    hide Reject, InHand, CombineKept, Fetch, JobOf;
  }

  lemma MadeHasBase(w: World, id: RoundId, order: seq<string>, turned: set<string>, io: bool, cfg: Config)
    requires RoundIs(w.db, id, Open) && id.run in w.db.runs && (forall t :: t in order ==> t in w.db.subs)
    ensures Made(w, id, order, turned, io, cfg).Some? ==> BaseOf(w, id).Some?
  {
    hide InHand, CombineKept, Fetch;
  }

  lemma PutUnderway(w: World, id: RoundId, order: seq<string>, turned: set<string>, io: bool, cfg: Config, now: World, pc: Pc, c: Choice)
    requires RoundIs(w.db, id, Open) && id.run in w.db.runs && (forall t :: t in order ==> t in w.db.subs)
    requires (pc.Publishing? || pc.SavingMomentum? || pc.NamingMomentum?) && Underway(w, id, order, turned, io, cfg, now, pc)
    requires BeforeCommit(Step(now, pc, c, cfg).1)
    ensures var n := Step(now, pc, c, cfg); Underway(w, id, order, turned, io, cfg, n.0, n.1)
  {
    hide InHand, Made, SaveAdapter;
    var n := Step(now, pc, c, cfg);
    MadeHasBase(w, id, order, turned, io, cfg);
    if pc.NamingMomentum? { assert n.0.db.runs == NameMomentum(w.db, id.run).runs; }
  }

  lemma UnderwayStep(
    w: World, id: RoundId, order: seq<string>, turned: set<string>, io: bool, cfg: Config, now: World, pc: Pc, c: Choice)
    returns (after: set<string>, ioAfter: bool)
    requires RoundIs(w.db, id, Open) && id.run in w.db.runs && IsQueryOrder(w.db, id, order) && c.order == order
    requires (forall t :: t in order ==> t in w.db.subs) && Underway(w, id, order, turned, io, cfg, now, pc)
    requires CanStep(now, pc, c) && BeforeCommit(pc) && BeforeCommit(Step(now, pc, c, cfg).1)
    ensures var n := Step(now, pc, c, cfg); Underway(w, id, order, after, ioAfter, cfg, n.0, n.1)
    ensures ioAfter == if pc.Combining? then c.io else io
    ensures after == turned + TurnedBy(w.store, pc, c)
  {
    hide IsQueryOrder, Underway, FetchNext, JudgeNext, CombineStep, Load, Query, Judge, TurnedBy;
    after, ioAfter := turned, if pc.Combining? then c.io else io;
    TurnedByMeans(w.store, pc, c);
    assert turned + {} == turned;
    match pc
    case Claimed(_) =>
      UnderwayFirst(w, id, order, turned, io, cfg, now, pc);
      QueryUnderway(w, id, order, io, cfg, now, pc);
    case Loading(_, _) =>
      UnderwayFirst(w, id, order, turned, io, cfg, now, pc);
      LoadUnderway(w, id, order, io, cfg, now, pc, c.io);
    case Fetching(_, _, todo, _) =>
      if todo == [] {
        GateUnderway(w, id, order, turned, io, cfg, now, pc);
      } else {
        after := FetchUnderway(w, id, order, turned, io, cfg, now, pc, c.io);
      }
    case Judging(_, _, pending, _) =>
      if pending == [] {
        JudgedUnderway(w, id, order, turned, io, cfg, now, pc);
      } else {
        after := JudgeUnderway(w, id, order, turned, io, cfg, now, pc);
      }
    case Combining(_, _, _) => CombineUnderway(w, id, order, turned, io, cfg, now, pc, c.io);
    case Committing(_, _) =>
    case _ => PutUnderway(w, id, order, turned, io, cfg, now, pc, c);
  }

  /** The verdicts one step turns. */
  function TurnedBy(store: Store, pc: Pc, c: Choice): set<string> {
    if pc.Fetching? && pc.todo != [] && !(c.io && Fetch(store, pc.todo[0].artifact).Some?) then {pc.todo[0].task}
    else if pc.Judging? && pc.pending != [] && !pc.pending[0].verdict.Accepted? then {pc.pending[0].kept.task}
    else {}
  }

  lemma TurnedByMeans(store: Store, pc: Pc, c: Choice)
    ensures !(pc.Fetching? && pc.todo != []) && !(pc.Judging? && pc.pending != []) ==> TurnedBy(store, pc, c) == {}
    ensures pc.Fetching? && pc.todo != [] ==>
      TurnedBy(store, pc, c) == if c.io && Fetch(store, pc.todo[0].artifact).Some? then {} else {pc.todo[0].task}
    ensures pc.Judging? && pc.pending != [] ==>
      TurnedBy(store, pc, c) == if pc.pending[0].verdict.Accepted? then {} else {pc.pending[0].kept.task}
  {
  }

  lemma UnderwayFirst(w: World, id: RoundId, order: seq<string>, turned: set<string>, io: bool, cfg: Config, now: World, pc: Pc)
    requires RoundIs(w.db, id, Open) && id.run in w.db.runs && (forall t :: t in order ==> t in w.db.subs)
    requires Underway(w, id, order, turned, io, cfg, now, pc) && (pc.Claimed? || pc.Loading?)
    ensures turned == {} && (pc.Claimed? ==> pc.id == id)
  {
  }

  /** Past its commit, a close never comes back before it. */
  lemma NoWayBack(w: World, pc: Pc, c: Choice, cfg: Config)
    requires BeforeCommit(Go(w, pc, c, cfg).1)
    ensures BeforeCommit(pc)
  {
    hide CombineKept, Verdicts, IsQueryOrder, Fetch, SaveAdapter, Works, CommitClose, RecordVerdict, OpenRound, FinishRun;
  }

  lemma StartUnderway(w: World, id: RoundId, order: seq<string>, io: bool, cfg: Config)
    requires RoundIs(w.db, id, Open) && id.run in w.db.runs && (forall t :: t in order ==> t in w.db.subs)
    ensures Underway(w, id, order, {}, io, cfg, Claiming(w, id), Claimed(id))
  {
    RejectNone(Claiming(w, id).db);
    hide Made;
  }

  /** Every attempt that has not committed is under way, whatever the store did not answer. */
  lemma {:induction false} AttemptUnderway(w: World, id: RoundId, order: seq<string>, answers: seq<bool>, cfg: Config)
    returns (turned: set<string>, io: bool)
    requires RoundIs(w.db, id, Open) && id.run in w.db.runs && IsQueryOrder(w.db, id, order)
    requires BeforeCommit(Attempt(w, id, order, answers, cfg).1)
    ensures forall t :: t in order ==> t in w.db.subs
    ensures var a := Attempt(w, id, order, answers, cfg); Underway(w, id, order, turned, io, cfg, a.0, a.1)
    ensures (forall i :: 0 <= i < |answers| ==> answers[i]) ==> io
    decreases |answers|
  {
    hide Step, CanStep, Underway, IsQueryOrder, TurnedBy;
    EntriesDistinct(w.db, id, order);
    if answers == [] {
      turned, io := {}, true;
      StartUnderway(w, id, order, true, cfg);
    } else {
      var mid, c := Attempt(w, id, order, Upto(answers), cfg), Choice(order, Last(answers), 0);
      NoWayBack(mid.0, mid.1, c, cfg);
      turned, io := AttemptUnderway(w, id, order, Upto(answers), cfg);
      if CanStep(mid.0, mid.1, c) { turned, io := UnderwayStep(w, id, order, turned, io, cfg, mid.0, mid.1, c); }
    }
  }

  // ---- attempts whose store answers until they fail ------------------------------------------------

  /** Which verdicts a steady attempt has turned: those of artifacts it found gone, then gate 4's. */
  ghost predicate Steady(w: World, order: seq<string>, turned: set<string>, cfg: Config, pc: Pc)
    requires forall t :: t in order ==> t in w.db.subs
  {
    var todo, judged := Entries(w.db, order), Judgements(Cohort(w, order), cfg);
    var gone := Gone(w.store, todo);
    match pc
    case Claimed(_) => true
    case Loading(_, _) => true
    case Fetching(_, _, left, _) => |left| <= |todo| && turned == Gone(w.store, todo[..|todo| - |left|])
    case Judging(_, _, pending, _) =>
      && judged.Some? && |pending| <= |judged.value| && pending == judged.value[|judged.value| - |pending|..]
      && turned == gone + Failed(judged.value[..|judged.value| - |pending|])
    case _ => judged.Some? && turned == gone + Failed(judged.value)
  }

  lemma InHandIsCohort(w: World, id: RoundId, order: seq<string>)
    requires IsQueryOrder(w.db, id, order) && forall t :: t in order ==> t in w.db.subs
    ensures InHand(w, order, Gone(w.store, Entries(w.db, order))) == Cohort(w, order)
  {
    hide Arrived, Unturned, Gone, Entries, IsQueryOrder;
    var gone, cohort := Gone(w.store, Entries(w.db, order)), Cohort(w, order);
    ArrivedUnturned(w.store, Entries(w.db, order), gone);
    CohortTasks(w, id, order);
    forall i | 0 <= i < |cohort| ensures cohort[i].task !in gone {
      assert cohort[i] in cohort;
      assert cohort[i].task in Tasks(cohort);
    }
    StillAll(cohort, gone);
  }

  lemma SteadyFetch(w: World, order: seq<string>, turned: set<string>, cfg: Config, pc: Pc, c: Choice)
    requires (forall t :: t in order ==> t in w.db.subs) && c.io && pc.Fetching? && pc.todo != []
    requires var todo := Entries(w.db, order); |pc.todo| <= |todo| && pc.todo == todo[|todo| - |pc.todo|..]
    requires Steady(w, order, turned, cfg, pc)
    ensures Steady(w, order, turned + TurnedBy(w.store, pc, c), cfg, FetchNext(w, pc, c.io).1)
  {
    hide Fetch, Entries, Gone, Judgements, Cohort, RecordVerdict;
    var todo := Entries(w.db, order);
    FirstOfRest(todo, pc.todo);
    GoneGrows(w.store, todo, |todo| - |pc.todo|);
  }

  lemma SteadyGate(w: World, id: RoundId, order: seq<string>, turned: set<string>, cfg: Config, pc: Pc)
    requires IsQueryOrder(w.db, id, order) && forall t :: t in order ==> t in w.db.subs
    requires pc.Fetching? && pc.todo == [] && pc.kept == InHand(w, order, turned) && Steady(w, order, turned, cfg, pc)
    requires !Judge(pc.job, pc.base, pc.kept, cfg).Unwinding?
    ensures Steady(w, order, turned, cfg, Judge(pc.job, pc.base, pc.kept, cfg))
  {
    hide Fetch, Entries, InHand, Cohort, Works, Verdicts, Gone, IsQueryOrder, Paired;
    var todo := Entries(w.db, order);
    assert todo[..|todo|] == todo;
    InHandIsCohort(w, id, order);
    var gone := Gone(w.store, todo);
    assert Failed([]) == {} && gone + {} == gone;
    if pc.kept == [] {
      NobodyJudged(cfg);
    } else {
      var judged := Judgements(pc.kept, cfg).value;
      assert judged[..0] == [] && judged[0..] == judged;
    }
  }

  lemma SteadyJudge(w: World, order: seq<string>, turned: set<string>, cfg: Config, pc: Pc, c: Choice)
    requires (forall t :: t in order ==> t in w.db.subs) && pc.Judging? && Steady(w, order, turned, cfg, pc)
    ensures pc.pending != [] ==> Steady(w, order, turned + TurnedBy(w.store, pc, c), cfg, JudgeNext(w, pc).1)
    ensures pc.pending == [] ==> Steady(w, order, turned, cfg, Combining(pc.job, pc.base, pc.kept))
  {
    hide Fetch, Entries, Gone, Judgements, Cohort, RecordVerdict, Failed;
    var judged := Judgements(Cohort(w, order), cfg).value;
    if pc.pending == [] {
      assert judged[..|judged|] == judged;
    } else {
      FirstOfRest(judged, pc.pending);
      FailedGrows(judged, |judged| - |pc.pending|);
    }
  }

  lemma SteadyStep(
    w: World, id: RoundId, order: seq<string>, turned: set<string>, io: bool, cfg: Config, now: World, pc: Pc, c: Choice)
    requires RoundIs(w.db, id, Open) && id.run in w.db.runs && IsQueryOrder(w.db, id, order) && c.order == order && c.io
    requires (forall t :: t in order ==> t in w.db.subs) && Underway(w, id, order, turned, io, cfg, now, pc)
    requires CanStep(now, pc, c) && BeforeCommit(pc) && BeforeCommit(Step(now, pc, c, cfg).1)
    requires Steady(w, order, turned, cfg, pc)
    ensures Steady(w, order, turned + TurnedBy(w.store, pc, c), cfg, Step(now, pc, c, cfg).1)
  {
    hide IsQueryOrder, Underway, CombineStep, Query, Judge, TurnedBy, Steady, Fetch, RecordVerdict;
    TurnedByMeans(w.store, pc, c);
    assert turned + {} == turned;
    match pc
    case Claimed(_) => SteadyStart(w, order, turned, cfg, now, pc, c);
    case Loading(job, todo) =>
      UnderwayFirst(w, id, order, turned, io, cfg, now, pc);
      SteadyLoad(w, id, order, turned, io, cfg, now, pc, c);
    case Fetching(_, _, todo, _) =>
      if todo == [] {
        GateUnderway(w, id, order, turned, io, cfg, now, pc);
        SteadyGate(w, id, order, turned, cfg, pc);
      } else {
        FetchingRest(w, id, order, turned, io, cfg, now, pc);
        SteadyFetch(w, order, turned, cfg, pc, c);
      }
    case Judging(_, _, _, _) => SteadyJudge(w, order, turned, cfg, pc, c);
    case _ => SteadyPut(w, order, turned, cfg, now, pc, c);
  }

  lemma FetchingRest(w: World, id: RoundId, order: seq<string>, turned: set<string>, io: bool, cfg: Config, now: World, pc: Pc)
    requires RoundIs(w.db, id, Open) && id.run in w.db.runs && (forall t :: t in order ==> t in w.db.subs)
    requires pc.Fetching? && Underway(w, id, order, turned, io, cfg, now, pc)
    ensures var todo := Entries(w.db, order);
      |pc.todo| <= |todo| && pc.todo == todo[|todo| - |pc.todo|..] && now.store == w.store
  {
  }

  lemma SteadyStart(w: World, order: seq<string>, turned: set<string>, cfg: Config, now: World, pc: Pc, c: Choice)
    requires (forall t :: t in order ==> t in w.db.subs) && pc.Claimed? && CanStep(now, pc, c) && BeforeCommit(Step(now, pc, c, cfg).1)
    ensures Steady(w, order, turned, cfg, Step(now, pc, c, cfg).1)
  {
    hide IsQueryOrder, Judgements, Gone, Entries;
  }

  lemma SteadyLoad(w: World, id: RoundId, order: seq<string>, turned: set<string>, io: bool, cfg: Config, now: World, pc: Pc, c: Choice)
    requires RoundIs(w.db, id, Open) && id.run in w.db.runs && (forall t :: t in order ==> t in w.db.subs)
    requires pc.Loading? && turned == {} && Underway(w, id, order, turned, io, cfg, now, pc) && BeforeCommit(Step(now, pc, c, cfg).1)
    ensures Steady(w, order, turned, cfg, Step(now, pc, c, cfg).1)
  {
    hide Judgements, Made, Fetch;
    var todo := Entries(w.db, order);
    assert todo[..0] == [];
  }

  lemma SteadyPut(w: World, order: seq<string>, turned: set<string>, cfg: Config, now: World, pc: Pc, c: Choice)
    requires (forall t :: t in order ==> t in w.db.subs) && Steady(w, order, turned, cfg, pc)
    requires pc.Combining? || pc.Publishing? || pc.SavingMomentum? || pc.NamingMomentum? || pc.Committing?
    requires BeforeCommit(Step(now, pc, c, cfg).1)
    ensures Steady(w, order, turned, cfg, Step(now, pc, c, cfg).1)
  {
    hide Judgements, Gone, Entries, CombineKept, Cohort, NameMomentum, SaveAdapter, CommitClose;
  }

  /** A steady attempt is under way, and has turned exactly the verdicts due so far. */
  lemma {:induction false} AttemptSteady(w: World, id: RoundId, order: seq<string>, answers: seq<bool>, cfg: Config)
    returns (turned: set<string>)
    requires RoundIs(w.db, id, Open) && id.run in w.db.runs && IsQueryOrder(w.db, id, order)
    requires (forall i :: 0 <= i < |answers| ==> answers[i]) && BeforeCommit(Attempt(w, id, order, answers, cfg).1)
    ensures forall t :: t in order ==> t in w.db.subs
    ensures var a := Attempt(w, id, order, answers, cfg);
      Underway(w, id, order, turned, true, cfg, a.0, a.1) && Steady(w, order, turned, cfg, a.1)
    decreases |answers|
  {
    hide Step, CanStep, Underway, IsQueryOrder, TurnedBy;
    EntriesDistinct(w.db, id, order);
    if answers == [] {
      turned := {};
      StartUnderway(w, id, order, true, cfg);
    } else {
      hide Steady;
      var mid, c := Attempt(w, id, order, Upto(answers), cfg), Choice(order, Last(answers), 0);
      NoWayBack(mid.0, mid.1, c, cfg);
      turned := AttemptSteady(w, id, order, Upto(answers), cfg);
      if CanStep(mid.0, mid.1, c) {
        var after, io := UnderwayStep(w, id, order, turned, true, cfg, mid.0, mid.1, c);
        SteadyStep(w, id, order, turned, true, cfg, mid.0, mid.1, c);
        turned := after;
      }
    }
  }
}
