/** A request for work over several runs: which run answers it, and how. */
module Requests {
  import opened Wrappers
  import opened Tables
  import opened Rounds
  import opened Closer
  import opened System
  import opened CloseRun
  import opened Polling

  /** Candidate k's turn: how its round's query would be ordered, and the time of the request. */
  function TurnOf(claims: seq<Claim>, orders: seq<seq<string>>, k: nat): Choice
    requires k < |claims| == |orders|
  {
    Choice(orders[k], true, claims[k].now)
  }

  /** The world once the first k candidates have each been polled and then asked. */
  ghost function Visited(w: World, claims: seq<Claim>, orders: seq<seq<string>>, k: nat, cfg: Config): World
    requires k <= |claims| == |orders|
    decreases k, 0
  {
    if k == 0 then w
    else
      var polled := PolledAt(w, claims, orders, k - 1, cfg);
      polled.(db := ClaimTask(polled.db, claims[k - 1]))
  }

  /** The world when candidate k has been polled and is about to be asked. */
  ghost function PolledAt(w: World, claims: seq<Claim>, orders: seq<seq<string>>, k: nat, cfg: Config): World
    requires k < |claims| == |orders|
    decreases k, 1
  {
    MaybeClose(Visited(w, claims, orders, k, cfg), claims[k].run, TurnOf(claims, orders, k), cfg)
  }

  ghost predicate RaisesAt(w: World, claims: seq<Claim>, orders: seq<seq<string>>, k: nat, cfg: Config)
    requires k < |claims| == |orders|
  {
    PollRaises(Visited(w, claims, orders, k, cfg), claims[k].run, TurnOf(claims, orders, k), cfg)
  }

  /** What candidate k has to say once it has been polled. */
  ghost function AnswerAt(w: World, claims: seq<Claim>, orders: seq<seq<string>>, k: nat, cfg: Config): Result<ClaimOutcome, Error>
    requires k < |claims| == |orders|
  {
    ClaimAnswer(PolledAt(w, claims, orders, k, cfg).db, claims[k])
  }

  /** Polled without raising, and then no work to hand out or a worker refused. */
  ghost predicate PassesOn(w: World, claims: seq<Claim>, orders: seq<seq<string>>, k: nat, cfg: Config)
    requires k < |claims| == |orders|
  {
    !RaisesAt(w, claims, orders, k, cfg)
    && (AnswerAt(w, claims, orders, k, cfg) == Ok(NoWork) || AnswerAt(w, claims, orders, k, cfg) == Err(NotEligible))
  }

  lemma OneLess<T>(xs: seq<T>, n: nat)
    requires 0 < n <= |xs|
    ensures Upto(xs[..n]) == xs[..n - 1] && Last(xs[..n]) == xs[n - 1]
  {
  }

  /** While every candidate passes on, the request goes on to the next. */
  lemma {:induction false} AskedGoesOn(w: World, claims: seq<Claim>, orders: seq<seq<string>>, n: nat, cfg: Config)
    requires n <= |claims| == |orders| && forall k: nat :: k < n ==> PassesOn(w, claims, orders, k, cfg)
    ensures Asked(w, claims[..n], orders[..n], cfg) == (Visited(w, claims, orders, n, cfg), None)
  {
    hide MaybeClose, ClaimTask, ClaimAnswer, PollRaises;
    if n > 0 {
      AskedGoesOn(w, claims, orders, n - 1, cfg);
      OneLess(claims, n);
      OneLess(orders, n);
      assert PassesOn(w, claims, orders, n - 1, cfg);
    }
  }

  /** Which candidate answers: nobody does exactly when every candidate, polled and asked in turn,
      passes on; otherwise the answer is that of the first one that does not, everybody before it has
      been polled and asked, and nobody after it has. */
  lemma {:induction false} FirstAnswers(w: World, claims: seq<Claim>, orders: seq<seq<string>>, k: nat, cfg: Config)
    requires k <= |claims| == |orders| && forall j: nat :: j < k ==> PassesOn(w, claims, orders, j, cfg)
    ensures k == |claims| ==> Asked(w, claims, orders, cfg) == (Visited(w, claims, orders, k, cfg), None)
    ensures k < |claims| && RaisesAt(w, claims, orders, k, cfg) ==>
      Asked(w, claims, orders, cfg) == (PolledAt(w, claims, orders, k, cfg), Some(Err(CloseFailed)))
    ensures k < |claims| && !RaisesAt(w, claims, orders, k, cfg) && !PassesOn(w, claims, orders, k, cfg) ==>
      Asked(w, claims, orders, cfg) == (Visited(w, claims, orders, k + 1, cfg), Some(AnswerAt(w, claims, orders, k, cfg)))
  {
    hide MaybeClose, ClaimTask, ClaimAnswer, PollRaises;
    AskedGoesOn(w, claims, orders, k, cfg);
    if k == |claims| {
      assert claims[..k] == claims && orders[..k] == orders;
    } else if !PassesOn(w, claims, orders, k, cfg) {
      OneLess(claims, k + 1);
      OneLess(orders, k + 1);
      AskedStops(w, claims, orders, k + 1, cfg);
    }
  }

  /** A request goes unanswered exactly when every candidate passes on. */
  lemma {:induction false} UnansweredExactlyWhen(w: World, claims: seq<Claim>, orders: seq<seq<string>>, cfg: Config)
    requires |orders| == |claims|
    ensures Asked(w, claims, orders, cfg).1.None? <==> forall k: nat :: k < |claims| ==> PassesOn(w, claims, orders, k, cfg)
  {
    hide Asked, PassesOn;
    if forall k: nat :: k < |claims| ==> PassesOn(w, claims, orders, k, cfg) {
      FirstAnswers(w, claims, orders, |claims|, cfg);
    } else {
      var k := FirstNotPassing(w, claims, orders, |claims|, cfg);
      FirstAnswers(w, claims, orders, k, cfg);
      AnswersWhenNotPassing(w, claims, orders, k, cfg);
    }
  }

  lemma AnswersWhenNotPassing(w: World, claims: seq<Claim>, orders: seq<seq<string>>, k: nat, cfg: Config)
    requires k < |claims| == |orders| && !PassesOn(w, claims, orders, k, cfg)
    ensures RaisesAt(w, claims, orders, k, cfg)
      || !(AnswerAt(w, claims, orders, k, cfg) == Ok(NoWork) || AnswerAt(w, claims, orders, k, cfg) == Err(NotEligible))
  {
    hide RaisesAt, AnswerAt;
  }

  lemma {:induction false} FirstNotPassing(w: World, claims: seq<Claim>, orders: seq<seq<string>>, n: nat, cfg: Config) returns (k: nat)
    requires n <= |claims| == |orders| && exists j: nat :: j < n && !PassesOn(w, claims, orders, j, cfg)
    ensures k < n && !PassesOn(w, claims, orders, k, cfg) && forall j: nat :: j < k ==> PassesOn(w, claims, orders, j, cfg)
  {
    hide PassesOn;
    if exists j: nat :: j < n - 1 && !PassesOn(w, claims, orders, j, cfg) {
      k := FirstNotPassing(w, claims, orders, n - 1, cfg);
    } else {
      k := n - 1;
    }
  }

  // ---- one answer -----------------------------------------------------------------------------

  /** What a run answers: no work unless it is active with its current round open and the budget has an
      offer for a worker that holds nothing there yet; the lease held already, whatever the offer;
      and a refusal exactly for a worker the run does not take. */
  lemma AnswerExactly(db: Db, c: Claim)
    ensures ClaimAnswer(db, c) == Err(NotEligible) <==> RunActive(db, c.run) && !c.eligible
    ensures ClaimAnswer(db, c) == Ok(Resumed) <==>
      && RunActive(db, c.run) && RoundIs(db, CurrentId(db, c.run), Open) && c.eligible
      && exists t :: t in db.tasks && Holds(db, t, c.worker, CurrentId(db, c.run))
    ensures ClaimAnswer(db, c) == Ok(Fresh) <==> ClaimTask(db, c) != db
    ensures ClaimAnswer(db, c) == Ok(Fresh) ==> Holds(ClaimTask(db, c), c.task, c.worker, CurrentId(db, c.run))
    ensures ClaimAnswer(db, c) == Ok(NoWork) <==>
      !RunActive(db, c.run)
      || (c.eligible
          && (!RoundIs(db, CurrentId(db, c.run), Open)
              || (c.offer.None? && forall t :: t in db.tasks ==> !Holds(db, t, c.worker, CurrentId(db, c.run)))))
  {
    hide Picked, Trained;
    if Grants(db, c) { assert c.task in ClaimTask(db, c).tasks; }
  }
}
