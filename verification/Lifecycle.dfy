/** How payments move through their statuses: which edges a step can take, that completion is exactly the
    final statuses, that a payment takes at most three timer steps, what a drained queue leaves, and exactly
    which payments never complete. */
module Lifecycle {
  import opened Money
  import opened Domain
  import opened Operations
  import opened Accounting
  import opened BookInvariants
  import opened Shapes
  import opened Protocol
  import opened Segments
  import opened Groundwork
  import opened Bookkeeping
  import opened Reachability
  import opened Duplicates
  import Idempotency
  import opened Sums

  /** The edges of the status machines. */
  predicate Edge(t: Tx, x: Status, y: Status)
  {
    match t.key.kind
    case Collection => (x, y) in {(Accepted, Dispatched), (Dispatched, Settled), (Dispatched, Failed)}
    case Payout =>
      if t.review then (x, y) == (Accepted, InReview)
      else (x, y) in {(Accepted, Dispatching), (Dispatching, Delivered), (Dispatching, Failed), (Failed, Refunded)}
    case Utility =>
      if t.funding == FromWallet then
        (x, y) in {(Accepted, Vending), (Vending, Delivered), (Vending, Failed), (Failed, Refunded)}
      else (x, y) in {(Accepted, AwaitingPayment), (AwaitingPayment, Delivered), (AwaitingPayment, Failed)}
    case Transfer => false
  }

  /** A registered payment stays as it is or takes one edge; it never becomes unregistered. */
  predicate Moves(t: Tx, u: Tx)
  {
    && u.key == t.key
    && (t.registered ==>
          && u.registered && u.review == t.review && u.funding == t.funding
          && (u.status == t.status || Edge(u, t.status, u.status)))
  }

  ghost predicate AllMove(b: Book, c: Book)
  {
    |b.objs| <= |c.objs| && forall i :: 0 <= i < |b.objs| ==> Moves(b.objs[i], c.objs[i])
  }

  lemma EffectedMoves(b: Book, c: Book, later: seq<Later>, e: Effect)
    requires Effected(b, c, later, e)
    ensures AllMove(b, c)
  {
    forall i | 0 <= i < |b.objs| ensures Moves(b.objs[i], c.objs[i]) {
      if e != Registers(i) { assert SamePlan(b.objs[i], c.objs[i]); }
    }
  }

  lemma FitsEdge(b: Book, act: Act)
    requires act.obj < |b.objs| && TxOk(b.objs[act.obj]) && Fits(b.objs[act.obj], act)
    ensures Edge(b.objs[act.obj], b.objs[act.obj].status, StatusAfter(b, act))
  {
  }

  lemma SteppedMoves(b: Book, c: Book, later: seq<Later>, act: Act)
    requires act.obj < |b.objs| && b.objs[act.obj].registered
    requires Stepped(b, c, later, act.obj, StatusAfter(b, act))
    requires Edge(b.objs[act.obj], b.objs[act.obj].status, StatusAfter(b, act))
    ensures AllMove(b, c)
  {
    hide StatusAfter;
  }

  /** Every step moves every payment by at most one edge of its machine. */
  lemma StepMoves(s: State, step: Step)
    requires Inv(s) && !step.Reset?
    ensures AllMove(s.book, Apply(s, step).book)
  {
    InvGround(s);
    hide Inv, Sturdy, Ground, CallsOk, AllMove, Apply, ApplyAdvance, ApplyFire;
    match step
    case PostCall(_, _, _, _, _, _) => PostMoves(s, step);
    case Advance(i) =>
      AdvanceIsApplied(s, i);
      AdvanceMoves(s, i);
    case Fire(j, at) =>
      FireIsApplied(s, j, at);
      FireMoves(s, j, at);
    case _ =>
      QuietStep(s, step);
      UnmovedMoves(s.book, Apply(s, step).book);
  }

  lemma UnmovedMoves(b: Book, c: Book)
    requires c.objs == b.objs
    ensures AllMove(b, c)
  {
  }

  lemma PostMoves(s: State, step: Step)
    requires step.PostCall?
    ensures AllMove(s.book, Apply(s, step).book)
  {
    hide AllMove, SegmentOk, FirstSegment;
    UnmovedMoves(s.book, s.book);
    FirstSegmentOk(s.book, step.cred, step.endpoint, step.body);
    var g := FirstSegment(s.book, step.cred, step.endpoint, step.body);
    SegmentMoves(s.book, g, SegmentEffect(s.book, Nothing, g));
  }

  lemma AdvanceMoves(s: State, i: nat)
    requires Sturdy(s)
    ensures AllMove(s.book, ApplyAdvance(s, i).book)
  {
    SturdyParts(s);
    hide Sturdy, Ground, Balanced, Fixed, Timed, AllMove, SegmentOk, NextSegment, Holdable;
    UnmovedMoves(s.book, s.book);
    if i < |s.calls| {
      if Waits(s.calls[i].phase).Holds? { WaitingHoldable(s, i); }
      NextSegmentOk(s.book, s.calls[i]);
      var g := NextSegment(s.book, s.calls[i]);
      SegmentMoves(s.book, g, SegmentEffect(s.book, Waits(s.calls[i].phase), g));
    }
  }

  lemma SegmentMoves(b: Book, g: Segment, e: Effect)
    requires SegmentOk(b, g, e)
    ensures AllMove(b, g.book)
  {
    hide AllMove;
    EffectedMoves(b, g.book, g.later, e);
  }

  predicate FiresLive(s: State, j: nat, at: nat)
  {
    IsNext(s.timers, j) && at >= s.now && at >= s.timers[j].due && s.timers[j].epoch == s.epoch
  }

  lemma FireMoves(s: State, j: nat, at: nat)
    requires Inv(s)
    ensures AllMove(s.book, ApplyFire(s, j, at).book)
    ensures FiresLive(s, j, at) ==>
      var act, b, c := s.timers[j].act, s.book, ApplyFire(s, j, at).book;
      && act.obj < |b.objs| && TxOk(b.objs[act.obj]) && Fits(b.objs[act.obj], act)
      && c == RunAct(b, act).0 && Stepped(b, c, RunAct(b, act).1, act.obj, StatusAfter(b, act))
    ensures !FiresLive(s, j, at) ==> ApplyFire(s, j, at).book == s.book
  {
    InvTimers(s);
    InvSound(s);
    hide Inv, TimersOk, RunAct, Sound;
    if FiresLive(s, j, at) {
      FireFits(s, j);
      SoundShape(s.book);
      TypedAt(s.book, s.timers[j].act.obj);
      hide Shape, TxOk, Fits;
      FitsEdge(s.book, s.timers[j].act);
      ActStep(s.book, s.timers[j].act);
      FitsRegistered(s.book.objs[s.timers[j].act.obj], s.timers[j].act);
      SteppedMoves(s.book, RunAct(s.book, s.timers[j].act).0, RunAct(s.book, s.timers[j].act).1, s.timers[j].act);
      hide Stepped, AllMove, StatusAfter, Edge;
    }
  }

  lemma FitsRegistered(t: Tx, act: Act)
    requires Fits(t, act)
    ensures t.registered
  {
  }

  /** In every run: a payment carries a completion time exactly in the final statuses of its kind, ends as
      its outcome has it, gives a reason exactly for a failure, and so its status tells how it came out. */
  lemma CompletedExactlyWhenFinal(c: Config, now: nat, steps: seq<Step>, i: nat)
    requires WellFormed(c) && StepsWellFormed(steps) && i < |Run(Fresh(c, now), steps).book.objs|
    ensures var t := Run(Fresh(c, now), steps).book.objs[i];
            t.registered ==>
              && StatusOk(t) && OutcomeOk(t) && (t.completed <==> IsFinal(t))
              && (Fulfilled(t) <==> t.status in {Settled, Delivered, Completed})
              && (Reversed(t) <==> t.status == Refunded || (t.key.kind == Collection && t.status == Failed))
  {
    RunKeeps(c, now, steps);
    hide Run;
    InvSound(Run(Fresh(c, now), steps));
    SoundShape(Run(Fresh(c, now), steps).book);
    hide Inv;
    TypedAt(Run(Fresh(c, now), steps).book, i);
    hide *;
    if Run(Fresh(c, now), steps).book.objs[i].registered { StatusTells(Run(Fresh(c, now), steps).book.objs[i]); }
  }

  lemma StatusTells(t: Tx)
    requires TxOk(t) && t.registered
    ensures StatusOk(t) && OutcomeOk(t) && (t.completed <==> IsFinal(t))
    ensures Fulfilled(t) <==> t.status in {Settled, Delivered, Completed}
    ensures Reversed(t) <==> t.status == Refunded || (t.key.kind == Collection && t.status == Failed)
  {
  }

  /* At most three timer steps */

  predicate FiresFor(s: State, step: Step, i: nat)
  {
    step.Fire? && FiresLive(s, step.timer, step.at) && s.timers[step.timer].act.obj == i
  }

  /** How many timer steps of a payment a run takes. */
  function TimerSteps(s: State, steps: seq<Step>, i: nat): nat
  {
    if steps == [] then 0
    else
      var init := steps[..|steps| - 1];
      TimerSteps(s, init, i) + if FiresFor(Run(s, init), steps[|steps| - 1], i) then 1 else 0
  }

  lemma FiredLoad(s: State, j: nat, at: nat, i: nat)
    requires Timed(s)
    ensures Load(ApplyFire(s, j, at), i) + (if FiresFor(s, Fire(j, at), i) then 1 else 0) <= Load(s, i)
  {
    hide Timed, Load, RunAct, Ready;
    if IsNext(s.timers, j) && at >= s.now && at >= s.timers[j].due {
      if s.timers[j].epoch == s.epoch {
        TimerReady(s, j);
        LoadFalls(s, j, at, i);
      } else {
        StaleLoad(s, j, at, i);
      }
    }
  }

  lemma StaleLoad(s: State, j: nat, at: nat, i: nat)
    requires j < |s.timers| && s.timers[j].epoch != s.epoch
    ensures Load(s.(now := at, timers := Without(s.timers, j)), i) == Load(s, i)
  {
    hide SumBy;
    SumRemove(s.timers, j, LiveOf(s.epoch, i, HalfWay));
    SumRemove(s.timers, j, LiveOf(s.epoch, i, Reviewing));
    SumRemove(s.timers, j, LiveOf(s.epoch, i, Ending));
    SumRemove(s.timers, j, LiveOf(s.epoch, i, Refunding));
  }

  lemma SegmentLoad(s: State, t: State, g: Segment, e: Effect, i: nat)
    requires SegmentOk(s.book, g, e) && i < |s.book.objs| && s.book.objs[i].registered
    requires t.timers == s.timers + Schedule(s.now, s.epoch, g.later) && t.epoch == s.epoch
    ensures Load(t, i) == Load(s, i)
  {
    hide Load, KindsIn;
    LoadMoves(s, g.later, t, i);
    match e
    case Registers(k) =>
      LaterKinds(g.later, k, g.book.objs[k], s.book.config, i, HalfWay);
      LaterKinds(g.later, k, g.book.objs[k], s.book.config, i, Reviewing);
      LaterKinds(g.later, k, g.book.objs[k], s.book.config, i, Ending);
      LaterKinds(g.later, k, g.book.objs[k], s.book.config, i, Refunding);
    case _ => NoLoad(i);
  }

  lemma NoLoad(i: nat)
    ensures LoadIn([], i) == 0
  {
  }

  lemma SameLoad(s: State, t: State, i: nat)
    requires t.timers == s.timers && t.epoch == s.epoch
    ensures Load(t, i) == Load(s, i)
  {
  }

  lemma PostLoad(s: State, step: Step, i: nat)
    requires step.PostCall? && i < |s.book.objs| && s.book.objs[i].registered
    ensures Load(Apply(s, step), i) == Load(s, i)
  {
    hide Load, SegmentOk, FirstSegment, IdemKey;
    var t, g := Apply(s, step), FirstSegment(s.book, step.cred, step.endpoint, step.body);
    FirstSegmentOk(s.book, step.cred, step.endpoint, step.body);
    if t.calls[|s.calls|].ran && !step.crash {
      SegmentLoad(s, t, g, SegmentEffect(s.book, Nothing, g), i);
    } else {
      SameLoad(s, t, i);
    }
  }

  lemma AdvanceLoad(s: State, n: nat, i: nat)
    requires Sturdy(s) && i < |s.book.objs| && s.book.objs[i].registered
    ensures Load(ApplyAdvance(s, n), i) == Load(s, i)
  {
    SturdyParts(s);
    hide Sturdy, Ground, Balanced, Fixed, Timed, Load, SegmentOk, NextSegment, Holdable;
    if n < |s.calls| {
      var g := NextSegment(s.book, s.calls[n]);
      if Waits(s.calls[n].phase).Holds? { WaitingHoldable(s, n); }
      NextSegmentOk(s.book, s.calls[n]);
      SegmentLoad(s, ApplyAdvance(s, n), g, SegmentEffect(s.book, Waits(s.calls[n].phase), g), i);
    }
  }

  lemma StepLoad(s: State, step: Step, i: nat)
    requires Sturdy(s) && !step.Reset? && i < |s.book.objs| && s.book.objs[i].registered
    ensures Load(Apply(s, step), i) + (if FiresFor(s, step, i) then 1 else 0) <= Load(s, i)
  {
    SturdyParts(s);
    hide Sturdy, Ground, Balanced, Fixed, Timed, Load, Apply, ApplyAdvance, ApplyFire, FiresLive;
    match step
    case Fire(j, at) =>
      FireIsApplied(s, j, at);
      FiredLoad(s, j, at, i);
    case PostCall(_, _, _, _, _, _) => PostLoad(s, step, i);
    case Advance(n) =>
      AdvanceIsApplied(s, n);
      AdvanceLoad(s, n, i);
    case _ =>
      QuietStep(s, step);
      SameLoad(s, Apply(s, step), i);
  }

  /** A registered payment stays registered until a reset. */
  lemma StepRegistered(s: State, step: Step, i: nat)
    requires Sturdy(s) && !step.Reset? && i < |s.book.objs| && s.book.objs[i].registered
    ensures i < |Apply(s, step).book.objs| && Apply(s, step).book.objs[i].registered
  {
    SturdyParts(s);
    hide Ground, Sturdy, Balanced, Fixed, Timed, Apply;
    var e := StepEnters(s, step);
  }

  /** Once registered, a payment takes at most three timer steps before a reset, however long the run, and
      whatever the order of the timers. */
  lemma {:induction false} AtMostThreeSteps(s: State, steps: seq<Step>, i: nat)
    requires Sturdy(s) && i < |s.book.objs| && s.book.objs[i].registered
    requires forall n :: 0 <= n < |steps| ==> !steps[n].Reset?
    ensures var t := Run(s, steps);
            && Sturdy(t) && i < |t.book.objs| && t.book.objs[i].registered
            && TimerSteps(s, steps, i) + Load(t, i) <= Load(s, i) <= 3 && Load(t, i) >= 0
  {
    hide Sturdy, Apply, FiresFor, Load;
    LoadBounds(s, i);
    if steps != [] {
      var init, last := steps[..|steps| - 1], steps[|steps| - 1];
      AtMostThreeSteps(s, init, i);
      var t := Run(s, init);
      StepLoad(t, last, i);
      StepRegistered(t, last, i);
      StepSturdy(t, last);
      LoadBounds(Apply(t, last), i);
    }
  }

  lemma LoadBounds(s: State, i: nat)
    requires Sturdy(s) && i < |s.book.objs| && s.book.objs[i].registered
    ensures 0 <= Load(s, i) <= 3
  {
    SturdyParts(s);
    hide Sturdy, Ground, Balanced, Fixed, SumBy;
    PendingNonNegative(s, i, HalfWay);
    PendingNonNegative(s, i, Reviewing);
    PendingNonNegative(s, i, Ending);
    PendingNonNegative(s, i, Refunding);
    assert Load(s, i) <= Allowance(s.book, i);
  }

  /* Draining the queue */

  /** What a queue without timers of the current epoch leaves unresolved: payouts in review and purchases
      the payer funded that failed to vend. */
  predicate AtRest(t: Tx)
  {
    || IsFinal(t)
    || (t.key.kind == Payout && t.status == InReview)
    || (t.key.kind == Utility && t.funding == FromPayer && t.status == Failed)
  }

  lemma DrainedAtRest(s: State, i: nat)
    requires Inv(s) && (forall j :: 0 <= j < |s.timers| ==> s.timers[j].epoch != s.epoch)
    requires i < |s.book.objs| && s.book.objs[i].registered
    ensures AtRest(s.book.objs[i])
  {
    InvTimers(s);
    InvSound(s);
    SoundShape(s.book);
    TypedAt(s.book, i);
    hide Inv, Shape, TimersOk, Sound;
    NothingPlanned(s, i, HalfWay);
    NothingPlanned(s, i, Ending);
    NothingPlanned(s, i, Reviewing);
    NothingPlanned(s, i, Refunding);
    UnplannedRests(s.book.objs[i]);
  }

  lemma UnplannedRests(t: Tx)
    requires TxOk(t) && t.registered && !Planned(t, HalfWay) && !Planned(t, Ending)
    requires !Planned(t, Reviewing) && !Planned(t, Refunding)
    ensures AtRest(t)
  {
  }

  lemma NothingPlanned(s: State, i: nat, a: ActKind)
    requires TimersOk(s) && (forall j :: 0 <= j < |s.timers| ==> s.timers[j].epoch != s.epoch)
    requires i < |s.book.objs|
    ensures !Planned(s.book.objs[i], a)
  {
    SumZero(s.timers, LiveOf(s.epoch, i, a));
    assert Queued(s, i, a) == Expected(s.book, i, a);
  }

  function FinalOf(epoch: nat): Timer -> int { (t: Timer) => if t.epoch == epoch && t.act.Final? then 1 else 0 }

  /** An upper bound on the timer steps of a drain: every timer, and a refund for every final step. */
  function Work(s: State): int { |s.timers| + SumBy(s.timers, FinalOf(s.epoch)) }

  lemma WorkNonNegative(s: State)
    ensures Work(s) >= |s.timers|
  {
    SumNonNegative(s.timers, FinalOf(s.epoch));
  }

  lemma {:induction false} EarliestTimer(timers: seq<Timer>) returns (j: nat)
    requires timers != []
    ensures IsNext(timers, j)
  {
    var n := |timers| - 1;
    if n == 0 {
      j := 0;
    } else {
      j := EarliestTimer(timers[..n]);
      assert forall k :: 0 <= k < n ==> timers[..n][k] == timers[k];
      if timers[n].due < timers[j].due { j := n; }
    }
  }

  lemma FireWorks(s: State, j: nat, at: nat)
    requires Timed(s) && IsNext(s.timers, j) && at >= s.now && at >= s.timers[j].due
    ensures Work(ApplyFire(s, j, at)) < Work(s)
  {
    hide Timed, SumBy, RunAct, Owes, TxAfter, Ready;
    var f := FinalOf(s.epoch);
    SumRemove(s.timers, j, f);
    if s.timers[j].epoch == s.epoch {
      TimerReady(s, j);
      var act := s.timers[j].act;
      ActDoes(s.book, act);
      var added := Schedule(at, s.epoch, LaterAfter(s.book, act));
      SumConcat(Without(s.timers, j), added, f);
      SumZero(added, f);
    }
  }

  /** With no timer of the current epoch left, and in whatever order they fired: every registered payment is
      completed, in review, or a purchase the payer funded that failed to vend. */
  predicate Closed(t: Tx)
  {
    t.completed || t.review || (t.key.kind == Utility && t.funding == FromPayer && t.failure.Some?)
  }

  lemma DrainedCloses(s: State, i: nat)
    requires Sturdy(s) && (forall j :: 0 <= j < |s.timers| ==> s.timers[j].epoch != s.epoch)
    requires i < |s.book.objs| && s.book.objs[i].registered
    ensures Closed(s.book.objs[i])
  {
    SturdyParts(s);
    hide Sturdy, Ground, Balanced, SumBy, Load;
    SumZero(s.timers, LiveOf(s.epoch, i, Ending));
    SumZero(s.timers, LiveOf(s.epoch, i, Refunding));
    assert Queued(s, i, Ending) == Calls(s.book, i, Ending) && Queued(s, i, Refunding) == Calls(s.book, i, Refunding);
    assert FixedTx(s.book.objs[i]);
  }

  /** The queue can always be drained, by at most Work(s) timer steps, and then every registered payment is
      closed; where the timers of a payment stay in order, its status is at rest. */
  lemma Drain(s: State) returns (steps: seq<Step>)
    requires Sturdy(s)
    ensures |steps| <= Work(s) && (forall n :: 0 <= n < |steps| ==> steps[n].Fire?)
    ensures var t := Run(s, steps);
            && Sturdy(t) && t.timers == [] && (Inv(s) ==> Inv(t))
            && (forall i :: 0 <= i < |t.book.objs| && t.book.objs[i].registered ==> Closed(t.book.objs[i]))
            && (Inv(s) ==> forall i :: 0 <= i < |t.book.objs| && t.book.objs[i].registered ==> AtRest(t.book.objs[i]))
    decreases Work(s)
  {
    hide Inv, Sturdy, Timed, Apply, Work, AtRest, Closed;
    WorkNonNegative(s);
    if s.timers == [] {
      steps := [];
      forall i | 0 <= i < |s.book.objs| && s.book.objs[i].registered
        ensures Closed(s.book.objs[i]) && (Inv(s) ==> AtRest(s.book.objs[i]))
      {
        DrainedCloses(s, i);
        if Inv(s) { DrainedAtRest(s, i); }
      }
    } else {
      var j := EarliestTimer(s.timers);
      var at := if s.timers[j].due > s.now then s.timers[j].due else s.now;
      SturdyTimed(s);
      FireWorks(s, j, at);
      FireIsApplied(s, j, at);
      StepSturdy(s, Fire(j, at));
      if Inv(s) { StepKeeps(s, Fire(j, at)); }
      var rest := Drain(Apply(s, Fire(j, at)));
      steps := [Fire(j, at)] + rest;
      RunFirst(s, Fire(j, at), rest);
    }
  }

  lemma SturdyTimed(s: State)
    requires Sturdy(s)
    ensures Timed(s)
  {
  }

  /* Payments that never complete */

  /** A payout in review, or a purchase the payer funded that failed to vend. */
  predicate Stuck(t: Tx)
  {
    && t.registered && !t.completed
    && (t.review || (t.key.kind == Utility && t.funding == FromPayer && t.failure.Some?))
  }

  lemma EffectedPlan(b: Book, c: Book, later: seq<Later>, e: Effect, i: nat)
    requires Effected(b, c, later, e) && i < |b.objs| && b.objs[i].registered
    ensures i < |c.objs| && SamePlan(b.objs[i], c.objs[i])
  {
  }

  lemma SamePlanSame(b: Book, c: Book, i: nat)
    requires c.objs == b.objs && i < |b.objs|
    ensures SamePlan(b.objs[i], c.objs[i])
  {
  }

  /** What a step does to one registered payment: what its timer does, if it is one of its timers, and nothing
      but settling it out otherwise. */
  lemma StepTouches(s: State, step: Step, i: nat)
    requires Sturdy(s) && !step.Reset? && i < |s.book.objs| && s.book.objs[i].registered
    ensures var c := Apply(s, step).book;
            && i < |c.objs|
            && (FiresFor(s, step, i) ==> c.objs[i] == TxAfter(s.book, s.timers[step.timer].act))
            && (!FiresFor(s, step, i) ==> SamePlan(s.book.objs[i], c.objs[i]))
  {
    hide Sturdy, SamePlan, TxAfter, Apply, ApplyAdvance, ApplyFire, FiresLive;
    match step
    case Fire(j, at) =>
      FireIsApplied(s, j, at);
      FireTouches(s, j, at, i);
    case PostCall(_, _, _, _, _, _) => PostTouches(s, step, i);
    case Advance(n) =>
      AdvanceIsApplied(s, n);
      AdvanceTouches(s, n, i);
    case _ =>
      QuietStep(s, step);
      SamePlanSame(s.book, Apply(s, step).book, i);
  }

  lemma PostTouches(s: State, step: Step, i: nat)
    requires step.PostCall? && i < |s.book.objs| && s.book.objs[i].registered
    ensures i < |Apply(s, step).book.objs| && SamePlan(s.book.objs[i], Apply(s, step).book.objs[i])
  {
    SamePlanSame(s.book, s.book, i);
    hide SamePlan, Effected, FirstSegment, IdemKey;
    var g := FirstSegment(s.book, step.cred, step.endpoint, step.body);
    FirstSegmentOk(s.book, step.cred, step.endpoint, step.body);
    EffectedPlan(s.book, g.book, g.later, SegmentEffect(s.book, Nothing, g), i);
  }

  lemma AdvanceTouches(s: State, n: nat, i: nat)
    requires Sturdy(s) && i < |s.book.objs| && s.book.objs[i].registered
    ensures i < |ApplyAdvance(s, n).book.objs| && SamePlan(s.book.objs[i], ApplyAdvance(s, n).book.objs[i])
  {
    SamePlanSame(s.book, s.book, i);
    SturdyParts(s);
    hide Sturdy, Ground, Balanced, Fixed, Timed, SamePlan, Effected, NextSegment, Holdable;
    if n < |s.calls| {
      var g := NextSegment(s.book, s.calls[n]);
      if Waits(s.calls[n].phase).Holds? { WaitingHoldable(s, n); }
      NextSegmentOk(s.book, s.calls[n]);
      EffectedPlan(s.book, g.book, g.later, SegmentEffect(s.book, Waits(s.calls[n].phase), g), i);
    }
  }

  lemma FireTouches(s: State, j: nat, at: nat, i: nat)
    requires Sturdy(s) && i < |s.book.objs|
    ensures var c := ApplyFire(s, j, at).book;
            && i < |c.objs| && c.config == s.book.config
            && (FiresFor(s, Fire(j, at), i) ==> c.objs[i] == TxAfter(s.book, s.timers[j].act))
            && (!FiresFor(s, Fire(j, at), i) ==> SamePlan(s.book.objs[i], c.objs[i]))
  {
    SamePlanSame(s.book, s.book, i);
    SturdyTimed(s);
    hide Sturdy, Timed, RunAct, TxAfter, SamePlan, Ready;
    if FiresLive(s, j, at) {
      TimerReady(s, j);
      ActDoes(s.book, s.timers[j].act);
    }
  }

  /** The timer that fires for a payment finds it ready. */
  lemma FiresReady(s: State, step: Step, i: nat)
    requires Sturdy(s) && FiresFor(s, step, i)
    ensures i < |s.book.objs| && s.book.objs[i].registered && Ready(s.book.objs[i], s.timers[step.timer].act)
    ensures FixedTx(s.book.objs[i])
  {
    SturdyParts(s);
    hide Sturdy, Ground, Balanced, Timed, Ready, FixedTx;
    TimerReady(s, step.timer);
  }

  /** A registered payment gets stuck exactly by the final step of a purchase the payer funds, under a
      configuration that fails it; and once stuck it stays so. */
  lemma StrandsExactly(s: State, step: Step, i: nat)
    requires Sturdy(s) && !step.Reset? && i < |s.book.objs| && s.book.objs[i].registered
    ensures var t, c := s.book.objs[i], Apply(s, step).book;
            && i < |c.objs|
            && (Stuck(c.objs[i]) <==>
                  || Stuck(t)
                  || (FiresFor(s, step, i) && s.timers[step.timer].act.Final?
                      && t.key.kind == Utility && t.funding == FromPayer && !s.book.config.othersSucceed))
  {
    StepTouches(s, step, i);
    hide Sturdy, Apply, FiresFor, Stuck, SamePlan, TxAfter, Ready, FixedTx;
    if FiresFor(s, step, i) {
      FiresReady(s, step, i);
      FiresObj(s, step, i);
      StuckAfter(s.book, s.timers[step.timer].act);
    } else {
      StuckSame(s.book.objs[i], Apply(s, step).book.objs[i]);
    }
  }

  lemma FiresObj(s: State, step: Step, i: nat)
    requires FiresFor(s, step, i)
    ensures s.timers[step.timer].act.obj == i
  {
  }

  lemma StuckSame(t: Tx, u: Tx)
    requires SamePlan(t, u)
    ensures Stuck(u) <==> Stuck(t)
  {
  }

  lemma StuckAfter(b: Book, act: Act)
    requires act.obj < |b.objs| && Ready(b.objs[act.obj], act) && FixedTx(b.objs[act.obj]) && b.objs[act.obj].registered
    ensures var t := b.objs[act.obj];
            Stuck(TxAfter(b, act)) <==>
              || Stuck(t)
              || (act.Final? && t.key.kind == Utility && t.funding == FromPayer && !b.config.othersSucceed)
  {
  }

  lemma {:induction false} StuckStays(s: State, steps: seq<Step>, i: nat)
    requires Sturdy(s) && Idempotency.NoReset(steps) && i < |s.book.objs| && Stuck(s.book.objs[i])
    ensures var t := Run(s, steps);
            Sturdy(t) && i < |t.book.objs| && Stuck(t.book.objs[i])
  {
    hide Sturdy, Apply, FiresFor;
    if steps != [] {
      var init, last := steps[..|steps| - 1], steps[|steps| - 1];
      StuckStays(s, init, i);
      StrandsExactly(Run(s, init), last, i);
      StepSturdy(Run(s, init), last);
    }
  }

  /** Timer steps under a configuration that lets purchases succeed strand nothing. */
  lemma {:induction false} Unstranded(s: State, steps: seq<Step>, i: nat)
    requires Sturdy(s) && (forall n :: 0 <= n < |steps| ==> steps[n].Fire?) && s.book.config.othersSucceed
    requires i < |s.book.objs| && s.book.objs[i].registered && !Stuck(s.book.objs[i])
    ensures var t := Run(s, steps);
            && Sturdy(t) && t.book.config.othersSucceed
            && i < |t.book.objs| && t.book.objs[i].registered && !Stuck(t.book.objs[i])
  {
    hide Sturdy, Apply, FiresFor, Stuck;
    if steps != [] {
      var init, last := steps[..|steps| - 1], steps[|steps| - 1];
      Unstranded(s, init, i);
      var t := Run(s, init);
      StrandsExactly(t, last, i);
      StepRegistered(t, last, i);
      StepSturdy(t, last);
      FireIsApplied(t, last.timer, last.at);
      FireTouches(t, last.timer, last.at, i);
    }
  }

  /** Any other payment can still complete. */
  lemma Completes(s: State, i: nat) returns (steps: seq<Step>)
    requires Sturdy(s) && i < |s.book.objs| && s.book.objs[i].registered && !Stuck(s.book.objs[i])
    ensures Idempotency.NoReset(steps)
    ensures var b := Run(s, steps).book;
            i < |b.objs| && b.objs[i].completed
  {
    hide *;
    var c := s.book.config.(othersSucceed := true);
    PatchPlain(s, c);
    StepSturdy(s, Patch(c));
    var fires := Finishes(Apply(s, Patch(c)), i);
    steps := [Patch(c)] + fires;
    RunFirst(s, Patch(c), fires);
    FiresReset(Patch(c), fires);
  }

  lemma FiresReset(first: Step, fires: seq<Step>)
    requires !first.Reset? && forall n :: 0 <= n < |fires| ==> fires[n].Fire?
    ensures Idempotency.NoReset([first] + fires)
  {
  }

  /** Draining the queue is enough, under a configuration that lets purchases succeed. */
  lemma Finishes(s: State, i: nat) returns (fires: seq<Step>)
    requires Sturdy(s) && s.book.config.othersSucceed
    requires i < |s.book.objs| && s.book.objs[i].registered && !Stuck(s.book.objs[i])
    ensures forall n :: 0 <= n < |fires| ==> fires[n].Fire?
    ensures var b := Run(s, fires).book;
            i < |b.objs| && b.objs[i].completed
  {
    hide *;
    fires := Drain(s);
    Unstranded(s, fires, i);
    ClosedCompletes(Run(s, fires).book.objs[i]);
  }

  lemma PatchPlain(s: State, c: Config)
    ensures Apply(s, Patch(c)).book.objs == s.book.objs && Apply(s, Patch(c)).book.config == c
  {
  }

  lemma ClosedCompletes(t: Tx)
    requires Closed(t) && t.registered && !Stuck(t)
    ensures t.completed
  {
  }

  /** Until a reset, a registered payment is not completed whatever happens, exactly if it is a payout in review
      or a purchase the payer funded that failed to vend. */
  lemma NeverCompletesExactly(s: State, i: nat)
    requires Sturdy(s) && i < |s.book.objs| && s.book.objs[i].registered
    ensures Stuck(s.book.objs[i]) <==> forall steps :: Idempotency.NoReset(steps) ==> StillOpen(Run(s, steps), i)
  {
    hide Sturdy, Stuck, Run;
    if Stuck(s.book.objs[i]) {
      forall steps | Idempotency.NoReset(steps) ensures StillOpen(Run(s, steps), i) {
        StuckStays(s, steps, i);
        StuckOpen(Run(s, steps).book.objs[i]);
      }
    } else {
      var steps := Completes(s, i);
      assert !StillOpen(Run(s, steps), i);
    }
  }

  predicate StillOpen(s: State, i: nat) { i < |s.book.objs| && !s.book.objs[i].completed }

  lemma StuckOpen(t: Tx)
    requires Stuck(t)
    ensures !t.completed
  {
  }

  /** Where timers stay in order, such a payment also keeps its unfinished status: in review, or failed. */
  lemma {:induction false} StuckForever(s: State, steps: seq<Step>, i: nat)
    requires Inv(s) && Idempotency.NoReset(steps) && StepsWellFormed(steps)
    requires i < |s.book.objs| && s.book.objs[i].registered && AtRest(s.book.objs[i]) && !IsFinal(s.book.objs[i])
    ensures var t := Run(s, steps);
            && Inv(t) && i < |t.book.objs| && t.book.objs[i].registered
            && t.book.objs[i].status == s.book.objs[i].status && AtRest(t.book.objs[i]) && !IsFinal(t.book.objs[i])
  {
    hide Inv, Apply;
    if steps != [] {
      var init, last := steps[..|steps| - 1], steps[|steps| - 1];
      StuckForever(s, init, i);
      StepMoves(Run(s, init), last);
      StepKeeps(Run(s, init), last);
      assert Moves(Run(s, init).book.objs[i], Apply(Run(s, init), last).book.objs[i]);
    }
  }
}
