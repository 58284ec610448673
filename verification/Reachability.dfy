/** The invariant of every run whose delays keep the two timers of a payment in order: on top of balanced books,
    statuses tell how payments came out and each payment has exactly the timers its status calls for, in the
    right order. */
module Reachability {
  import opened Money
  import opened Domain
  import opened Operations
  import opened Accounting
  import opened BookInvariants
  import opened Shapes
  import opened Protocol
  import opened Segments
  import opened Groundwork
  import opened Bookkeeping
  import opened Sums

  function Expected(b: Book, i: nat, a: ActKind): int { if i < |b.objs| && Planned(b.objs[i], a) then 1 else 0 }

  /** The half-way and the final timer of one payment of the current epoch. */
  predicate PairOf(t: Timer, u: Timer, epoch: nat)
  {
    t.epoch == u.epoch == epoch && t.act.Half? && u.act.Final? && t.act.obj == u.act.obj
  }

  /** A payment's half-way timer precedes its final one, in the queue and in time. */
  predicate Ordered(timers: seq<Timer>, epoch: nat)
  {
    forall j, k :: 0 <= j < |timers| && 0 <= k < |timers| && PairOf(timers[j], timers[k], epoch) ==>
      j < k && timers[j].due <= timers[k].due
  }

  ghost predicate TimersOk(s: State)
  {
    (forall i: nat, a :: Queued(s, i, a) == Expected(s.book, i, a)) && Ordered(s.timers, s.epoch)
  }

  ghost predicate Inv(s: State) { Sturdy(s) && Sound(s.book) && TimersOk(s) }

  /* Timers of a segment */

  lemma LaterCounts(later: seq<Later>, k: nat, t: Tx, config: Config, i: nat, a: ActKind)
    requires Begun(t) && LaterOk(later, k, t, config)
    ensures KindsIn(later, i, a) == if i == k && Planned(t, a) then 1 else 0
  {
    LaterKinds(later, k, t, config, i, a);
  }

  lemma ExpectedMoves(b: Book, c: Book, later: seq<Later>, e: Effect, i: nat, a: ActKind)
    requires Effected(b, c, later, e)
    ensures Expected(c, i, a) == Expected(b, i, a) + KindsIn(later, i, a)
  {
    match e
    case Nothing =>
    case Holds(k) =>
    case Registers(k) =>
      LaterCounts(later, k, c.objs[k], b.config, i, a);
      if i == k {
        assert !(i < |b.objs| && b.objs[i].registered);
      }
  }

  /** A timer of a payment in the queue is one the payment expects. */
  lemma TimerExpected(s: State, j: nat)
    requires TimersOk(s) && j < |s.timers| && s.timers[j].epoch == s.epoch
    ensures Expected(s.book, s.timers[j].act.obj, KindOfAct(s.timers[j].act)) == 1
  {
    hide Expected, SumBy;
    var t := s.timers[j];
    var f := LiveOf(s.epoch, t.act.obj, KindOfAct(t.act));
    SumAtLeastOne(s.timers, j, f);
    assert Queued(s, t.act.obj, KindOfAct(t.act)) == Expected(s.book, t.act.obj, KindOfAct(t.act));
    ExpectedBound(s.book, t.act.obj, KindOfAct(t.act));
  }

  lemma ExpectedBound(b: Book, i: nat, a: ActKind)
    ensures 0 <= Expected(b, i, a) <= 1
  {
  }

  lemma AbsorbOrdered(s: State, g: Segment, e: Effect)
    requires TimersOk(s) && Effected(s.book, g.book, g.later, e) && WellFormed(s.book.config)
    ensures Ordered(Absorb(s, g).timers, s.epoch)
  {
    var ts, n := Absorb(s, g).timers, |s.timers|;
    forall j, k | 0 <= j < |ts| && 0 <= k < |ts| && PairOf(ts[j], ts[k], s.epoch)
      ensures j < k && ts[j].due <= ts[k].due
    {
      if j < n && k < n {
        assert PairOf(s.timers[j], s.timers[k], s.epoch);
      } else {
        var i := ts[j].act.obj;
        assert e == Registers(i) by { NewTimersAreFor(s, g, e, if j < n then k else j); }
        if j < n { TimerExpected(s, j); }
        if k < n { TimerExpected(s, k); }
      }
    }
  }

  lemma NewTimersAreFor(s: State, g: Segment, e: Effect, j: nat)
    requires Effected(s.book, g.book, g.later, e)
    requires |s.timers| <= j < |Absorb(s, g).timers|
    ensures e == Registers(Absorb(s, g).timers[j].act.obj)
  {
    var t := Absorb(s, g).timers[j];
    assert t == Schedule(s.now, s.epoch, g.later)[j - |s.timers|];
  }

  lemma AbsorbTimers(s: State, g: Segment, e: Effect)
    requires TimersOk(s) && Effected(s.book, g.book, g.later, e) && WellFormed(s.book.config)
    ensures TimersOk(Absorb(s, g))
  {
    AbsorbOrdered(s, g, e);
    hide Effected, Ordered, SumBy;
    forall i: nat, a ensures Queued(Absorb(s, g), i, a) == Expected(g.book, i, a) {
      ScheduleMoves(s, g.later, i, a);
      ExpectedMoves(s.book, g.book, g.later, e, i, a);
      assert Queued(s, i, a) == Expected(s.book, i, a);
    }
  }

  /* Firing a timer */

  /** The next timer of the queue finds its payment in the status it was scheduled for. */
  lemma FireFits(s: State, j: nat)
    requires TimersOk(s) && IsNext(s.timers, j) && s.timers[j].epoch == s.epoch
    ensures s.timers[j].act.obj < |s.book.objs| && Fits(s.book.objs[s.timers[j].act.obj], s.timers[j].act)
  {
    var act := s.timers[j].act;
    var i := act.obj;
    TimerExpected(s, j);
    if act.Final? && s.book.objs[i].status == Accepted {
      assert Queued(s, i, HalfWay) == Expected(s.book, i, HalfWay) == 1;
      var k := SumWitness(s.timers, LiveOf(s.epoch, i, HalfWay));
      assert PairOf(s.timers[k], s.timers[j], s.epoch);
      assert false;
    }
  }

  lemma NoKinds(i: nat, a: ActKind)
    ensures KindsIn([], i, a) == 0
  {
  }

  lemma RefundKindOf(i: nat)
    ensures KindOfAct(Refund(i)) == Refunding
  {
  }

  /** A timer step uses up the timer it is for; what it plans anew can only be a refund. */
  lemma PlanMoves(b: Book, act: Act, u: Tx, a: ActKind)
    requires act.obj < |b.objs| && Fits(b.objs[act.obj], act) && u.status == StatusAfter(b, act)
    requires var t := b.objs[act.obj];
             u.registered && u.key == t.key && u.funding == t.funding && u.review == t.review
    ensures var t := b.objs[act.obj];
            (if Planned(u, a) then 1 else 0) == (if Planned(t, a) then 1 else 0) - (if a == KindOfAct(act) then 1 else 0)
                                                 + (if a == Refunding && Planned(u, Refunding) then 1 else 0)
  {
  }

  lemma ActMoves(b: Book, act: Act, i: nat, a: ActKind)
    requires act.obj < |b.objs| && Fits(b.objs[act.obj], act)
    ensures var (c, later) := RunAct(b, act);
            && |c.objs| == |b.objs| && c.config == b.config
            && Expected(c, i, a) == Expected(b, i, a) - (if i == act.obj && a == KindOfAct(act) then 1 else 0)
                                    + KindsIn(later, i, a)
  {
    hide RunAct, Fits, StatusAfter, Planned, KindsIn, KindOfAct;
    var (c, later) := RunAct(b, act);
    ActStep(b, act);
    PlanMoves(b, act, c.objs[act.obj], a);
    if later != [] {
      assert later == [later[0]];
      KindsOne(later[0], i, a);
    }
    NoKinds(i, a);
    assert KindOfAct(Refund(act.obj)) == Refunding by { RefundKindOf(act.obj); }
  }

  /** The status a timer step moves its payment to. */
  function StatusAfter(b: Book, act: Act): Status
    requires act.obj < |b.objs|
  {
    var t := b.objs[act.obj];
    match act
    case Half(_) => HalfStatus(t)
    case Review(_) => InReview
    case Refund(_) => Refunded
    case Final(_, _) =>
      match t.key.kind
      case Collection | Transfer => if t.outcome == Succeeds then Settled else Failed
      case Payout => if t.outcome == Succeeds then Delivered else Failed
      case Utility => if b.config.othersSucceed then Delivered else Failed
  }

  /** c is b with one payment moved to a status; a refund is scheduled exactly if it is now planned. */
  predicate Stepped(b: Book, c: Book, later: seq<Later>, i: nat, status: Status)
  {
    && i < |b.objs| && |c.objs| == |b.objs| && c.config == b.config
    && c.objs == b.objs[i := c.objs[i]]
    && c.objs[i].key == b.objs[i].key && c.objs[i].registered && c.objs[i].status == status
    && c.objs[i].funding == b.objs[i].funding && c.objs[i].review == b.objs[i].review
    && (later == [] || (|later| == 1 && later[0].act == Refund(i)))
    && (later != [] <==> Planned(c.objs[i], Refunding))
  }

  /** A timer step changes one payment, and may only schedule its refund. */
  lemma ActStep(b: Book, act: Act)
    requires act.obj < |b.objs| && Fits(b.objs[act.obj], act)
    ensures var (c, later) := RunAct(b, act);
            Stepped(b, c, later, act.obj, StatusAfter(b, act))
  {
    ActDoes(b, act);
    hide RunAct;
  }

  lemma WithoutOrdered(timers: seq<Timer>, epoch: nat, j: nat)
    requires Ordered(timers, epoch) && j < |timers|
    ensures Ordered(Without(timers, j), epoch)
  {
    var ts := Without(timers, j);
    forall m, n | 0 <= m < |ts| && 0 <= n < |ts| && PairOf(ts[m], ts[n], epoch)
      ensures m < n && ts[m].due <= ts[n].due
    {
      var m0, n0 := if m < j then m else m + 1, if n < j then n else n + 1;
      assert ts[m] == timers[m0] && ts[n] == timers[n0];
    }
  }

  lemma RefundOrdered(s: State, later: seq<Later>, i: nat)
    requires Ordered(s.timers, s.epoch)
    requires later == [] || (|later| == 1 && later[0].act == Refund(i))
    ensures Ordered(s.timers + Schedule(s.now, s.epoch, later), s.epoch)
  {
    var ts := s.timers + Schedule(s.now, s.epoch, later);
    forall m, n | 0 <= m < |ts| && 0 <= n < |ts| && PairOf(ts[m], ts[n], s.epoch)
      ensures m < n && ts[m].due <= ts[n].due
    {
      assert PairOf(s.timers[m], s.timers[n], s.epoch);
    }
  }

  lemma StaleFire(s: State, j: nat, at: nat)
    requires TimersOk(s) && j < |s.timers| && s.timers[j].epoch != s.epoch
    ensures TimersOk(s.(now := at, timers := Without(s.timers, j)))
  {
    WithoutOrdered(s.timers, s.epoch, j);
    hide Ordered, SumBy, Expected;
    forall i: nat, a ensures SumBy(Without(s.timers, j), LiveOf(s.epoch, i, a)) == Expected(s.book, i, a) {
      assert Queued(s, i, a) == Expected(s.book, i, a);
      SumRemove(s.timers, j, LiveOf(s.epoch, i, a));
    }
  }

  lemma LiveFire(s: State, j: nat, at: nat)
    requires TimersOk(s) && IsNext(s.timers, j) && s.timers[j].epoch == s.epoch
    ensures var (b, later) := RunAct(s.book, s.timers[j].act);
            var s1 := s.(now := at, timers := Without(s.timers, j));
            TimersOk(Absorb(s1, Segment(b, later, Broke)))
  {
    var act := s.timers[j].act;
    var (b, later) := RunAct(s.book, act);
    var s1 := s.(now := at, timers := Without(s.timers, j));
    FireFits(s, j);
    ActStep(s.book, act);
    WithoutOrdered(s.timers, s.epoch, j);
    RefundOrdered(s1, later, act.obj);
    hide Ordered, SumBy, Expected, RunAct;
    forall i: nat, a ensures Queued(Absorb(s1, Segment(b, later, Broke)), i, a) == Expected(b, i, a) {
      assert Queued(s, i, a) == Expected(s.book, i, a);
      SumRemove(s.timers, j, LiveOf(s.epoch, i, a));
      ScheduleMoves(s1, later, i, a);
      ActMoves(s.book, act, i, a);
    }
  }

  /* Steps */

  lemma InvSound(s: State)
    requires Inv(s)
    ensures Sound(s.book)
  {
  }

  lemma InvTimers(s: State)
    requires Inv(s)
    ensures TimersOk(s)
  {
  }

  lemma InvGround(s: State)
    requires Inv(s)
    ensures Sturdy(s) && Ground(s) && CallsOk(s)
  {
    SturdyParts(s);
    GroundParts(s);
    hide Ground, Grounded, Sound, TimersOk, Sturdy;
  }

  lemma SoundConfig(b: Book)
    requires Sound(b)
    ensures WellFormed(b.config)
  {
    hide Shape;
  }

  /** The timers' part of the invariant reads the payments, the timers and the epoch only. */
  lemma SameTimers(s: State, t: State)
    requires TimersOk(s) && t.book.objs == s.book.objs && t.timers == s.timers && t.epoch == s.epoch
    ensures TimersOk(t)
  {
    hide SumBy, Ordered, Planned;
    forall i: nat, a ensures Queued(t, i, a) == Expected(t.book, i, a) {
      assert Queued(s, i, a) == Expected(s.book, i, a);
    }
  }

  /** A stretch of a call leaves the timers its payments call for. */
  lemma SegmentTimers(s: State, t: State, g: Segment, e: Effect)
    requires TimersOk(s) && Sound(s.book) && SegmentOk(s.book, g, e)
    requires t.book == g.book && t.timers == s.timers + Schedule(s.now, s.epoch, g.later) && t.epoch == s.epoch
    ensures TimersOk(t)
  {
    SoundConfig(s.book);
    hide Sound, TimersOk, Effected;
    AbsorbTimers(s, g, e);
    SameTimers(Absorb(s, g), t);
  }

  lemma PostTimers(s: State, cred: Name, key: string, endpoint: Endpoint, body: Body, crash: bool, lost: bool)
    requires TimersOk(s) && Sound(s.book)
    ensures var t := ApplyPost(s, cred, key, endpoint, body, crash, lost);
            Sound(t.book) && TimersOk(t)
  {
    hide TimersOk, Sound, FirstSegment, SegmentOk, IdemKey;
    FirstSegmentOk(s.book, cred, endpoint, body);
    FirstSegmentSound(s.book, cred, endpoint, body);
    var g := FirstSegment(s.book, cred, endpoint, body);
    var t := ApplyPost(s, cred, key, endpoint, body, crash, lost);
    if t.calls[|s.calls|].ran && !crash {
      SegmentTimers(s, t, g, SegmentEffect(s.book, Nothing, g));
    } else {
      SameTimers(s, t);
    }
  }

  lemma AdvanceTimers(s: State, i: nat)
    requires Inv(s)
    ensures Sound(ApplyAdvance(s, i).book) && TimersOk(ApplyAdvance(s, i))
  {
    InvGround(s);
    InvTimers(s);
    InvSound(s);
    SturdyParts(s);
    hide Inv, Ground, Sturdy, Fixed, CallsOk, TimersOk, Sound, NextSegment, SegmentOk, Holdable;
    if i < |s.calls| {
      var c, g := s.calls[i], NextSegment(s.book, s.calls[i]);
      if Waits(c.phase).Holds? {
        WaitingUnregistered(s, i);
        WaitingHoldable(s, i);
      }
      NextSegmentOk(s.book, c);
      NextSegmentSound(s.book, c);
      SegmentTimers(s, ApplyAdvance(s, i), g, SegmentEffect(s.book, Waits(c.phase), g));
    }
  }

  lemma FireTimers(s: State, j: nat, at: nat)
    requires TimersOk(s) && Sound(s.book)
    ensures Sound(ApplyFire(s, j, at).book) && TimersOk(ApplyFire(s, j, at))
  {
    hide Sound, TimersOk, RunAct;
    if IsNext(s.timers, j) && at >= s.now && at >= s.timers[j].due {
      if s.timers[j].epoch != s.epoch {
        StaleFire(s, j, at);
      } else {
        LiveFire(s, j, at);
        FireFits(s, j);
        ActSound(s.book, s.timers[j].act);
      }
    }
  }

  lemma ActSound(b: Book, act: Act)
    requires Sound(b) && act.obj < |b.objs| && Fits(b.objs[act.obj], act)
    ensures Sound(RunAct(b, act).0)
  {
    hide Shape, RunAct, Fits;
    ActShape(b, act);
    ActDoes(b, act);
  }

  /** The controls keep the books sound and touch no payment. */
  lemma ControlSound(b: Book, step: Step)
    requires Sound(b) && StepWellFormed(step) && (step.Touch? || step.Balance? || step.Patch? || step.DropPolicy?)
    ensures var c := match step
                     case Touch(cred) => EnsureWallet(b, cred)
                     case Balance(cred, amount) => SetBalance(b, cred, amount)
                     case Patch(config) => b.(config := config)
                     case _ => b.(policy := None);
            Sound(c) && c.objs == b.objs
  {
    hide Shape, SetBalance, EnsureWallet;
    match step
    case Touch(cred) =>
      EnsuredShape(b, cred);
      EnsurePlain(b, cred);
    case Balance(cred, amount) =>
      SetBalanceShape(b, cred, amount);
      SetBalancePlain(b, cred, amount);
    case Patch(config) => SameShapeKeeps(b, b.(config := config));
    case _ => SameShapeKeeps(b, b.(policy := None));
  }

  lemma ControlTimers(s: State, step: Step)
    requires TimersOk(s) && Sound(s.book) && StepWellFormed(step)
    requires step.Touch? || step.Balance? || step.Patch? || step.DropPolicy? || step.Tick?
    ensures Sound(Apply(s, step).book) && TimersOk(Apply(s, step))
  {
    if !step.Tick? { ControlSound(s.book, step); }
    hide Sound, TimersOk, SetBalance, EnsureWallet;
    SameTimers(s, Apply(s, step));
  }

  lemma FreshSound(c: Config)
    requires WellFormed(c)
    ensures Sound(FreshBook(c))
  {
  }

  lemma EmptyTimers(s: State)
    requires s.book == FreshBook(s.book.config) && forall j :: 0 <= j < |s.timers| ==> s.timers[j].epoch < s.epoch
    ensures TimersOk(s)
  {
    forall i: nat, a ensures Queued(s, i, a) == Expected(s.book, i, a) {
      SumZero(s.timers, LiveOf(s.epoch, i, a));
    }
  }

  lemma ResetTimers(s: State, c: Config)
    requires EpochsOk(s) && WellFormed(c) && Idle(s)
    ensures Sound(ApplyReset(s, c).book) && TimersOk(ApplyReset(s, c))
  {
    FreshSound(c);
    hide Sound, TimersOk;
    EmptyTimers(ApplyReset(s, c));
  }

  lemma StepKeeps(s: State, step: Step)
    requires Inv(s) && StepWellFormed(step)
    ensures Inv(Apply(s, step))
  {
    InvParts(s);
    StepSturdy(s, step);
    hide Sturdy, Ground, Grounded, CallsOk, Sound, TimersOk, ApplyPost, ApplyAdvance, ApplyFinish, ApplyFire, SetBalance, EnsureWallet;
    match step
    case PostCall(cred, key, endpoint, body, crash, lost) => PostTimers(s, cred, key, endpoint, body, crash, lost);
    case Advance(i) => AdvanceTimers(s, i);
    case Finish(i, lost) =>
      FinishPlain(s, i, lost);
      SameTimers(s, ApplyFinish(s, i, lost));
    case Fire(j, at) => FireTimers(s, j, at);
    case Reset(config) => if Idle(s) { ResetTimers(s, config); }
    case _ => ControlTimers(s, step);
  }

  lemma InvParts(s: State)
    requires Inv(s)
    ensures EpochsOk(s) && Sturdy(s) && Sound(s.book) && TimersOk(s)
  {
    SturdyParts(s);
    GroundParts(s);
    hide Ground, Grounded, Sturdy, Sound, TimersOk;
  }

  /** Every run from a fresh simulator keeps the invariant. */
  lemma {:induction false} RunKeeps(c: Config, now: nat, steps: seq<Step>)
    requires WellFormed(c) && StepsWellFormed(steps)
    ensures Inv(Run(Fresh(c, now), steps))
  {
    hide Inv, Apply;
    if steps == [] {
      FreshInv(c, now);
    } else {
      RunKeeps(c, now, steps[..|steps| - 1]);
      StepKeeps(Run(Fresh(c, now), steps[..|steps| - 1]), steps[|steps| - 1]);
    }
  }

  lemma FreshInv(c: Config, now: nat)
    requires WellFormed(c)
    ensures Inv(Fresh(c, now))
  {
    FreshSturdy(c, now);
    FreshSound(c);
    hide Sturdy, Sound, TimersOk;
    FreshTimers(c, now);
  }

  lemma FreshTimers(c: Config, now: nat)
    ensures TimersOk(Fresh(c, now))
  {
  }
}
