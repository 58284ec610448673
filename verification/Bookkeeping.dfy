/** What every run keeps of money, under any configurations and any order of the timers: balanced books, each
    open payment with exactly one final timer, each failed one that holds money with exactly one refund, and
    no payment with more than three timer steps ahead of it. */
module Bookkeeping {
  import opened Money
  import opened Domain
  import opened Operations
  import opened Accounting
  import opened BookInvariants
  import opened Shapes
  import opened Protocol
  import opened Segments
  import opened Groundwork
  import opened Sums

  /* Timers of the current epoch */

  function LiveOf(epoch: nat, i: nat, a: ActKind): Timer -> int
  {
    (t: Timer) => if t.epoch == epoch && t.act.obj == i && KindOfAct(t.act) == a then 1 else 0
  }

  function Queued(s: State, i: nat, a: ActKind): int { SumBy(s.timers, LiveOf(s.epoch, i, a)) }

  /** The final step of an open payment, or the refund of a failed one that holds money, is still to come. */
  predicate Called(t: Tx, a: ActKind)
  {
    && t.registered && !t.completed
    && match a
       case Ending => t.key.kind != Transfer && !t.review && t.failure.None?
       case Refunding => t.failure.Some? && (t.key.kind == Payout || (t.key.kind == Utility && t.funding == FromWallet))
       case _ => false
  }

  function Calls(b: Book, i: nat, a: ActKind): int { if i < |b.objs| && Called(b.objs[i], a) then 1 else 0 }

  predicate MovesMoney(a: ActKind) { a.Ending? || a.Refunding? }

  ghost predicate Charged(s: State)
  {
    forall i: nat, a :: MovesMoney(a) ==> Queued(s, i, a) == Calls(s.book, i, a)
  }

  /** The timer steps a payment can still take: a final step may be followed by a refund. */
  function Load(s: State, i: nat): int
  {
    Queued(s, i, HalfWay) + Queued(s, i, Reviewing) + 2 * Queued(s, i, Ending) + Queued(s, i, Refunding)
  }

  function Allowance(b: Book, i: nat): int { if i < |b.objs| && b.objs[i].registered then 3 else 0 }

  ghost predicate Loaded(s: State) { forall i: nat :: Load(s, i) <= Allowance(s.book, i) }

  ghost predicate Timed(s: State) { Charged(s) && Loaded(s) }

  /** Settlement, review and refund of a payment agree with how it came out. */
  predicate FixedTx(t: Tx)
  {
    && (!t.registered ==> Holdable(t))
    && (t.key.kind != Collection ==> t.settlement == NoSettlement)
    && (t.registered ==>
          && (t.key.kind == Collection ==> t.settlement in (if Fulfilled(t) then {Eligible, SettledOut} else {NotEligible}))
          && (t.key.kind == Transfer ==> Fulfilled(t))
          && (t.key.kind == Collection && t.failure.Some? ==> t.completed)
          && (t.review ==> t.key.kind == Payout && !t.completed && t.failure.None?)
          && (t.status == Refunded ==> Reversed(t)))
  }

  ghost predicate Fixed(b: Book) { forall i :: 0 <= i < |b.objs| ==> FixedTx(b.objs[i]) }

  ghost predicate Sturdy(s: State) { Ground(s) && Balanced(s.book) && Fixed(s.book) && Timed(s) }

  lemma SturdyParts(s: State)
    requires Sturdy(s)
    ensures Ground(s) && Balanced(s.book) && Fixed(s.book) && Timed(s)
  {
  }

  lemma PendingNonNegative(s: State, i: nat, a: ActKind)
    ensures Queued(s, i, a) >= 0
  {
    SumNonNegative(s.timers, LiveOf(s.epoch, i, a));
  }

  lemma ScheduleMoves(s: State, later: seq<Later>, i: nat, a: ActKind)
    ensures var ts := s.timers + Schedule(s.now, s.epoch, later);
            SumBy(ts, LiveOf(s.epoch, i, a)) == Queued(s, i, a) + KindsIn(later, i, a)
  {
    SumConcat(s.timers, Schedule(s.now, s.epoch, later), LiveOf(s.epoch, i, a));
    ScheduleCounts(s.now, s.epoch, later, i, a);
  }

  function KindsIn(later: seq<Later>, i: nat, a: ActKind): int
  {
    if later == [] then 0
    else
      KindsIn(later[..|later| - 1], i, a) +
      if later[|later| - 1].act.obj == i && KindOfAct(later[|later| - 1].act) == a then 1 else 0
  }

  lemma {:induction false} ScheduleCounts(now: nat, epoch: nat, later: seq<Later>, i: nat, a: ActKind)
    ensures SumBy(Schedule(now, epoch, later), LiveOf(epoch, i, a)) == KindsIn(later, i, a)
  {
    if later != [] {
      ScheduleCounts(now, epoch, later[..|later| - 1], i, a);
      var x := later[|later| - 1];
      SumAppend(Schedule(now, epoch, later[..|later| - 1]), Timer(now + Timeout(x.delay), epoch, x.act), LiveOf(epoch, i, a));
    }
  }

  lemma KindsOne(x: Later, i: nat, a: ActKind)
    ensures KindsIn([x], i, a) == if x.act.obj == i && KindOfAct(x.act) == a then 1 else 0
  {
    assert [x][..0] == [];
  }

  lemma KindsTwo(x: Later, y: Later, i: nat, a: ActKind)
    ensures KindsIn([x, y], i, a) == KindsIn([x], i, a) + KindsIn([y], i, a)
  {
    assert [x, y][..1] == [x];
    KindsOne(x, i, a);
    KindsOne(y, i, a);
  }

  /** The timers a registration schedules, by kind. */
  lemma LaterKinds(later: seq<Later>, k: nat, t: Tx, config: Config, i: nat, a: ActKind)
    requires LaterOk(later, k, t, config)
    ensures KindsIn(later, i, a) ==
            if i != k || t.key.kind == Transfer then 0
            else if t.review then (if a == Reviewing then 1 else 0)
            else if a in {HalfWay, Ending} then 1 else 0
  {
    var full := config.resolveDelayMs;
    KindsOne(Later(full, Review(k)), i, a);
    KindsOne(Later(full / 2, Half(k)), i, a);
    KindsOne(Later(full, Final(k, full / 2)), i, a);
    KindsTwo(Later(full / 2, Half(k)), Later(full, Final(k, full / 2)), i, a);
  }

  /* A stretch of a call */

  lemma EffectedFixed(b: Book, c: Book, later: seq<Later>, e: Effect)
    requires Fixed(b) && Effected(b, c, later, e)
    ensures Fixed(c)
  {
    forall i | 0 <= i < |c.objs| ensures FixedTx(c.objs[i]) {
      if i < |b.objs| && e != Registers(i) { assert FixedTx(b.objs[i]) && SamePlan(b.objs[i], c.objs[i]); }
    }
  }

  lemma EffectedCalls(b: Book, c: Book, later: seq<Later>, e: Effect, i: nat, a: ActKind)
    requires Effected(b, c, later, e) && MovesMoney(a)
    ensures Calls(c, i, a) == Calls(b, i, a) + KindsIn(later, i, a)
  {
    match e
    case Nothing =>
    case Holds(k) =>
    case Registers(k) =>
      LaterKinds(later, k, c.objs[k], b.config, i, a);
      if i == k {
        assert !(i < |b.objs| && b.objs[i].registered);
      }
  }

  function LoadIn(later: seq<Later>, i: nat): int
  {
    KindsIn(later, i, HalfWay) + KindsIn(later, i, Reviewing) + 2 * KindsIn(later, i, Ending) + KindsIn(later, i, Refunding)
  }

  lemma EffectedLoad(b: Book, c: Book, later: seq<Later>, e: Effect, i: nat)
    requires Effected(b, c, later, e)
    ensures Allowance(c, i) >= Allowance(b, i) + LoadIn(later, i)
  {
    match e
    case Nothing =>
    case Holds(k) =>
    case Registers(k) =>
      LaterKinds(later, k, c.objs[k], b.config, i, HalfWay);
      LaterKinds(later, k, c.objs[k], b.config, i, Reviewing);
      LaterKinds(later, k, c.objs[k], b.config, i, Ending);
      LaterKinds(later, k, c.objs[k], b.config, i, Refunding);
      if i == k {
        assert !(i < |b.objs| && b.objs[i].registered);
      }
  }

  lemma LoadMoves(s: State, later: seq<Later>, t: State, i: nat)
    requires t.timers == s.timers + Schedule(s.now, s.epoch, later) && t.epoch == s.epoch
    ensures Load(t, i) == Load(s, i) + LoadIn(later, i)
  {
    hide SumBy, KindsIn;
    ScheduleMoves(s, later, i, HalfWay);
    ScheduleMoves(s, later, i, Reviewing);
    ScheduleMoves(s, later, i, Ending);
    ScheduleMoves(s, later, i, Refunding);
  }

  lemma SegmentTimed(s: State, t: State, g: Segment, e: Effect)
    requires Timed(s) && Fixed(s.book) && SegmentOk(s.book, g, e)
    requires t.book == g.book && t.timers == s.timers + Schedule(s.now, s.epoch, g.later) && t.epoch == s.epoch
    ensures Timed(t) && Fixed(t.book)
  {
    EffectedFixed(s.book, g.book, g.later, e);
    hide Effected, Fixed, SumBy, Calls, Load, LoadIn, Allowance, KindsIn;
    forall i: nat, a | MovesMoney(a) ensures Queued(t, i, a) == Calls(t.book, i, a) {
      ScheduleMoves(s, g.later, i, a);
      EffectedCalls(s.book, g.book, g.later, e, i, a);
      assert Queued(s, i, a) == Calls(s.book, i, a);
    }
    forall i: nat ensures Load(t, i) <= Allowance(t.book, i) {
      LoadMoves(s, g.later, t, i);
      EffectedLoad(s.book, g.book, g.later, e, i);
      assert Load(s, i) <= Allowance(s.book, i);
    }
  }

  lemma SameTimed(s: State, t: State)
    requires Timed(s) && t.book.objs == s.book.objs && t.timers == s.timers && t.epoch == s.epoch
    ensures Timed(t)
  {
    hide SumBy, Called;
    forall i: nat, a | MovesMoney(a) ensures Queued(t, i, a) == Calls(t.book, i, a) {
      assert Queued(s, i, a) == Calls(s.book, i, a);
    }
    forall i: nat ensures Load(t, i) <= Allowance(t.book, i) { assert Load(s, i) <= Allowance(s.book, i); }
  }

  lemma StartBalanced(b: Book, cred: Name, endpoint: Endpoint, body: Body)
    requires Balanced(b)
    ensures Balanced(Start(b, cred, endpoint, body).book)
  {
    hide Balanced, CreateCollection, StartPayout, StartUtility, StartTransfer, SettleNow;
    match body {
      case CollectionBody(_, _, _, _) => CollectionKeeps(b, cred, body);
      case PayoutBody(r) => StartPayoutKeeps(b, cred, r);
      case UtilityBody(_, _, _, _, _, _, _) => StartUtilityKeeps(b, cred, body);
      case TransferBody(_, _, _, _) => StartTransferKeeps(b, cred, body);
      case SettleBody(reference) => SettleKeeps(b, cred, reference);
      case PolicyBody(_) => SameMoneyKeeps(b, PutPolicy(b, body).book);
      case _ =>
    }
  }

  lemma ItemBalanced(b: Book, cred: Name, body: Body, results: seq<ItemResult>, rest: seq<PayoutRequest>)
    requires Balanced(b) && body.BatchBody?
    ensures Balanced(NextItem(b, cred, body, results, rest).book)
  {
    hide Balanced, StartPayout;
    if rest == [] {
      SameMoneyKeeps(b, BatchFinish(b, cred, body, results).book);
    } else {
      StartPayoutKeeps(b, cred, rest[0]);
    }
  }

  lemma FirstBalanced(b: Book, cred: Name, endpoint: Endpoint, body: Body)
    requires Balanced(b)
    ensures Balanced(FirstSegment(b, cred, endpoint, body).book)
  {
    hide Balanced, NextItem, Start, BatchPrecheck;
    if endpoint == PayoutBatches && body.BatchBody? {
      ItemBalanced(b, cred, body, [], body.items);
    } else {
      StartBalanced(b, cred, endpoint, body);
    }
  }

  lemma NextBalanced(b: Book, c: Call)
    requires Balanced(b)
    requires Waits(c.phase).Holds? ==> Waits(c.phase).obj < |b.objs| && Holdable(b.objs[Waits(c.phase).obj])
    ensures Balanced(NextSegment(b, c).book)
  {
    hide Balanced, NextItem, Resume;
    match c.phase
    case Suspended(i) => ResumeKeeps(b, i);
    case InBatch(results, Holding(i), rest) => ResumeKeeps(b, i);
    case InBatch(results, Have(x), rest) =>
      if c.body.BatchBody? { ItemBalanced(b, c.cred, c.body, results + [x], rest); }
    case _ =>
  }

  /* Timer steps */

  /** The payment a timer step leaves, and the refund it may schedule. */
  function TxAfter(b: Book, act: Act): Tx
    requires act.obj < |b.objs|
  {
    var t := b.objs[act.obj];
    match act
    case Review(_) => t.(status := InReview)
    case Half(_) => t.(status := HalfStatus(t))
    case Refund(_) => t.(status := Refunded, completed := true)
    case Final(_, _) =>
      match t.key.kind
      case Collection | Transfer =>
        if t.outcome == Succeeds then t.(status := Settled, settlement := Eligible, completed := true)
        else t.(status := Failed, failure := Some(if t.outcome == FailsOnPin then WrongPin else Declined), completed := true)
      case Payout =>
        if t.outcome == Succeeds then t.(status := Delivered, completed := true)
        else t.(status := Failed, failure := Some(Declined))
      case Utility =>
        if b.config.othersSucceed then t.(status := Delivered, completed := true)
        else t.(status := Failed, failure := Some(VendFailed))
  }

  function LaterAfter(b: Book, act: Act): seq<Later>
    requires act.obj < |b.objs|
  {
    if act.Final? && Owes(b, b.objs[act.obj]) then [Later(if act.half > 1 then act.half else 1, Refund(act.obj))]
    else []
  }

  /** A final step fails the payment and leaves its hold to be given back. */
  predicate Owes(b: Book, t: Tx)
  {
    || (t.key.kind == Payout && t.outcome != Succeeds)
    || (t.key.kind == Utility && t.funding == FromWallet && !b.config.othersSucceed)
  }

  lemma SetDoes(b: Book, a: Book, i: nat, t: Tx)
    requires i < |b.objs| && a.objs == b.objs && a.config == b.config
    ensures SetStatus(a, i, t).objs == b.objs[i := t] && SetStatus(a, i, t).config == b.config
  {
  }

  lemma FinalDoes(b: Book, i: nat, half: nat)
    requires i < |b.objs|
    ensures var (c, later) := RunFinal(b, i, half);
            && c.objs == b.objs[i := TxAfter(b, Final(i, half))] && c.config == b.config
            && later == LaterAfter(b, Final(i, half))
  {
    hide SetStatus, Release, Move;
    var t := b.objs[i];
    var u := TxAfter(b, Final(i, half));
    ReleasePlain(b, t.key.cred, Pays(t));
    SetDoes(b, Release(b, t.key.cred, Pays(t)), i, u);
    SetDoes(b, b, i, u);
    if t.key.kind in {Collection, Transfer} {
      MovePlain(b, t.key.cred, Recipient(t), 0, t.key.reference, CollectionCredit);
      SetDoes(b, Credit(b, t.key.cred, Recipient(t), t.key.reference, CollectionCredit), i, u);
    }
  }

  lemma ActDoes(b: Book, act: Act)
    requires act.obj < |b.objs|
    ensures var (c, later) := RunAct(b, act);
            && c.objs == b.objs[act.obj := TxAfter(b, act)] && c.config == b.config && later == LaterAfter(b, act)
  {
    hide SetStatus, Release, Move, RunFinal;
    var i, t := act.obj, b.objs[act.obj];
    match act
    case Final(_, half) => FinalDoes(b, i, half);
    case Half(_) => SetDoes(b, b, i, TxAfter(b, act));
    case Review(_) => SetDoes(b, b, i, TxAfter(b, act));
    case Refund(_) =>
      var r := Release(b, t.key.cred, Pays(t));
      ReleasePlain(b, t.key.cred, Pays(t));
      MovePlain(r, t.key.cred, Pays(t), 0, t.key.reference, RefundKind(t.key.kind));
      SetDoes(b, Credit(r, t.key.cred, Pays(t), t.key.reference, RefundKind(t.key.kind)), i, TxAfter(b, act));
  }

  lemma FixedAfter(b: Book, act: Act)
    requires act.obj < |b.objs| && FixedTx(b.objs[act.obj]) && Ready(b.objs[act.obj], act) && b.objs[act.obj].registered
    ensures FixedTx(TxAfter(b, act)) && TxAfter(b, act).registered && TxAfter(b, act).key == b.objs[act.obj].key
  {
  }

  /** A timer step uses up its own call, and calls for the refund it schedules. */
  lemma CalledAfter(b: Book, act: Act, i: nat, a: ActKind)
    requires act.obj < |b.objs| && Ready(b.objs[act.obj], act) && b.objs[act.obj].registered && MovesMoney(a)
    ensures (if Called(TxAfter(b, act), a) then 1 else 0) ==
            (if Called(b.objs[act.obj], a) then 1 else 0) - (if a == KindOfAct(act) then 1 else 0)
            + KindsIn(LaterAfter(b, act), act.obj, a)
    ensures i != act.obj ==> KindsIn(LaterAfter(b, act), i, a) == 0
  {
    KindsAfter(b, act, i, a);
    KindsAfter(b, act, act.obj, a);
    hide KindsIn, LaterAfter;
  }

  lemma KindsAfter(b: Book, act: Act, i: nat, a: ActKind)
    requires act.obj < |b.objs|
    ensures KindsIn(LaterAfter(b, act), i, a) ==
            if i == act.obj && a == Refunding && act.Final? && Owes(b, b.objs[i]) then 1 else 0
  {
    hide Owes;
    KindsOne(Later(if act.Final? && act.half > 1 then act.half else 1, Refund(act.obj)), i, a);
  }

  /** A live timer belongs to a registered payment and finds it ready. */
  lemma TimerReady(s: State, j: nat)
    requires Timed(s) && j < |s.timers| && s.timers[j].epoch == s.epoch
    ensures var act := s.timers[j].act;
            act.obj < |s.book.objs| && s.book.objs[act.obj].registered && Ready(s.book.objs[act.obj], act)
  {
    hide SumBy;
    var act := s.timers[j].act;
    var i, a := act.obj, KindOfAct(act);
    SumAtLeastOne(s.timers, j, LiveOf(s.epoch, i, a));
    PendingNonNegative(s, i, HalfWay);
    PendingNonNegative(s, i, Reviewing);
    PendingNonNegative(s, i, Ending);
    PendingNonNegative(s, i, Refunding);
    assert Load(s, i) <= Allowance(s.book, i);
    if MovesMoney(a) { assert Queued(s, i, a) == Calls(s.book, i, a); }
  }

  /** The queue after a timer of the current epoch has fired. */
  lemma FiredPending(s: State, j: nat, at: nat, i: nat, a: ActKind)
    requires j < |s.timers| && s.timers[j].epoch == s.epoch && s.timers[j].act.obj < |s.book.objs|
    ensures var (b, later) := RunAct(s.book, s.timers[j].act);
            Queued(Absorb(s.(now := at, timers := Without(s.timers, j)), Segment(b, later, Broke)), i, a) ==
            Queued(s, i, a)
            - (if i == s.timers[j].act.obj && a == KindOfAct(s.timers[j].act) then 1 else 0)
            + KindsIn(LaterAfter(s.book, s.timers[j].act), i, a)
  {
    hide SumBy, RunAct, KindsIn, LaterAfter;
    ActDoes(s.book, s.timers[j].act);
    SumRemove(s.timers, j, LiveOf(s.epoch, i, a));
    ScheduleMoves(s.(now := at, timers := Without(s.timers, j)), LaterAfter(s.book, s.timers[j].act), i, a);
  }

  /** A timer step takes at least its own weight off its payment. */
  lemma LoadFalls(s: State, j: nat, at: nat, i: nat)
    requires j < |s.timers| && s.timers[j].epoch == s.epoch && s.timers[j].act.obj < |s.book.objs|
    ensures var (b, later) := RunAct(s.book, s.timers[j].act);
            Load(Absorb(s.(now := at, timers := Without(s.timers, j)), Segment(b, later, Broke)), i)
            <= Load(s, i) - (if i == s.timers[j].act.obj then 1 else 0)
  {
    hide *;
    var act := s.timers[j].act;
    FiredPending(s, j, at, i, HalfWay);
    FiredPending(s, j, at, i, Reviewing);
    FiredPending(s, j, at, i, Ending);
    FiredPending(s, j, at, i, Refunding);
    KindsAfter(s.book, act, i, HalfWay);
    KindsAfter(s.book, act, i, Reviewing);
    KindsAfter(s.book, act, i, Ending);
    KindsAfter(s.book, act, i, Refunding);
    var (b, later) := RunAct(s.book, act);
    LoadIs(s, i);
    LoadIs(Absorb(s.(now := at, timers := Without(s.timers, j)), Segment(b, later, Broke)), i);
    ActKinds(act);
  }

  lemma LoadIs(s: State, i: nat)
    ensures Load(s, i) == Queued(s, i, HalfWay) + Queued(s, i, Reviewing)
                          + 2 * Queued(s, i, Ending) + Queued(s, i, Refunding)
  {
  }

  lemma ActKinds(act: Act)
    ensures KindOfAct(act) == if act.Half? then HalfWay else if act.Review? then Reviewing
                              else if act.Final? then Ending else Refunding
  {
  }

  lemma LiveTimed(s: State, j: nat, at: nat)
    requires Timed(s) && Fixed(s.book) && j < |s.timers| && s.timers[j].epoch == s.epoch
    ensures var (b, later) := RunAct(s.book, s.timers[j].act);
            var t := Absorb(s.(now := at, timers := Without(s.timers, j)), Segment(b, later, Broke));
            Timed(t) && Fixed(t.book)
  {
    hide SumBy, RunAct, KindsIn, LaterAfter, TxAfter, Called, FixedTx, Load, Ready;
    var act := s.timers[j].act;
    var (b, later) := RunAct(s.book, act);
    var t := Absorb(s.(now := at, timers := Without(s.timers, j)), Segment(b, later, Broke));
    TimerReady(s, j);
    ActDoes(s.book, act);
    FixedAfter(s.book, act);
    forall i: nat, a | MovesMoney(a) ensures Queued(t, i, a) == Calls(t.book, i, a) {
      FiredPending(s, j, at, i, a);
      CalledAfter(s.book, act, i, a);
      assert Queued(s, i, a) == Calls(s.book, i, a);
    }
    forall i: nat ensures Load(t, i) <= Allowance(t.book, i) {
      LoadFalls(s, j, at, i);
      assert Load(s, i) <= Allowance(s.book, i);
    }
  }

  lemma StaleTimed(s: State, j: nat, at: nat)
    requires Timed(s) && j < |s.timers| && s.timers[j].epoch != s.epoch
    ensures Timed(s.(now := at, timers := Without(s.timers, j)))
  {
    var t := s.(now := at, timers := Without(s.timers, j));
    hide SumBy, Calls;
    forall i: nat, a ensures Queued(t, i, a) == Queued(s, i, a) {
      SumRemove(s.timers, j, LiveOf(s.epoch, i, a));
    }
    forall i: nat, a | MovesMoney(a) ensures Queued(t, i, a) == Calls(t.book, i, a) {
      assert Queued(s, i, a) == Calls(s.book, i, a);
    }
    forall i: nat ensures Load(t, i) <= Allowance(t.book, i) { assert Load(s, i) <= Allowance(s.book, i); }
  }

  lemma FireSturdy(s: State, j: nat, at: nat)
    requires Timed(s) && Fixed(s.book) && Balanced(s.book)
    ensures var t := ApplyFire(s, j, at);
            Timed(t) && Fixed(t.book) && Balanced(t.book)
  {
    hide Timed, Fixed, Balanced, RunAct, Ready;
    if IsNext(s.timers, j) && at >= s.now && at >= s.timers[j].due {
      if s.timers[j].epoch != s.epoch {
        StaleTimed(s, j, at);
      } else {
        TimerReady(s, j);
        LiveTimed(s, j, at);
        ActKeeps(s.book, s.timers[j].act);
      }
    }
  }

  /* Steps */

  lemma PostSturdy(s: State, cred: Name, key: string, endpoint: Endpoint, body: Body, crash: bool, lost: bool)
    requires Timed(s) && Fixed(s.book) && Balanced(s.book)
    ensures var t := ApplyPost(s, cred, key, endpoint, body, crash, lost);
            Timed(t) && Fixed(t.book) && Balanced(t.book)
  {
    hide Timed, Fixed, Balanced, FirstSegment, SegmentOk, IdemKey;
    FirstSegmentOk(s.book, cred, endpoint, body);
    FirstBalanced(s.book, cred, endpoint, body);
    var g := FirstSegment(s.book, cred, endpoint, body);
    var t := ApplyPost(s, cred, key, endpoint, body, crash, lost);
    if t.calls[|s.calls|].ran && !crash {
      SegmentTimed(s, t, g, SegmentEffect(s.book, Nothing, g));
    } else {
      SameTimed(s, t);
    }
  }

  /** A waiting call waits on a payment that is still as it was made. */
  lemma WaitingHoldable(s: State, i: nat)
    requires Ground(s) && Fixed(s.book) && i < |s.calls| && Waits(s.calls[i].phase).Holds?
    ensures var k := Waits(s.calls[i].phase).obj;
            k < |s.book.objs| && Holdable(s.book.objs[k])
  {
    GroundParts(s);
    hide Ground, Grounded, CallsOk, Holdable;
    WaitingUnregistered(s, i);
    assert FixedTx(s.book.objs[Waits(s.calls[i].phase).obj]);
  }

  lemma AdvanceSturdy(s: State, i: nat)
    requires Sturdy(s)
    ensures var t := ApplyAdvance(s, i);
            Timed(t) && Fixed(t.book) && Balanced(t.book)
  {
    SturdyParts(s);
    hide Sturdy, Ground, Timed, Fixed, Balanced, NextSegment, SegmentOk, Holdable;
    if i < |s.calls| {
      var c, g := s.calls[i], NextSegment(s.book, s.calls[i]);
      if Waits(c.phase).Holds? { WaitingHoldable(s, i); }
      NextSegmentOk(s.book, c);
      NextBalanced(s.book, c);
      SegmentTimed(s, ApplyAdvance(s, i), g, SegmentEffect(s.book, Waits(c.phase), g));
    }
  }

  lemma SameFixed(b: Book, c: Book)
    requires Fixed(b) && c.objs == b.objs
    ensures Fixed(c)
  {
    hide FixedTx;
  }

  /** The controls keep the books balanced and touch no payment. */
  lemma ControlBalanced(b: Book, step: Step)
    requires Balanced(b) && (step.Touch? || step.Balance? || step.Patch? || step.DropPolicy?)
    ensures var c := match step
                     case Touch(cred) => EnsureWallet(b, cred)
                     case Balance(cred, amount) => SetBalance(b, cred, amount)
                     case Patch(config) => b.(config := config)
                     case _ => b.(policy := None);
            Balanced(c) && c.objs == b.objs
  {
    hide Balanced, SetBalance, EnsureWallet;
    match step
    case Touch(cred) =>
      EnsureWalletKeeps(b, cred);
      EnsurePlain(b, cred);
    case Balance(cred, amount) =>
      SetBalanceKeeps(b, cred, amount);
      SetBalancePlain(b, cred, amount);
    case Patch(config) => SameMoneyKeeps(b, b.(config := config));
    case _ => SameMoneyKeeps(b, b.(policy := None));
  }

  lemma ControlSturdy(s: State, step: Step)
    requires Timed(s) && Fixed(s.book) && Balanced(s.book)
    requires step.Touch? || step.Balance? || step.Patch? || step.DropPolicy? || step.Tick?
    ensures var t := Apply(s, step);
            Timed(t) && Fixed(t.book) && Balanced(t.book)
  {
    hide Timed, Fixed, Balanced, SetBalance, EnsureWallet;
    if !step.Tick? { ControlBalanced(s.book, step); }
    SameTimed(s, Apply(s, step));
    SameFixed(s.book, Apply(s, step).book);
  }

  lemma FinishPlain(s: State, i: nat, lost: bool)
    ensures var t := ApplyFinish(s, i, lost);
            t.book == s.book && t.timers == s.timers && t.epoch == s.epoch
  {
  }

  /** Steps that touch neither a payment nor a timer. */
  predicate IsQuiet(step: Step)
  {
    step.Finish? || step.Tick? || step.Touch? || step.Balance? || step.Patch? || step.DropPolicy?
  }

  lemma QuietStep(s: State, step: Step)
    requires IsQuiet(step)
    ensures var t := Apply(s, step);
            t.book.objs == s.book.objs && t.timers == s.timers && t.epoch == s.epoch
  {
    hide SetBalance, EnsureWallet, ApplyFinish;
    match step
    case Finish(i, lost) => FinishPlain(s, i, lost);
    case Touch(cred) => EnsurePlain(s.book, cred);
    case Balance(cred, amount) => SetBalancePlain(s.book, cred, amount);
    case _ =>
  }

  /** Timers of earlier epochs count for nothing. */
  lemma EmptyTimed(s: State)
    requires s.book.objs == [] && forall j :: 0 <= j < |s.timers| ==> s.timers[j].epoch < s.epoch
    ensures Timed(s)
  {
    forall i: nat, a ensures Queued(s, i, a) == 0 { SumZero(s.timers, LiveOf(s.epoch, i, a)); }
  }

  lemma FreshBalanced(c: Config)
    ensures Balanced(FreshBook(c)) && Fixed(FreshBook(c)) && FreshBook(c).objs == []
  {
  }

  lemma ResetSturdy(s: State, c: Config)
    requires Sturdy(s)
    ensures var t := ApplyReset(s, c);
            Timed(t) && Fixed(t.book) && Balanced(t.book)
  {
    SturdyParts(s);
    GroundParts(s);
    FreshBalanced(c);
    hide Sturdy, Ground, Grounded, CallsOk, Timed, Fixed, Balanced, FreshBook;
    if Idle(s) { EmptyTimed(ApplyReset(s, c)); }
  }

  lemma StepSturdy(s: State, step: Step)
    requires Sturdy(s)
    ensures Sturdy(Apply(s, step))
  {
    SturdyParts(s);
    hide Ground, Balanced, Fixed, Timed, ApplyPost, ApplyAdvance, ApplyFinish, ApplyFire, ApplyReset, SetBalance, EnsureWallet;
    StepKeepsGround(s, step);
    match step
    case PostCall(cred, key, endpoint, body, crash, lost) => PostSturdy(s, cred, key, endpoint, body, crash, lost);
    case Advance(i) => AdvanceSturdy(s, i);
    case Finish(i, lost) =>
      FinishPlain(s, i, lost);
      SameTimed(s, ApplyFinish(s, i, lost));
    case Fire(j, at) => FireSturdy(s, j, at);
    case Reset(config) => ResetSturdy(s, config);
    case _ => ControlSturdy(s, step);
  }

  /** Every run from a fresh simulator keeps its books balanced and its timers in step, under any
      configurations and in any order. */
  lemma {:induction false} RunSturdy(c: Config, now: nat, steps: seq<Step>)
    ensures Sturdy(Run(Fresh(c, now), steps))
  {
    hide Sturdy, Apply;
    if steps == [] {
      FreshSturdy(c, now);
    } else {
      RunSturdy(c, now, steps[..|steps| - 1]);
      StepSturdy(Run(Fresh(c, now), steps[..|steps| - 1]), steps[|steps| - 1]);
    }
  }

  lemma FreshSturdy(c: Config, now: nat)
    ensures Sturdy(Fresh(c, now))
  {
    EmptyGround(Fresh(c, now));
    FreshBalanced(c);
    EmptyTimed(Fresh(c, now));
    hide Ground, Balanced, Fixed, Timed;
  }
}
