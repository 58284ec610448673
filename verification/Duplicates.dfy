/** When a payment can be applied twice. Between the reference check and the registration of a debited
    payment lies one suspension, `await this.debit`. A second request for the same payment that starts
    inside that gap passes the check too. The lemmas give the exact condition, show that schedules which
    run each call through its gap undisturbed never duplicate, and exhibit the overlap that does. */
module Duplicates {
  import opened Money
  import opened Domain
  import opened Operations
  import opened Accounting
  import opened BookInvariants
  import opened Shapes
  import opened Protocol
  import opened Segments
  import opened Groundwork
  import opened Acceptance
  import opened Sums

  /** No two live payment objects stand for the same payment. */
  ghost predicate Single(b: Book)
  {
    forall i, j :: 0 <= i < j < |b.objs| ==> b.objs[i].key != b.objs[j].key
  }

  /** A payment of this key is between its debit and its registration. */
  predicate InGap(b: Book, k: TxKey)
  {
    exists i :: 0 <= i < |b.objs| && !b.objs[i].registered && b.objs[i].key == k
  }

  function ExcessOf(m: map<TxKey, nat>): TxKey -> int { (k: TxKey) => if Count(m, k) > 1 then Count(m, k) - 1 else 0 }

  /** The duplicate effects that state() reports. */
  function DuplicateEffects(b: Book): int { SumBy(b.order, ExcessOf(b.effects)) }

  lemma EffectsCounted(b: Book, k: TxKey)
    requires Tallied(b)
    ensures Count(b.effects, k) == SumBy(b.objs, EffectOf(k))
  {
    hide SumBy;
    assert CountsAt(b, k.cred, k);
  }

  lemma SingleKeepsEffects(b: Book, k: TxKey)
    requires Single(b) && Tallied(b)
    ensures Count(b.effects, k) <= 1
  {
    EffectsCounted(b, k);
    hide Tallied, SumBy;
    AtMostOne(b.objs, k);
  }

  lemma {:induction false} AtMostOne(objs: seq<Tx>, k: TxKey)
    requires forall i, j :: 0 <= i < j < |objs| ==> objs[i].key != objs[j].key
    ensures 0 <= SumBy(objs, EffectOf(k)) <= 1
    ensures SumBy(objs, EffectOf(k)) == 1 ==> exists i :: 0 <= i < |objs| && objs[i].key == k
  {
    if objs != [] {
      AtMostOne(objs[..|objs| - 1], k);
    }
  }

  /** One object per payment means no duplicate effects. */
  lemma NoDuplicates(b: Book)
    requires Single(b) && Tallied(b)
    ensures DuplicateEffects(b) == 0
  {
    hide Single, Tallied, SumBy;
    forall i | 0 <= i < |b.order| ensures ExcessOf(b.effects)(b.order[i]) == 0 {
      SingleKeepsEffects(b, b.order[i]);
    }
    SumZero(b.order, ExcessOf(b.effects));
  }

  /** Two registered objects of one payment are reported as a duplicate effect. */
  lemma TwiceIsReported(b: Book, i: nat, j: nat)
    requires Grounded(b) && i < j < |b.objs| && b.objs[i].registered && b.objs[j].registered
    requires b.objs[i].key == b.objs[j].key
    ensures DuplicateEffects(b) > 0
  {
    var k := b.objs[i].key;
    EffectsCounted(b, k);
    KeyInOrder(b, i);
    hide Grounded, SumBy;
    SumAtLeastTwo(b.objs, i, j, EffectOf(k));
    var n :| 0 <= n < |b.order| && b.order[n] == k;
    SumAtLeastOne(b.order, n, ExcessOf(b.effects));
  }

  lemma KeyInOrder(b: Book, i: nat)
    requires Indexed(b) && i < |b.objs| && b.objs[i].registered
    ensures exists n :: 0 <= n < |b.order| && b.order[n] == b.objs[i].key
  {
    hide Listed;
    ListedMember(b.order, b.txs.Keys, b.objs[i].key);
  }

  lemma {:induction false} ListedMember<T>(order: seq<T>, keys: set<T>, x: T)
    requires Listed(order, keys) && x in keys
    ensures exists n :: 0 <= n < |order| && order[n] == x
  {
    var last := order[|order| - 1];
    if x == last {
      assert order[|order| - 1] == x;
    } else {
      ListedMember(order[..|order| - 1], keys - {last}, x);
      var n :| 0 <= n < |order| - 1 && order[..|order| - 1][n] == x;
      assert order[n] == x;
    }
  }

  /* What a step starts, read off the request */

  /** The payment a request starts, if it is accepted. */
  function Starts(b: Book, cred: Name, endpoint: Endpoint, body: Body): Option<TxKey>
  {
    if endpoint == Collections && body.CollectionBody? && AcceptsCollection(b, cred, body)
    then Some(TxKey(Collection, cred, body.reference))
    else if endpoint == Payouts && body.PayoutBody? && AcceptsPayout(b, cred, body.payout)
    then Some(TxKey(Payout, cred, body.payout.reference))
    else if endpoint == UtilityPurchases && body.UtilityBody? && AcceptsUtility(b, cred, body)
    then Some(TxKey(Utility, cred, body.reference))
    else if endpoint == Transfers && body.TransferBody? && AcceptsTransfer(b, cred, body)
    then Some(TxKey(Transfer, cred, body.reference))
    else None
  }

  /** The payment the next item of a batch starts, if it is accepted. */
  function ItemStarts(b: Book, cred: Name, rest: seq<PayoutRequest>): Option<TxKey>
  {
    if rest != [] && AcceptsPayout(b, cred, rest[0]) then Some(TxKey(Payout, cred, rest[0].reference)) else None
  }

  /** The payment a step starts: an accepted request that runs, or the next accepted item of a batch. */
  function StepStarts(s: State, step: Step): Option<TxKey>
  {
    match step
    case PostCall(cred, key, endpoint, body, crash, _) =>
      if !GoodKey(key) || IdemKey(cred, key) in s.idem || crash then None
      else if endpoint == PayoutBatches && body.BatchBody? then
        if BatchPrecheck(s.book, cred, body).Some? then None else ItemStarts(s.book, cred, body.items)
      else Starts(s.book, cred, endpoint, body)
    case Advance(i) => if i < |s.calls| then NextStarts(s.book, s.calls[i]) else None
    case _ => None
  }

  /** The payment the next stretch of a call starts. */
  function NextStarts(b: Book, c: Call): Option<TxKey>
  {
    if c.phase.InBatch? && c.phase.item.Have? && c.body.BatchBody? then ItemStarts(b, c.cred, c.phase.rest) else None
  }

  /** The step made one payment, of this key, exactly if there is one. */
  predicate Makes(b: Book, c: Book, started: Option<TxKey>)
  {
    && |c.objs| == |b.objs| + (if started.Some? then 1 else 0)
    && (started.Some? ==> c.objs[|b.objs|].key == started.value)
  }

  lemma SettleMakes(b: Book, cred: Name, reference: Name)
    ensures |SettleNow(b, cred, reference).book.objs| == |b.objs|
  {
    hide DueTotal, DueCount, FindRun, RunId, Move;
    MovePlain(Draw(b).(objs := PayOutAll(b.objs, cred)), cred, 0 - DueTotal(b.objs, cred), 0, RunId(b.serial + 1), SettlementPaid);
  }

  lemma StartMakes(b: Book, cred: Name, endpoint: Endpoint, body: Body)
    requires Indexed(b)
    ensures Makes(b, Start(b, cred, endpoint, body).book, Starts(b, cred, endpoint, body))
  {
    hide IndexedBut, CreateCollection, StartPayout, StartUtility, StartTransfer, SettleNow, Free, Replays, Repeats,
      AcceptsPayout, AcceptsUtility, AcceptsTransfer, AcceptsCollection;
    match body {
      case CollectionBody(_, _, _, _) => CollectionExactly(b, cred, body);
      case PayoutBody(r) => PayoutExactly(b, cred, r);
      case UtilityBody(_, _, _, _, _, _, _) => UtilityExactly(b, cred, body);
      case TransferBody(_, _, _, _) => TransferExactly(b, cred, body);
      case SettleBody(reference) => SettleMakes(b, cred, reference);
      case _ =>
    }
  }

  lemma ItemMakes(b: Book, cred: Name, body: Body, results: seq<ItemResult>, rest: seq<PayoutRequest>)
    requires Indexed(b) && body.BatchBody?
    ensures Makes(b, NextItem(b, cred, body, results, rest).book, ItemStarts(b, cred, rest))
  {
    hide IndexedBut, StartPayout, Free, Replays, Repeats, AcceptsPayout;
    if rest != [] { PayoutExactly(b, cred, rest[0]); }
  }

  lemma PostMakes(s: State, step: Step)
    requires Indexed(s.book) && step.PostCall?
    ensures Makes(s.book, Apply(s, step).book, StepStarts(s, step))
  {
    hide IndexedBut, Start, NextItem, Starts, ItemStarts, BatchPrecheck, IdemKey;
    if step.endpoint == PayoutBatches && step.body.BatchBody? {
      ItemMakes(s.book, step.cred, step.body, [], step.body.items);
    } else {
      StartMakes(s.book, step.cred, step.endpoint, step.body);
    }
  }

  lemma AdvanceMakes(s: State, i: nat)
    requires Ground(s)
    ensures Makes(s.book, Apply(s, Advance(i)).book, StepStarts(s, Advance(i)))
  {
    AdvanceIsApplied(s, i);
    GroundParts(s);
    hide Ground, CallsOk, Apply, ItemStarts, Grounded, NextSegment;
    if i < |s.calls| {
      if Waits(s.calls[i].phase).Holds? { WaitingUnregistered(s, i); }
      GroundedIndexed(s.book);
      NextMakes(s.book, s.calls[i]);
    }
  }

  lemma NextMakes(b: Book, c: Call)
    requires Indexed(b)
    requires Waits(c.phase).Holds? ==> Waits(c.phase).obj < |b.objs| && !b.objs[Waits(c.phase).obj].registered
    ensures Makes(b, NextSegment(b, c).book, NextStarts(b, c))
  {
    hide IndexedBut, ItemStarts, Resume, NextItem;
    match c.phase
    case Suspended(obj) => ResumeEntered(b, obj);
    case InBatch(_, Holding(obj), _) => ResumeEntered(b, obj);
    case InBatch(results, Have(x), rest) =>
      if c.body.BatchBody? { ItemMakes(b, c.cred, c.body, results + [x], rest); }
    case _ =>
  }

  /** Every step starts exactly the payment its request asks for, if that is accepted. */
  lemma StepMakes(s: State, step: Step)
    requires Ground(s) && !step.Reset?
    ensures Makes(s.book, Apply(s, step).book, StepStarts(s, step))
  {
    GroundParts(s);
    GroundedIndexed(s.book);
    hide Ground, CallsOk, Grounded, IndexedBut, ApplyPost, ApplyAdvance, ApplyFinish, ApplyFire, SetBalance, EnsureWallet;
    match step
    case PostCall(_, _, _, _, _, _) => PostMakes(s, step);
    case Advance(i) => AdvanceMakes(s, i);
    case Fire(j, at) => FireGround(s, j, at);
    case Balance(cred, amount) => SetBalancePlain(s.book, cred, amount);
    case Touch(cred) => EnsurePlain(s.book, cred);
    case Finish(i, lost) => FinishSame(s, i, lost);
    case _ =>
  }

  lemma FinishSame(s: State, i: nat, lost: bool)
    ensures ApplyFinish(s, i, lost).book == s.book
  {
  }

  /* Keys stay */

  ghost predicate KeysKept(b: Book, c: Book)
  {
    |b.objs| <= |c.objs| && forall i :: 0 <= i < |b.objs| ==> c.objs[i].key == b.objs[i].key
  }

  lemma EnteredKeys(b: Book, c: Book, e: Effect)
    requires Entered(b, c, e)
    ensures KeysKept(b, c)
  {
  }

  /** What each step does to the entries of payments, as one effect. */
  lemma StepEnters(s: State, step: Step) returns (e: Effect)
    requires Ground(s) && !step.Reset?
    ensures Entered(s.book, Apply(s, step).book, e)
    ensures e.Registers? && e.obj < |s.book.objs| ==>
      step.Advance? && step.call < |s.calls| && Waits(s.calls[step.call].phase) == Holds(e.obj)
    ensures step.Advance? && step.call < |s.calls| && Waits(s.calls[step.call].phase).Holds? ==>
      e == Registers(Waits(s.calls[step.call].phase).obj)
  {
    GroundParts(s);
    NothingEntered(s.book);
    hide Ground, CallsOk, Grounded, Entered, ApplyFinish, ApplyFire, ApplyAdvance, ApplyPost, NextSegment, SetBalance, EnsureWallet;
    e := Nothing;
    match step {
      case PostCall(cred, key, endpoint, body, crash, lost) => e := PostEnters(s, step);
      case Advance(i) =>
        AdvanceIsApplied(s, i);
        if i < |s.calls| { e := AdvanceEnters(s, i); }
      case Fire(j, at) => FireGround(s, j, at);
      case Finish(i, lost) => FinishSame(s, i, lost);
      case Balance(cred, amount) =>
        SetBalancePlain(s.book, cred, amount);
        SameEntered(s.book, SetBalance(s.book, cred, amount));
      case Touch(cred) =>
        EnsurePlain(s.book, cred);
        SameEntered(s.book, EnsureWallet(s.book, cred));
      case _ => SameEntered(s.book, Apply(s, step).book);
    }
  }

  lemma PostEnters(s: State, step: Step) returns (e: Effect)
    requires Ground(s) && step.PostCall?
    ensures Entered(s.book, Apply(s, step).book, e) && (e.Registers? ==> e.obj >= |s.book.objs|)
  {
    GroundParts(s);
    NothingEntered(s.book);
    hide Ground, CallsOk, Grounded, Entered, FirstSegment, IdemKey;
    var g := FirstSegment(s.book, step.cred, step.endpoint, step.body);
    FirstGround(s.book, step.cred, step.endpoint, step.body);
    e := if Apply(s, step).book == g.book then SegmentEffect(s.book, Nothing, g) else Nothing;
  }

  lemma AdvanceEnters(s: State, i: nat) returns (e: Effect)
    requires Ground(s) && i < |s.calls|
    ensures Entered(s.book, NextSegment(s.book, s.calls[i]).book, e)
    ensures e == SegmentEffect(s.book, Waits(s.calls[i].phase), NextSegment(s.book, s.calls[i]))
  {
    GroundParts(s);
    hide Ground, CallsOk, Grounded, Entered, NextSegment;
    if Waits(s.calls[i].phase).Holds? { WaitingUnregistered(s, i); }
    NextGround(s.book, s.calls[i]);
    e := SegmentEffect(s.book, Waits(s.calls[i].phase), NextSegment(s.book, s.calls[i]));
  }

  lemma SameEntered(b: Book, c: Book)
    requires c.objs == b.objs
    ensures Entered(b, c, Nothing)
  {
  }

  /* The exact condition, step by step */

  /** A step leaves two objects for one payment exactly when it starts a payment that is in its gap. Both
      sides can be read off the state and the request before the step. */
  lemma DuplicatedExactly(s: State, step: Step)
    requires Ground(s) && Single(s.book) && !step.Reset?
    ensures Single(Apply(s, step).book) <==>
            !(StepStarts(s, step).Some? && InGap(s.book, StepStarts(s, step).value))
  {
    hide *;
    StepMakes(s, step);
    var e := StepEnters(s, step);
    EnteredKeys(s.book, Apply(s, step).book, e);
    GroundedState(s);
    if StepStarts(s, step).Some? {
      StartedAbsent(s, step);
      StartedDoubles(s.book, Apply(s, step).book, StepStarts(s, step).value);
    } else {
      NothingDoubles(s.book, Apply(s, step).book);
    }
  }

  lemma GroundedState(s: State)
    requires Ground(s)
    ensures Grounded(s.book)
  {
  }

  /** Books with one more payment double it exactly if it was in its gap. */
  lemma StartedDoubles(b: Book, c: Book, k: TxKey)
    requires Grounded(b) && Single(b) && KeysKept(b, c) && Makes(b, c, Some(k)) && k !in b.txs
    ensures Single(c) <==> !InGap(b, k)
  {
    hide Grounded;
    var n := |b.objs|;
    if i: nat :| i < n && b.objs[i].key == c.objs[n].key { UnlistedUnregistered(b, i); }
  }

  lemma NothingDoubles(b: Book, c: Book)
    requires Single(b) && KeysKept(b, c) && Makes(b, c, None)
    ensures Single(c)
  {
  }

  /** A started payment is not in the transactions map. */
  lemma StartedAbsent(s: State, step: Step)
    requires StepStarts(s, step).Some?
    ensures StepStarts(s, step).value !in s.book.txs
  {
    hide ParseAmount, Fee, WithinLimits, CanDebit, UtilityFault, KnownProvider, TransferFits, IdemKey, BatchPrecheck;
  }

  lemma UnlistedUnregistered(b: Book, i: nat)
    requires Grounded(b) && i < |b.objs|
    ensures b.objs[i].registered ==> b.objs[i].key in b.txs
  {
    hide Tallied;
  }

  /* Schedules that run each call through its gap */

  /** A step taken while some payment is in its gap only brings a payment out of its gap. This is how the
      event loop runs requests that arrive as separate tasks. */
  ghost predicate Undisturbed(s: State, step: Step)
  {
    || (forall i :: 0 <= i < |s.book.objs| ==> s.book.objs[i].registered)
    || (step.Advance? && step.call < |s.calls| && Waits(s.calls[step.call].phase).Holds?)
  }

  lemma UndisturbedStep(s: State, step: Step)
    requires Ground(s) && Single(s.book) && !step.Reset? && Undisturbed(s, step)
    ensures Single(Apply(s, step).book)
  {
    DuplicatedExactly(s, step);
    hide Ground, Apply, Single;
    if StepStarts(s, step).Some? && !(forall i :: 0 <= i < |s.book.objs| ==> s.book.objs[i].registered) {
      WaitingStartsNothing(s, step.call);
    }
  }

  lemma WaitingStartsNothing(s: State, i: nat)
    requires i < |s.calls| && Waits(s.calls[i].phase).Holds?
    ensures StepStarts(s, Advance(i)).None?
  {
    hide ItemStarts;
  }

  /** Every step of the run, taken from a fresh simulator, is undisturbed. */
  ghost predicate UndisturbedRun(c: Config, now: nat, steps: seq<Step>)
  {
    forall n :: 0 <= n < |steps| ==> Undisturbed(Run(Fresh(c, now), steps[..n]), steps[n])
  }

  lemma UndisturbedPrefix(c: Config, now: nat, steps: seq<Step>)
    requires UndisturbedRun(c, now, steps) && steps != []
    ensures UndisturbedRun(c, now, steps[..|steps| - 1])
    ensures Undisturbed(Run(Fresh(c, now), steps[..|steps| - 1]), steps[|steps| - 1])
  {
    hide Undisturbed, Run;
    var init := steps[..|steps| - 1];
    forall n | 0 <= n < |init| ensures Undisturbed(Run(Fresh(c, now), init[..n]), init[n]) {
      assert init[..n] == steps[..n];
    }
  }

  lemma {:induction false} UndisturbedKeepsSingle(c: Config, now: nat, steps: seq<Step>)
    requires UndisturbedRun(c, now, steps)
    ensures Single(Run(Fresh(c, now), steps).book)
  {
    hide Undisturbed, Ground, Apply;
    if steps != [] {
      var init, last := steps[..|steps| - 1], steps[|steps| - 1];
      UndisturbedPrefix(c, now, steps);
      hide UndisturbedRun;
      UndisturbedKeepsSingle(c, now, init);
      RunKeepsGround(c, now, init);
      if last.Reset? {
        ResetSingle(Run(Fresh(c, now), init), last);
      } else {
        UndisturbedStep(Run(Fresh(c, now), init), last);
      }
    }
  }

  lemma ResetSingle(s: State, step: Step)
    requires Single(s.book) && step.Reset?
    ensures Single(Apply(s, step).book)
  {
  }

  /** The step starts a payment that is in its gap. */
  predicate Doubles(s: State, step: Step)
  {
    StepStarts(s, step).Some? && InGap(s.book, StepStarts(s, step).value)
  }

  /** No step of the run starts a payment that is in its gap. */
  ghost predicate NeverDoubles(c: Config, now: nat, steps: seq<Step>)
  {
    forall n :: 0 <= n < |steps| ==> !Doubles(Run(Fresh(c, now), steps[..n]), steps[n])
  }

  lemma DoublesAt(c: Config, now: nat, steps: seq<Step>, n: nat)
    requires n < |steps| && Single(Run(Fresh(c, now), steps[..n]).book)
    ensures Single(Run(Fresh(c, now), steps[..n + 1]).book) <==> !Doubles(Run(Fresh(c, now), steps[..n]), steps[n])
  {
    hide Ground, Apply, Single, Run, InGap;
    assert steps[..n + 1] == steps[..n] + [steps[n]];
    RunStep(Fresh(c, now), steps[..n], steps[n]);
    RunKeepsGround(c, now, steps[..n]);
    if steps[n].Reset? {
      ResetSingle(Run(Fresh(c, now), steps[..n]), steps[n]);
    } else {
      DuplicatedExactly(Run(Fresh(c, now), steps[..n]), steps[n]);
    }
  }

  lemma {:induction false} NeverDoubled(c: Config, now: nat, steps: seq<Step>, n: nat)
    requires n <= |steps| && NeverDoubles(c, now, steps)
    ensures Single(Run(Fresh(c, now), steps[..n]).book)
  {
    hide Apply, Doubles;
    if n > 0 {
      NeverDoubled(c, now, steps, n - 1);
      DoublesAt(c, now, steps, n - 1);
    }
  }

  /** In every run, whatever the interleaving and the configurations: no payment ever has two objects, exactly if
      no step starts a payment that is in its gap. */
  lemma NeverDoubledExactly(c: Config, now: nat, steps: seq<Step>)
    ensures (forall n :: 0 <= n <= |steps| ==> Single(Run(Fresh(c, now), steps[..n]).book)) <==> NeverDoubles(c, now, steps)
  {
    hide Run, Single, Doubles;
    if forall n :: 0 <= n <= |steps| ==> Single(Run(Fresh(c, now), steps[..n]).book) {
      forall n | 0 <= n < |steps| ensures !Doubles(Run(Fresh(c, now), steps[..n]), steps[n]) {
        assert Single(Run(Fresh(c, now), steps[..n + 1]).book);
        DoublesAt(c, now, steps, n);
      }
    }
    if NeverDoubles(c, now, steps) {
      forall n | 0 <= n <= |steps| ensures Single(Run(Fresh(c, now), steps[..n]).book) { NeverDoubled(c, now, steps, n); }
    }
  }

  /** Runs that take each call through its gap undisturbed start no payment in a gap. */
  lemma UndisturbedNeverDoubles(c: Config, now: nat, steps: seq<Step>)
    requires UndisturbedRun(c, now, steps)
    ensures NeverDoubles(c, now, steps)
  {
    forall n | 0 <= n <= |steps| ensures Single(Run(Fresh(c, now), steps[..n]).book) {
      assert forall k :: 0 <= k < n ==> steps[..n][..k] == steps[..k];
      hide Undisturbed, Run, Single;
      UndisturbedKeepsSingle(c, now, steps[..n]);
    }
    hide *;
    NeverDoubledExactly(c, now, steps);
  }

  /** However keys, retries, lost replies, timers and controls interleave otherwise, and under any
      configurations, no payment is applied twice when none is started in its gap: state() reports no
      duplicate, and each payment has at most one effect. */
  lemma NeverAppliedTwice(c: Config, now: nat, steps: seq<Step>, k: TxKey)
    requires NeverDoubles(c, now, steps)
    ensures var b := Run(Fresh(c, now), steps).book;
            DuplicateEffects(b) == 0 && Count(b.effects, k) <= 1
  {
    NeverDoubled(c, now, steps, |steps|);
    assert steps[..|steps|] == steps;
    RunKeepsGround(c, now, steps);
    hide NeverDoubles, Run, SumBy, CallsOk, IndexedBut, Tallied, Single;
    NoDuplicates(Run(Fresh(c, now), steps).book);
    SingleKeepsEffects(Run(Fresh(c, now), steps).book, k);
  }

  /* The overlap that does duplicate */

  /** Inside the gap of an accepted payout, the same request is accepted again exactly if the wallet can
      cover it again: nothing but the balance stands in its way. */
  lemma GapAcceptsAgain(b: Book, cred: Name, r: PayoutRequest)
    requires Indexed(b) && StartPayout(b, cred, r).out.Await?
    ensures var c := StartPayout(b, cred, r).book;
            var t := c.objs[|b.objs|];
            && |c.objs| == |b.objs| + 1 && t.key == TxKey(Payout, cred, r.reference)
            && (StartPayout(c, cred, r).out.Await? <==> CanDebit(Draw(c), cred, Pays(t)))
            && (StartPayout(c, cred, r).out.Await? ==>
                  var d := StartPayout(c, cred, r).book;
                  |d.objs| == |b.objs| + 2 && d.objs[|b.objs| + 1].key == t.key && d.objs[|b.objs|] == t
                  && StartPayout(c, cred, r).out.obj == |b.objs| + 1)
  {
    hide ParseAmount, Fee, Hold, IndexedBut, KnownProvider;
    var amount, key := ParseAmount(r.amount), TxKey(Payout, cred, r.reference);
    AbsentMeans(b, key, PayoutBody(r));
    var t := NewTx(b, key, amount.value, Fee(amount.value, b.config.feeRate), PayoutBody(r), r.party, FromWallet);
    HoldAccepted(b, t);
    var c := Hold(b, t).book;
    HoldAccepted(c, NewTx(c, key, amount.value, Fee(amount.value, c.config.feeRate), PayoutBody(r), r.party, FromWallet));
  }

  /** A debit that goes through leaves everything the checks read as it was, but the balance. */
  lemma HoldAccepted(b: Book, t: Tx)
    requires t.key.kind == Payout
    ensures Hold(b, t).out.Await? <==> CanDebit(Draw(b), t.key.cred, Pays(t))
    ensures Hold(b, t).out.Await? ==>
      var c := Hold(b, t).book;
      && c.objs == b.objs + [t] && c.txs == b.txs && c.config == b.config && c.dailyOut == b.dailyOut
      && Hold(b, t).out.obj == |b.objs|
  {
  }

  /** The request is accepted, and accepted again inside its own gap. */
  predicate AcceptedTwice(b: Book, cred: Name, r: PayoutRequest)
  {
    StartPayout(b, cred, r).out.Await? && StartPayout(StartPayout(b, cred, r).book, cred, r).out.Await?
  }

  /** Two requests with one body under two keys, each reaching its gap before either leaves it. */
  function Overlap(n: nat, cred: Name, key1: string, key2: string, r: PayoutRequest): seq<Step>
  {
    [PostCall(cred, key1, Payouts, PayoutBody(r), false, false)]
      + [PostCall(cred, key2, Payouts, PayoutBody(r), false, false)] + [Advance(n)] + [Advance(n + 1)]
  }

  /** From any reachable state: if the overlapping requests are both accepted, both are applied, and
      state() reports a duplicate effect. */
  lemma OverlapDuplicates(s: State, cred: Name, key1: string, key2: string, r: PayoutRequest)
    requires Ground(s) && GoodKey(key1) && GoodKey(key2) && key1 != key2
    requires IdemKey(cred, key1) !in s.idem && IdemKey(cred, key2) !in s.idem
    requires AcceptedTwice(s.book, cred, r)
    ensures DuplicateEffects(Run(s, Overlap(|s.calls|, cred, key1, key2, r)).book) > 0
  {
    hide Ground, Apply, StartPayout, AcceptedTwice, DuplicateEffects, Run;
    var p1 := PostCall(cred, key1, Payouts, PayoutBody(r), false, false);
    var p2 := PostCall(cred, key2, Payouts, PayoutBody(r), false, false);
    var n, m := |s.calls|, |s.book.objs|;
    var s2 := Apply(Apply(s, p1), p2);
    OneStep(s, p1);
    RunStep(s, [p1], p2);
    RunStep(s, [p1] + [p2], Advance(n));
    RunStep(s, [p1] + [p2] + [Advance(n)], Advance(n + 1));
    StepKeepsGround(s, p1);
    StepKeepsGround(Apply(s, p1), p2);
    OverlapStarts(s, cred, key1, key2, r);
    OverlapEnds(s2, n, m);
  }

  /** Both calls leave the gap: their payments are registered under one key. */
  lemma OverlapEnds(s: State, n: nat, m: nat)
    requires Ground(s) && |s.calls| == n + 2 && |s.book.objs| == m + 2
    requires s.calls[n].phase == Suspended(m) && s.calls[n + 1].phase == Suspended(m + 1)
    requires s.book.objs[m].key == s.book.objs[m + 1].key
    ensures DuplicateEffects(Apply(Apply(s, Advance(n)), Advance(n + 1)).book) > 0
  {
    hide Ground, Apply, DuplicateEffects;
    var t := Apply(s, Advance(n));
    var u := Apply(t, Advance(n + 1));
    StepKeepsGround(s, Advance(n));
    StepKeepsGround(t, Advance(n + 1));
    AdvanceRegisters(s, n, m);
    AdvanceRegisters(t, n + 1, m + 1);
    GroundParts(u);
    hide Grounded, CallsOk;
    TwiceIsReported(u.book, m, m + 1);
  }

  lemma OverlapStarts(s: State, cred: Name, key1: string, key2: string, r: PayoutRequest)
    requires Ground(s) && GoodKey(key1) && GoodKey(key2) && key1 != key2
    requires IdemKey(cred, key1) !in s.idem && IdemKey(cred, key2) !in s.idem
    requires AcceptedTwice(s.book, cred, r)
    ensures var n, m := |s.calls|, |s.book.objs|;
            var s1 := Apply(s, PostCall(cred, key1, Payouts, PayoutBody(r), false, false));
            var s2 := Apply(s1, PostCall(cred, key2, Payouts, PayoutBody(r), false, false));
            && |s2.calls| == n + 2 && |s2.book.objs| == m + 2
            && s2.calls[n].phase == Suspended(m) && s2.calls[n + 1].phase == Suspended(m + 1)
            && s2.book.objs[m].key == s2.book.objs[m + 1].key
  {
    var s1 := Apply(s, PostCall(cred, key1, Payouts, PayoutBody(r), false, false));
    GroundParts(s);
    GroundedIndexed(s.book);
    GapAcceptsAgain(s.book, cred, r);
    StartsWhere(s.book, cred, r);
    KeysDiffer(cred, key1, key2);
    hide Ground, Grounded, IndexedBut, CallsOk, StartPayout, IdemKey, Apply;
    PayoutPosted(s, cred, key1, r);
    PayoutPosted(s1, cred, key2, r);
  }

  /** An accepted payout under a new key leaves its call suspended on it. */
  lemma PayoutPosted(s: State, cred: Name, key: string, r: PayoutRequest)
    requires GoodKey(key) && IdemKey(cred, key) !in s.idem && StartPayout(s.book, cred, r).out.Await?
    ensures var t := Apply(s, PostCall(cred, key, Payouts, PayoutBody(r), false, false));
            && t.book == StartPayout(s.book, cred, r).book
            && |t.calls| == |s.calls| + 1 && t.calls[..|s.calls|] == s.calls
            && t.calls[|s.calls|].phase == Suspended(StartPayout(s.book, cred, r).out.obj)
            && t.idem.Keys == s.idem.Keys + {IdemKey(cred, key)}
  {
    hide StartPayout, IdemKey;
  }

  lemma StartsWhere(b: Book, cred: Name, r: PayoutRequest)
    ensures StartPayout(b, cred, r).out.Await? ==> StartPayout(b, cred, r).out.obj == |b.objs|
  {
    hide ParseAmount, Fee;
  }

  lemma KeysDiffer(cred: Name, key1: string, key2: string)
    requires key1 != key2
    ensures IdemKey(cred, key1) != IdemKey(cred, key2)
  {
    var p := cred.text + ":";
    assert (p + key1)[|p|..] == key1 && (p + key2)[|p|..] == key2;
  }

  /** Resuming a waiting call registers its payment and touches no other payment's key. */
  lemma AdvanceRegisters(s: State, i: nat, m: nat)
    requires Ground(s) && i < |s.calls| && s.calls[i].phase == Suspended(m)
    ensures var t := Apply(s, Advance(i));
            && m < |s.book.objs| == |t.book.objs| && t.book.objs[m].registered && KeysKept(s.book, t.book)
            && (forall j :: 0 <= j < |s.book.objs| && s.book.objs[j].registered ==> t.book.objs[j].registered)
            && (forall j :: 0 <= j < |s.calls| && j != i ==> t.calls[j] == s.calls[j]) && |t.calls| == |s.calls|
  {
    GroundParts(s);
    WaitingUnregistered(s, i);
    AdvanceIsApplied(s, i);
    AdvanceSparesOthers(s, i);
    hide Ground, Grounded, CallsOk, Apply, ApplyAdvance, Resume, Entered;
    ResumeEntered(s.book, m);
    EnteredRegisters(s.book, Resume(s.book, m).book, m);
  }

  lemma EnteredRegisters(b: Book, c: Book, m: nat)
    requires Entered(b, c, Registers(m)) && m < |b.objs|
    ensures |c.objs| == |b.objs| && c.objs[m].registered && KeysKept(b, c)
    ensures forall j :: 0 <= j < |b.objs| && b.objs[j].registered ==> c.objs[j].registered
  {
  }

  /** A concrete case: a fresh simulator with GHS 100 opening balances accepts a payout of GHS 1 and
      would cover it twice, so OverlapDuplicates applies to it. */
  const SmallChange := PayoutRequest(Name("ref"), "1.00", "mtn", Name("0241234567"))
  const PlainConfig := Config(Some(10000), 50, 0.0, Initiator, true, None, None, None)

  lemma SmallChangeOverlaps(cred: Name)
    ensures AcceptedTwice(FreshBook(PlainConfig), cred, SmallChange)
  {
    var b := FreshBook(PlainConfig);
    SmallChangeAccepted(cred);
    GapAcceptsAgain(b, cred, SmallChange);
  }

  lemma SmallChangeParses()
    ensures ParseAmount("1.00") == Some(100)
  {
    assert "1.00"[..1] == "1" && "1.00"[2..] == "00";
    assert "1"[..0] == "" && "00"[..1] == "0" && "0"[..0] == "";
  }

  lemma SmallChangeAccepted(cred: Name)
    ensures var b := FreshBook(PlainConfig);
            && StartPayout(b, cred, SmallChange).out.Await?
            && var c := StartPayout(b, cred, SmallChange).book;
               |c.objs| == 1 && CanDebit(Draw(c), cred, Pays(c.objs[0]))
  {
    SmallChangeParses();
    hide ParseAmount;
    assert Round(100 as real * 0.0) == 0;
  }

  /** So a run of a fresh simulator applies one payout twice. */
  lemma SmallChangeAppliedTwice(cred: Name, now: nat)
    ensures DuplicateEffects(Run(Fresh(PlainConfig, now), Overlap(0, cred, "a", "b", SmallChange)).book) > 0
  {
    SmallChangeOverlaps(cred);
    EmptyGround(Fresh(PlainConfig, now));
    hide Ground, AcceptedTwice, Run, DuplicateEffects, Overlap;
    OverlapDuplicates(Fresh(PlainConfig, now), cred, "a", "b", SmallChange);
  }
}
