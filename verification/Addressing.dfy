/** To whom events are told, and as what: in every run, under any configurations and any order of the timers,
    each event is in the feed of the owner of its payment or run, under the type of what happened. */
module Addressing {
  import opened Money
  import opened Domain
  import opened Operations
  import opened Accounting
  import opened BookInvariants
  import opened Shapes
  import opened Protocol
  import opened Segments
  import opened Groundwork
  import opened Bookkeeping

  ghost predicate AllAddressed(b: Book) { forall e :: 0 <= e < |b.events| ==> Addressed(b.events[e]) }

  lemma SameAddressed(b: Book, c: Book)
    requires AllAddressed(b) && c.events == b.events
    ensures AllAddressed(c)
  {
    hide Addressed;
  }

  lemma EmitAddressed(b: Book, cred: Name, etype: EventType, data: EventData)
    requires AllAddressed(b) && Addressed(Event(|b.events|, cred, etype, data))
    ensures AllAddressed(Emit(b, cred, etype, data))
  {
    hide Addressed;
  }

  /** A payment's new status is told to its owner. */
  lemma StatusAddressed(b: Book, a: Book, i: nat, t: Tx)
    requires AllAddressed(b) && a.events == b.events && i < |a.objs| && t.status != Accepted
    ensures AllAddressed(SetStatus(a, i, t))
  {
    SameAddressed(b, SetObj(a, i, t));
    hide AllAddressed;
    EmitAddressed(SetObj(a, i, t), t.key.cred, ChangedType(t.key.kind), OfTx(i, t));
  }

  lemma ReleaseEvents(b: Book, cred: Name, p: nat)
    ensures Release(b, cred, p).events == b.events && Release(b, cred, p).objs == b.objs
  {
    EnsuresOnly(b, cred);
    hide EnsureWallet;
  }

  lemma FinalAddressed(b: Book, i: nat, half: nat)
    requires AllAddressed(b) && i < |b.objs|
    ensures AllAddressed(RunFinal(b, i, half).0)
  {
    hide AllAddressed, SetStatus, Release, Move;
    var t, u := b.objs[i], TxAfter(b, Final(i, half));
    ReleaseEvents(b, t.key.cred, Pays(t));
    StatusAddressed(b, Release(b, t.key.cred, Pays(t)), i, u);
    StatusAddressed(b, b, i, u);
    if t.key.kind in {Collection, Transfer} {
      MovePlain(b, t.key.cred, Recipient(t), 0, t.key.reference, CollectionCredit);
      StatusAddressed(b, Credit(b, t.key.cred, Recipient(t), t.key.reference, CollectionCredit), i, u);
    }
  }

  lemma ActAddressed(b: Book, act: Act)
    requires AllAddressed(b)
    ensures AllAddressed(RunAct(b, act).0)
  {
    hide AllAddressed, SetStatus, Release, Move, RunFinal;
    if act.obj < |b.objs| {
      var i, t := act.obj, b.objs[act.obj];
      match act
      case Final(_, half) => FinalAddressed(b, i, half);
      case Half(_) => StatusAddressed(b, b, i, TxAfter(b, act));
      case Review(_) => StatusAddressed(b, b, i, TxAfter(b, act));
      case Refund(_) =>
        var r := Release(b, t.key.cred, Pays(t));
        ReleaseEvents(b, t.key.cred, Pays(t));
        MovePlain(r, t.key.cred, Pays(t), 0, t.key.reference, RefundKind(t.key.kind));
        StatusAddressed(b, Credit(r, t.key.cred, Pays(t), t.key.reference, RefundKind(t.key.kind)), i, TxAfter(b, act));
    }
  }

  /* Starting and resuming */

  lemma HoldEvents(b: Book, t: Tx)
    requires t.key.kind != Collection
    ensures Hold(b, t).book.events == b.events
  {
    EnsuresOnly(Draw(b), t.key.cred);
    MovePlain(Draw(b), t.key.cred, 0 - Pays(t), if t.key.kind != Transfer then Pays(t) else 0, t.key.reference, EntryOut(t.key.kind));
    hide EnsureWallet, Move, CanDebit;
  }

  /** A registration is announced to the owner. */
  lemma AcceptedAddressed(b: Book, i: nat, review: bool)
    requires AllAddressed(b) && i < |b.objs| && b.objs[i].status == Accepted && b.objs[i].key.kind != Transfer
    ensures AllAddressed(EmitTx(Record(b, i, review), i, b.objs[i].key.cred, AcceptedType(b.objs[i].key.kind)))
  {
    RecordKeys(b, i, review);
    SameAddressed(b, Record(b, i, review));
    hide AllAddressed, Record, OutcomeFor;
    var c, t := Record(b, i, review), b.objs[i];
    EmitAddressed(c, t.key.cred, AcceptedType(t.key.kind), OfTx(i, c.objs[i]));
  }

  lemma ResumeAddressed(b: Book, i: nat)
    requires AllAddressed(b) && i < |b.objs| && Holdable(b.objs[i])
    ensures AllAddressed(Resume(b, i).book)
  {
    var t := b.objs[i];
    var e := EnsureWallet(b, t.key.cred);
    EnsuresOnly(b, t.key.cred);
    SameAddressed(b, e);
    hide AllAddressed, EnsureWallet, Record, EmitTx, ResumeTransfer;
    match t.key.kind
    case Transfer => TransferAddressed(b, i);
    case Utility => AcceptedAddressed(e, i, false);
    case Payout => AcceptedAddressed(b, i, UnderReview(b.config, t.amount));
  }

  lemma TransferAddressed(b: Book, i: nat)
    requires AllAddressed(b) && i < |b.objs| && b.objs[i].key.kind == Transfer
    ensures AllAddressed(ResumeTransfer(b, i).book)
  {
    var t := b.objs[i];
    var b1 := Credit(b, t.party, t.amount, t.key.reference, TransferIn);
    MovePlain(b, t.party, t.amount, 0, t.key.reference, TransferIn);
    RecordKeys(b1, i, false);
    hide AllAddressed, Move, Record, OutcomeFor;
    var b2 := Record(b1, i, false);
    var u := b2.objs[i].(status := Completed, completed := true);
    SameAddressed(b, SetObj(b2, i, u));
    EmitAddressed(SetObj(b2, i, u), t.key.cred, TransferChanged, OfTx(i, u));
    EmitAddressed(Emit(SetObj(b2, i, u), t.key.cred, TransferChanged, OfTx(i, u)), t.party, TransferReceived, OfTx(i, u));
  }

  lemma CollectionAddressed(b: Book, cred: Name, r: Body)
    requires AllAddressed(b) && r.CollectionBody?
    ensures AllAddressed(CreateCollection(b, cred, r).book)
  {
    hide AllAddressed, ParseAmount, Fee, Record, EmitTx, CheckLimits, KnownProvider;
    var amount := ParseAmount(r.amount);
    if amount.Some? {
      var t := NewTx(b, TxKey(Collection, cred, r.reference), amount.value, Fee(amount.value, b.config.feeRate), r, r.party,
                     FromPayer);
      SameAddressed(b, AddObj(Draw(b), t));
      AcceptedAddressed(AddObj(Draw(b), t), |b.objs|, false);
    }
  }

  lemma PayoutAddressed(b: Book, cred: Name, r: PayoutRequest)
    requires AllAddressed(b)
    ensures AllAddressed(StartPayout(b, cred, r).book)
  {
    hide AllAddressed, ParseAmount, Fee, Hold, CheckLimits, KnownProvider;
    var amount := ParseAmount(r.amount);
    if amount.Some? {
      var t := NewTx(b, TxKey(Payout, cred, r.reference), amount.value, Fee(amount.value, b.config.feeRate), PayoutBody(r),
                     r.party, FromWallet);
      HoldEvents(b, t);
      SameAddressed(b, Hold(b, t).book);
    }
  }

  lemma SendAddressed(b: Book, cred: Name, r: Body)
    requires AllAddressed(b) && r.TransferBody?
    ensures AllAddressed(StartTransfer(b, cred, r).book)
  {
    hide AllAddressed, ParseAmount, Hold, CheckLimits, KnownHandle;
    var amount := ParseAmount(r.amount);
    if amount.Some? {
      var t := NewTx(b, TxKey(Transfer, cred, r.reference), amount.value, 0, r, r.handle, FromWallet);
      HoldEvents(b, t);
      SameAddressed(b, Hold(b, t).book);
    }
  }

  lemma UtilityAddressed(b: Book, cred: Name, r: Body)
    requires AllAddressed(b) && r.UtilityBody?
    ensures AllAddressed(StartUtility(b, cred, r).book)
  {
    hide AllAddressed, ParseAmount, FindProduct, Fee, Hold, Record, EmitTx, EnsureWallet, CheckLimits;
    if UtilityFault(r).None? {
      var amount := ParseAmount(r.amount).value;
      var t := NewTx(b, TxKey(Utility, cred, r.reference), amount, Fee(amount, b.config.feeRate), r, Name(""), r.funding);
      if r.funding == FromWallet {
        HoldEvents(b, t);
        SameAddressed(b, Hold(b, t).book);
      } else {
        var a := AddObj(Draw(b), t);
        EnsuresOnly(a, cred);
        SameAddressed(b, EnsureWallet(a, cred));
        AcceptedAddressed(EnsureWallet(a, cred), |b.objs|, false);
      }
    }
  }

  lemma SettleAddressed(b: Book, cred: Name, reference: Name)
    requires AllAddressed(b)
    ensures AllAddressed(SettleNow(b, cred, reference).book)
  {
    hide AllAddressed, PayOutAll, DueTotal, DueCount, FindRun, RunId, Move;
    if b.policy.Some? && FindRun(b.runs, cred, reference).None? {
      var net := DueTotal(b.objs, cred);
      var run := SettlementRun(b.serial + 1, reference, cred, DueCount(b.objs, cred), net);
      var d := Draw(b).(objs := PayOutAll(b.objs, cred));
      MovePlain(d, cred, 0 - net, 0, RunId(run.id), SettlementPaid);
      var c := if net > 0 then Move(d, cred, 0 - net, 0, RunId(run.id), SettlementPaid) else Draw(b);
      SameAddressed(b, c.(runs := c.runs + [run]));
      EmitAddressed(c.(runs := c.runs + [run]), cred, SettlementChanged, OfRun(run));
    }
  }

  lemma StartAddressed(b: Book, cred: Name, endpoint: Endpoint, body: Body)
    requires AllAddressed(b)
    ensures AllAddressed(Start(b, cred, endpoint, body).book)
  {
    hide AllAddressed, CreateCollection, StartPayout, StartUtility, StartTransfer, SettleNow;
    match body {
      case CollectionBody(_, _, _, _) => CollectionAddressed(b, cred, body);
      case PayoutBody(r) => PayoutAddressed(b, cred, r);
      case UtilityBody(_, _, _, _, _, _, _) => UtilityAddressed(b, cred, body);
      case TransferBody(_, _, _, _) => SendAddressed(b, cred, body);
      case SettleBody(reference) => SettleAddressed(b, cred, reference);
      case PolicyBody(_) => SameAddressed(b, PutPolicy(b, body).book);
      case _ =>
    }
  }

  lemma ItemAddressed(b: Book, cred: Name, body: Body, results: seq<ItemResult>, rest: seq<PayoutRequest>)
    requires AllAddressed(b) && body.BatchBody?
    ensures AllAddressed(NextItem(b, cred, body, results, rest).book)
  {
    hide AllAddressed, StartPayout;
    if rest == [] {
      SameAddressed(b, BatchFinish(b, cred, body, results).book);
    } else {
      PayoutAddressed(b, cred, rest[0]);
    }
  }

  /* Steps and runs */

  lemma PostAddressed(s: State, step: Step)
    requires AllAddressed(s.book) && step.PostCall?
    ensures AllAddressed(Apply(s, step).book)
  {
    hide AllAddressed, Start, NextItem, BatchPrecheck, IdemKey;
    if step.endpoint == PayoutBatches && step.body.BatchBody? {
      ItemAddressed(s.book, step.cred, step.body, [], step.body.items);
    } else {
      StartAddressed(s.book, step.cred, step.endpoint, step.body);
    }
  }

  lemma NextAddressed(b: Book, c: Call)
    requires AllAddressed(b)
    requires Waits(c.phase).Holds? ==> Waits(c.phase).obj < |b.objs| && Holdable(b.objs[Waits(c.phase).obj])
    ensures AllAddressed(NextSegment(b, c).book)
  {
    hide AllAddressed, Resume, NextItem, Holdable;
    match c.phase
    case Suspended(i) => ResumeAddressed(b, i);
    case InBatch(_, Holding(i), _) => ResumeAddressed(b, i);
    case InBatch(results, Have(x), rest) =>
      if c.body.BatchBody? { ItemAddressed(b, c.cred, c.body, results + [x], rest); }
    case _ =>
  }

  lemma AdvanceAddressed(s: State, i: nat)
    requires Sturdy(s) && AllAddressed(s.book)
    ensures AllAddressed(Apply(s, Advance(i)).book)
  {
    SturdyParts(s);
    AdvanceIsApplied(s, i);
    hide Sturdy, Ground, Balanced, Fixed, Timed, AllAddressed, NextSegment, Holdable, Apply;
    if i < |s.calls| {
      if Waits(s.calls[i].phase).Holds? { WaitingHoldable(s, i); }
      NextAddressed(s.book, s.calls[i]);
    }
  }

  lemma BalanceEvents(b: Book, cred: Name, amount: string)
    ensures SetBalance(b, cred, amount).events == b.events
  {
    hide ParseAmount, Move;
    if ParseAmount(amount).Some? {
      var delta := ParseAmount(amount).value - EnsureWallet(b, cred).wallets[cred].balance;
      MovePlain(b, cred, delta, 0, Name("control"), EntryKind.Adjustment);
    }
  }

  lemma QuietAddressed(s: State, step: Step)
    requires IsQuiet(step) && AllAddressed(s.book)
    ensures AllAddressed(Apply(s, step).book)
  {
    hide AllAddressed, SetBalance, EnsureWallet, ApplyFinish;
    match step
    case Finish(i, lost) => FinishPlain(s, i, lost);
    case Touch(cred) =>
      EnsuresOnly(s.book, cred);
      SameAddressed(s.book, EnsureWallet(s.book, cred));
    case Balance(cred, amount) =>
      BalanceEvents(s.book, cred, amount);
      SameAddressed(s.book, SetBalance(s.book, cred, amount));
    case _ => SameAddressed(s.book, Apply(s, step).book);
  }

  lemma StepAddressed(s: State, step: Step)
    requires Sturdy(s) && AllAddressed(s.book)
    ensures AllAddressed(Apply(s, step).book)
  {
    hide Sturdy, AllAddressed, Apply, ApplyFire, RunAct, ApplyReset;
    match step
    case PostCall(_, _, _, _, _, _) => PostAddressed(s, step);
    case Advance(i) => AdvanceAddressed(s, i);
    case Fire(j, at) =>
      FireIsApplied(s, j, at);
      FireBook(s, j, at);
      if j < |s.timers| { ActAddressed(s.book, s.timers[j].act); }
    case Reset(c) => ResetAddressed(s, c);
    case _ => QuietAddressed(s, step);
  }

  lemma ResetAddressed(s: State, c: Config)
    requires AllAddressed(s.book)
    ensures AllAddressed(Apply(s, Reset(c)).book)
  {
  }

  lemma {:induction false} RunAddressed(c: Config, now: nat, steps: seq<Step>)
    ensures AllAddressed(Run(Fresh(c, now), steps).book)
  {
    hide Sturdy, AllAddressed, Apply;
    if steps == [] {
      FreshAddressed(c);
    } else {
      RunAddressed(c, now, steps[..|steps| - 1]);
      RunSturdy(c, now, steps[..|steps| - 1]);
      StepAddressed(Run(Fresh(c, now), steps[..|steps| - 1]), steps[|steps| - 1]);
    }
  }

  lemma FreshAddressed(c: Config)
    ensures AllAddressed(FreshBook(c))
  {
  }

  /** In every run: each event is in the feed of the owner of its payment or run, under the type of what
      happened; only a received transfer is told to somebody else, its recipient. */
  lemma EventsReachTheirOwners(c: Config, now: nat, steps: seq<Step>, e: nat)
    requires e < |Run(Fresh(c, now), steps).book.events|
    ensures Addressed(Run(Fresh(c, now), steps).book.events[e])
  {
    RunAddressed(c, now, steps);
    hide Run, Addressed;
  }
}
