/** What one uninterrupted segment of a call can do: at most one of holding a new payment or registering
    one, with exactly the timers that payment needs; and it keeps the books sound. */
module Segments {
  import opened Money
  import opened Domain
  import opened Operations
  import opened Accounting
  import opened BookInvariants
  import opened Shapes
  import opened Protocol

  ghost predicate Sound(b: Book) { Shape(b) && WellFormed(b.config) }

  datatype ActKind = HalfWay | Ending | Reviewing | Refunding

  function KindOfAct(a: Act): ActKind
  {
    match a
    case Half(_) => HalfWay
    case Final(_, _) => Ending
    case Review(_) => Reviewing
    case Refund(_) => Refunding
  }

  /** The timer steps a payment still has ahead of it. */
  predicate Planned(t: Tx, a: ActKind)
  {
    && t.registered && t.key.kind != Transfer
    && match a
       case HalfWay => t.status == Accepted && !t.review
       case Ending => (t.status == Accepted || t.status == HalfStatus(t)) && !t.review
       case Reviewing => t.status == Accepted && t.review
       case Refunding => t.status == Failed && (t.key.kind == Payout || (t.key.kind == Utility && t.funding == FromWallet))
  }

  predicate SamePlan(t: Tx, u: Tx)
  {
    && u.key == t.key && u.registered == t.registered && u.status == t.status && u.review == t.review
    && u.funding == t.funding && u.amount == t.amount && u.completed == t.completed && u.failure == t.failure
    && (u.settlement == t.settlement || (t.settlement == Eligible && u.settlement == SettledOut))
  }

  /** A payment as its registration leaves it. */
  predicate Begun(t: Tx)
  {
    && t.registered && t.failure.None? && (t.completed <==> t.key.kind == Transfer)
    && t.status == (if t.key.kind == Transfer then Completed else Accepted) && (t.review ==> t.key.kind == Payout)
    && t.settlement == (if t.key.kind == Collection then NotEligible else NoSettlement)
  }

  /** The timers scheduled at registration. */
  predicate LaterOk(later: seq<Later>, i: nat, t: Tx, config: Config)
  {
    var full := config.resolveDelayMs;
    if t.key.kind == Transfer then later == []
    else if t.review then later == [Later(full, Review(i))]
    else later == [Later(full / 2, Half(i)), Later(full, Final(i, full / 2))]
  }

  datatype Effect = Nothing | Holds(obj: nat) | Registers(obj: nat)

  function Waits(p: Phase): Effect
  {
    match p
    case Suspended(i) => Holds(i)
    case InBatch(_, Holding(i), _) => Holds(i)
    case _ => Nothing
  }

  /** What happened to the payment objects between b and c. */
  ghost predicate Effected(b: Book, c: Book, later: seq<Later>, e: Effect)
  {
    && |b.objs| <= |c.objs|
    && (forall j :: 0 <= j < |b.objs| && e != Registers(j) ==> SamePlan(b.objs[j], c.objs[j]))
    && match e
       case Nothing => |c.objs| == |b.objs| && later == []
       case Holds(i) => i == |b.objs| && |c.objs| == i + 1 && Holdable(c.objs[i]) && later == []
       case Registers(i) =>
         && |c.objs| == (if i < |b.objs| then |b.objs| else i + 1) && i <= |b.objs|
         && Begun(c.objs[i]) && (i < |b.objs| ==> !b.objs[i].registered && b.objs[i].key == c.objs[i].key)
         && LaterOk(later, i, c.objs[i], b.config)
  }

  /** What the start of an operation did, read off its result. */
  function StartEffect(b: Book, r: Result): Effect
  {
    if r.out.Await? then Holds(r.out.obj)
    else if |r.book.objs| > |b.objs| then Registers(|b.objs|)
    else Nothing
  }

  ghost predicate StartOk(b: Book, r: Result)
  {
    r.book.config == b.config && Effected(b, r.book, r.later, StartEffect(b, r))
  }

  lemma SameOk(b: Book, r: Result)
    requires r.book.objs == b.objs && r.book.config == b.config && r.later == [] && !r.out.Await?
    ensures StartOk(b, r)
  {
  }

  lemma HoldEffect(b: Book, t: Tx)
    requires Holdable(t)
    ensures StartOk(b, Hold(b, t))
  {
    hide Debit;
    if CanDebit(Draw(b), t.key.cred, Pays(t)) {
      DebitPlain(Draw(b), t.key.cred, Pays(t), t.key.reference, EntryOut(t.key.kind), t.key.kind != Transfer);
    }
  }

  lemma DebitPlain(b: Book, cred: Name, amount: nat, ref: Name, kind: EntryKind, reserve: bool)
    ensures var c := Debit(b, cred, amount, ref, kind, reserve);
            c.objs == b.objs && c.config == b.config
  {
  }

  lemma RecordedEffect(b: Book, i: nat, review: bool, cred: Name, etype: EventType)
    requires i < |b.objs| && !b.objs[i].registered
    ensures var c := EmitTx(Record(b, i, review), i, cred, etype);
            && c.config == b.config && |c.objs| == |b.objs|
            && c.objs == b.objs[i := Enrolled(b.config, b.objs[i], review)]
  {
  }

  lemma CollectionEffect(b: Book, cred: Name, r: Body)
    requires r.CollectionBody?
    ensures StartOk(b, CreateCollection(b, cred, r))
  {
    hide ParseAmount, Fee, Record, EmitTx, StartOk, CheckLimits, KnownProvider, OutcomeFor, AddObj, Draw;
    var g := CreateCollection(b, cred, r);
    if g.book.objs == b.objs && g.book.config == b.config && g.later == [] {
      SameOk(b, g);
    } else {
      var amount := ParseAmount(r.amount).value;
      var t := NewTx(b, TxKey(Collection, cred, r.reference), amount, Fee(amount, b.config.feeRate), r, r.party,
                     FromPayer);
      CreatedEffect(b, t, cred);
      AddedOk(b, t, g);
    }
  }

  lemma CreatedEffect(b: Book, t: Tx, cred: Name)
    requires !t.registered
    ensures var c := EmitTx(Record(AddObj(Draw(b), t), |b.objs|, false), |b.objs|, cred, CollectionAccepted);
            c.config == b.config && c.objs == b.objs + [Enrolled(b.config, t, false)]
  {
    hide Record, EmitTx, OutcomeFor;
    RecordedEffect(AddObj(Draw(b), t), |b.objs|, false, cred, CollectionAccepted);
  }

  lemma AddedOk(b: Book, t: Tx, r: Result)
    requires t.key.kind == Collection && Newborn(t) && !r.out.Await? && r.book.config == b.config
    requires r.book.objs == b.objs + [Enrolled(b.config, t, false)]
    requires LaterOk(r.later, |b.objs|, r.book.objs[|b.objs|], b.config)
    ensures StartOk(b, r)
  {
    hide LaterOk, FixtureOutcome;
  }

  lemma ResumeHeldEffect(b: Book, i: nat, review: bool)
    requires i < |b.objs| && b.objs[i].key.kind in {Payout, Utility} && Newborn(b.objs[i])
    requires review ==> b.objs[i].key.kind == Payout
    ensures var r := ResumeHeld(b, i, review);
            r.out.Done? && r.book.config == b.config && Effected(b, r.book, r.later, Registers(i))
  {
    hide Record, EmitTx;
    RecordedEffect(b, i, review, b.objs[i].key.cred, AcceptedType(b.objs[i].key.kind));
  }

  lemma ResumeTransferEffect(b: Book, i: nat)
    requires i < |b.objs| && Newborn(b.objs[i]) && b.objs[i].key.kind == Transfer
    ensures var r := ResumeTransfer(b, i);
            r.out.Done? && r.book.config == b.config && Effected(b, r.book, r.later, Registers(i))
  {
    var t := b.objs[i];
    CreditPlain(b, t.party, t.amount, t.key.reference, TransferIn);
    hide Credit;
  }

  lemma CreditPlain(b: Book, cred: Name, amount: int, ref: Name, kind: EntryKind)
    ensures var c := Credit(b, cred, amount, ref, kind);
            c.objs == b.objs && c.config == b.config
  {
  }

  lemma EffectedFrom(b: Book, a: Book, c: Book, later: seq<Later>, e: Effect)
    requires a.objs == b.objs && a.config == b.config && Effected(a, c, later, e)
    ensures Effected(b, c, later, e)
  {
  }

  lemma EnsurePlain(b: Book, id: Name)
    ensures EnsureWallet(b, id).objs == b.objs && EnsureWallet(b, id).config == b.config
  {
  }

  lemma ResumeUtilityEffect(b: Book, i: nat)
    requires i < |b.objs| && Newborn(b.objs[i]) && b.objs[i].key.kind == Utility
    ensures var r := ResumeHeld(EnsureWallet(b, b.objs[i].key.cred), i, false);
            r.out.Done? && r.book.config == b.config && Effected(b, r.book, r.later, Registers(i))
  {
    hide ResumeHeld, EnsureWallet, Effected;
    var a := EnsureWallet(b, b.objs[i].key.cred);
    EnsurePlain(b, b.objs[i].key.cred);
    ResumeHeldEffect(a, i, false);
    EffectedFrom(b, a, ResumeHeld(a, i, false).book, ResumeHeld(a, i, false).later, Registers(i));
  }

  lemma ResumeEffect(b: Book, i: nat)
    requires i < |b.objs| && Holdable(b.objs[i])
    ensures var r := Resume(b, i);
            r.out.Done? && r.book.config == b.config && Effected(b, r.book, r.later, Registers(i))
  {
    var t := b.objs[i];
    hide ResumeHeld, ResumeTransfer, Effected, EnsureWallet;
    match t.key.kind
    case Transfer => ResumeTransferEffect(b, i);
    case Utility => ResumeUtilityEffect(b, i);
    case Payout => ResumeHeldEffect(b, i, UnderReview(b.config, t.amount));
  }

  lemma PayoutEffect(b: Book, cred: Name, r: PayoutRequest)
    ensures StartOk(b, StartPayout(b, cred, r)) && !StartEffect(b, StartPayout(b, cred, r)).Registers?
  {
    hide ParseAmount, Fee, Hold;
    var amount := ParseAmount(r.amount);
    if amount.Some? {
      var t := NewTx(b, TxKey(Payout, cred, r.reference), amount.value, Fee(amount.value, b.config.feeRate),
                     PayoutBody(r), r.party, FromWallet);
      HoldEffect(b, t);
      HoldOut(b, t);
    }
  }

  lemma HoldOut(b: Book, t: Tx)
    requires t.key.kind != Collection
    ensures !Hold(b, t).out.Done? && (!Hold(b, t).out.Await? ==> Hold(b, t).book.objs == b.objs)
  {
    EnsurePlain(Draw(b), t.key.cred);
    hide EnsureWallet, Debit;
  }

  lemma TransferEffect(b: Book, cred: Name, r: Body)
    requires r.TransferBody?
    ensures StartOk(b, StartTransfer(b, cred, r))
  {
    hide ParseAmount, Hold;
    var amount := ParseAmount(r.amount);
    if amount.Some? {
      HoldEffect(b, NewTx(b, TxKey(Transfer, cred, r.reference), amount.value, 0, r, r.handle, FromWallet));
    }
  }

  lemma UnfundedEffect(b: Book, t: Tx)
    requires t.key.kind == Utility && Newborn(t)
    ensures var r := Resume(AddObj(b, t), |b.objs|);
            && r.out.Done? && r.book.config == b.config && Effected(b, r.book, r.later, Registers(|b.objs|))
            && r.book.objs[|b.objs|].key == t.key
  {
    hide ResumeHeld, EnsureWallet;
    ResumeUtilityEffect(AddObj(b, t), |b.objs|);
  }

  lemma UtilityEffect(b: Book, cred: Name, r: Body)
    requires r.UtilityBody?
    ensures StartOk(b, StartUtility(b, cred, r))
  {
    hide ParseAmount, FindProduct, Fee, Hold, Resume;
    if UtilityFault(r).None? {
      var amount := ParseAmount(r.amount).value;
      var t := NewTx(b, TxKey(Utility, cred, r.reference), amount, Fee(amount, b.config.feeRate), r, Name(""),
                     r.funding);
      if r.funding == FromWallet {
        HoldEffect(b, t);
      } else {
        UnfundedEffect(Draw(b), t);
      }
    }
  }

  lemma MovePlain(b: Book, id: Name, db: int, dr: int, ref: Name, kind: EntryKind)
    ensures var c := Move(b, id, db, dr, ref, kind);
            c.objs == b.objs && c.config == b.config && c.runs == b.runs && c.batches == b.batches
            && c.order == b.order && c.events == b.events && c.serial == b.serial + 1
  {
    EnsuresOnly(b, id);
    hide EnsureWallet;
  }

  lemma SettleEffect(b: Book, cred: Name, reference: Name)
    ensures StartOk(b, SettleNow(b, cred, reference))
  {
    hide DueTotal, DueCount, FindRun, RunId, PayOutAll, Move;
    if b.policy.Some? && FindRun(b.runs, cred, reference).None? {
      var net := DueTotal(b.objs, cred);
      MovePlain(Draw(b).(objs := PayOutAll(b.objs, cred)), cred, 0 - net, 0, RunId(b.serial + 1), SettlementPaid);
    }
  }

  /* Whole segments */

  lemma StartEffectOk(b: Book, cred: Name, endpoint: Endpoint, body: Body)
    ensures StartOk(b, Start(b, cred, endpoint, body))
  {
    hide CreateCollection, StartPayout, StartUtility, StartTransfer, SettleNow, StartOk;
    SameOk(b, Result(b, [], Fail(InvalidInput)));
    match body {
      case CollectionBody(_, _, _, _) => CollectionEffect(b, cred, body);
      case PayoutBody(r) => PayoutEffect(b, cred, r);
      case UtilityBody(_, _, _, _, _, _, _) => UtilityEffect(b, cred, body);
      case TransferBody(_, _, _, _) => TransferEffect(b, cred, body);
      case SettleBody(reference) => SettleEffect(b, cred, reference);
      case PolicyBody(_) => PolicyEffect(b, body);
      case _ =>
    }
  }

  lemma PolicyEffect(b: Book, r: Body)
    requires r.PolicyBody?
    ensures StartOk(b, PutPolicy(b, r))
  {
    hide StartOk;
    SameOk(b, PutPolicy(b, r));
  }

  ghost predicate SegmentOk(b: Book, g: Segment, e: Effect)
  {
    && g.book.config == b.config
    && Effected(b, g.book, g.later, e)
    && Waits(g.phase) == (if e.Holds? then e else Nothing)
  }

  /** What a segment did, given the payment its call was waiting on. */
  function SegmentEffect(b: Book, waiting: Effect, g: Segment): Effect
  {
    if waiting.Holds? then Registers(waiting.obj)
    else if Waits(g.phase).Holds? then Waits(g.phase)
    else if |g.book.objs| > |b.objs| then Registers(|b.objs|)
    else Nothing
  }

  lemma NextItemOk(b: Book, cred: Name, body: Body, results: seq<ItemResult>, rest: seq<PayoutRequest>)
    requires body.BatchBody?
    ensures var g := NextItem(b, cred, body, results, rest);
            SegmentOk(b, g, SegmentEffect(b, Nothing, g))
  {
    hide StartPayout;
    if rest != [] { PayoutEffect(b, cred, rest[0]); }
  }

  lemma StillOk(b: Book, phase: Phase)
    requires Waits(phase) == Nothing
    ensures SegmentOk(b, Segment(b, [], phase), Nothing)
  {
  }

  lemma StartSegmentOk(b: Book, cred: Name, endpoint: Endpoint, body: Body)
    ensures var r := Start(b, cred, endpoint, body);
            var g := Segment(r.book, r.later, PhaseOf(r.out));
            SegmentOk(b, g, SegmentEffect(b, Nothing, g))
  {
    hide Start;
    StartEffectOk(b, cred, endpoint, body);
  }

  lemma FirstSegmentOk(b: Book, cred: Name, endpoint: Endpoint, body: Body)
    ensures var g := FirstSegment(b, cred, endpoint, body);
            SegmentOk(b, g, SegmentEffect(b, Nothing, g))
  {
    hide NextItem, Start, SegmentOk, BatchPrecheck;
    if endpoint == PayoutBatches && body.BatchBody? {
      var early := BatchPrecheck(b, cred, body);
      if early.Some? {
        BatchPrecheckOut(b, cred, body);
        StillOk(b, PhaseOf(early.value));
      } else {
        NextItemOk(b, cred, body, [], body.items);
      }
    } else {
      StartSegmentOk(b, cred, endpoint, body);
    }
  }

  lemma BatchPrecheckOut(b: Book, cred: Name, r: Body)
    requires r.BatchBody? && BatchPrecheck(b, cred, r).Some?
    ensures !BatchPrecheck(b, cred, r).value.Await?
  {
  }

  lemma NothingOk(b: Book)
    ensures Effected(b, b, [], Nothing)
  {
  }

  lemma NextSegmentOk(b: Book, c: Call)
    requires Waits(c.phase).Holds? ==> Waits(c.phase).obj < |b.objs| && Holdable(b.objs[Waits(c.phase).obj])
    ensures var g := NextSegment(b, c);
            SegmentOk(b, g, SegmentEffect(b, Waits(c.phase), g))
  {
    NothingOk(b);
    hide Effected, Resume, NextItem;
    match c.phase
    case Suspended(i) => ResumeEffect(b, i);
    case InBatch(results, Holding(i), rest) => ResumeEffect(b, i);
    case InBatch(results, Have(x), rest) =>
      if c.body.BatchBody? { NextItemOk(b, c.cred, c.body, results + [x], rest); }
    case _ =>
  }

  /* Soundness of whole segments */

  lemma SoundShape(b: Book)
    requires Sound(b)
    ensures Shape(b)
  {
  }

  lemma StartSound(b: Book, cred: Name, endpoint: Endpoint, body: Body)
    requires Sound(b)
    ensures Shape(Start(b, cred, endpoint, body).book)
  {
    hide Shape, CreateCollection, StartPayout, StartUtility, StartTransfer, SettleNow;
    match body {
      case CollectionBody(_, _, _, _) => CollectionShape(b, cred, body);
      case PayoutBody(r) => StartPayoutShape(b, cred, r);
      case UtilityBody(_, _, _, _, _, _, _) => StartUtilityShape(b, cred, body);
      case TransferBody(_, _, _, _) => StartTransferShape(b, cred, body);
      case SettleBody(reference) => SettleShape(b, cred, reference);
      case PolicyBody(_) => SameShapeKeeps(b, PutPolicy(b, body).book);
      case _ =>
    }
  }

  lemma FirstSegmentSound(b: Book, cred: Name, endpoint: Endpoint, body: Body)
    requires Sound(b)
    ensures Sound(FirstSegment(b, cred, endpoint, body).book)
  {
    FirstSegmentOk(b, cred, endpoint, body);
    hide Shape, Effected, NextItem, Start;
    if endpoint == PayoutBatches && body.BatchBody? {
      NextItemSound(b, cred, body, [], body.items);
    } else {
      StartSound(b, cred, endpoint, body);
    }
  }

  lemma NextItemSound(b: Book, cred: Name, body: Body, results: seq<ItemResult>, rest: seq<PayoutRequest>)
    requires Sound(b) && body.BatchBody?
    ensures Shape(NextItem(b, cred, body, results, rest).book)
  {
    hide Shape, StartPayout;
    if rest == [] {
      SameShapeKeeps(b, BatchFinish(b, cred, body, results).book);
    } else {
      StartPayoutShape(b, cred, rest[0]);
    }
  }

  lemma NextSegmentSound(b: Book, c: Call)
    requires Sound(b)
    requires Waits(c.phase).Holds? ==> Waits(c.phase).obj < |b.objs| && !b.objs[Waits(c.phase).obj].registered
    ensures Sound(NextSegment(b, c).book)
  {
    if Waits(c.phase).Holds? { TypedAt(b, Waits(c.phase).obj); }
    NextSegmentOk(b, c);
    hide Shape, Effected, Resume, NextItem, TxOk;
    match c.phase
    case Suspended(i) => ResumeShape(b, i);
    case InBatch(results, Holding(i), rest) => ResumeShape(b, i);
    case InBatch(results, Have(x), rest) =>
      if c.body.BatchBody? { NextItemSound(b, c.cred, c.body, results + [x], rest); }
    case _ =>
  }
}
