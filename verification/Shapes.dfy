/** The shape of the books in every reachable state: each payment's record is consistent with its
    status, the transactions map points at registered payments, and the event feed tells each
    payment's statuses in lifecycle order, the current one last. */
module Shapes {
  import opened Money
  import opened Domain
  import opened Operations
  import opened Accounting
  import opened BookInvariants

  ghost predicate Typed(b: Book) { forall i :: 0 <= i < |b.objs| ==> TxOk(b.objs[i]) }

  /** The map and its order agree with the registered payments; a collection is always the current
      entry of its key. `but` names an object whose registration is under way. */
  ghost predicate IndexedBut(b: Book, but: nat)
  {
    && (forall k :: k in b.txs ==> b.txs[k] < |b.objs| && b.objs[b.txs[k]].key == k && b.objs[b.txs[k]].registered)
    && (forall i :: 0 <= i < |b.objs| && b.objs[i].registered ==> b.objs[i].key in b.txs)
    && (forall i :: 0 <= i < |b.objs| && i != but && b.objs[i].key.kind == Collection ==>
          b.objs[i].key in b.txs && b.txs[b.objs[i].key] == i)
    && Listed(b.order, b.txs.Keys)
  }

  ghost predicate Indexed(b: Book) { IndexedBut(b, |b.objs|) }

  /** How far along its lifecycle a status stands. */
  function Stage(s: Status): nat
  {
    match s
    case Pending => 0
    case Accepted | Completed => 1
    case Dispatched | Dispatching | Vending | AwaitingPayment | InReview => 2
    case Settled | Delivered | Failed => 3
    case Refunded => 4
  }

  predicate About(e: Event, i: nat) { e.data.OfTx? && e.data.obj == i }

  ghost predicate LastAbout(events: seq<Event>, e: int, i: nat)
  {
    0 <= e < |events| && About(events[e], i) && forall f :: e < f < |events| ==> !About(events[f], i)
  }

  /** A status that is announced: transfers complete, the other kinds never do. */
  predicate Tellable(kind: Kind, s: Status) { s != Pending && (s == Completed ==> kind == Transfer) }

  /** Everything said about a payment was its status then; each stage was reached at most once. */
  predicate Told(e: Event, t: Tx)
    requires e.data.OfTx?
  {
    && e.data.tx.key == t.key && t.registered && Tellable(t.key.kind, e.data.tx.status)
    && (Stage(e.data.tx.status) < Stage(t.status) || e.data.tx.status == t.status)
  }

  /** An event goes to the owner of what it tells, under the type of what happened; a received transfer
      goes to its recipient. */
  predicate Addressed(e: Event)
  {
    match e.data
    case OfRun(run) => e.cred == run.cred && e.etype == SettlementChanged
    case OfTx(_, tx) =>
      if e.etype == TransferReceived then tx.key.kind == Transfer && e.cred == tx.party
      else
        && e.cred == tx.key.cred
        && e.etype == (if tx.status == Accepted then AcceptedType(tx.key.kind) else ChangedType(tx.key.kind))
  }

  ghost predicate EventsOk(b: Book)
  {
    && (forall e :: 0 <= e < |b.events| ==> b.events[e].id == e && Addressed(b.events[e]))
    && (forall e :: 0 <= e < |b.events| && b.events[e].data.OfTx? ==>
          b.events[e].data.obj < |b.objs| && Told(b.events[e], b.objs[b.events[e].data.obj]))
    && (forall i :: 0 <= i < |b.objs| && b.objs[i].registered ==>
          exists e :: LastAbout(b.events, e, i) && b.events[e].data.tx.status == b.objs[i].status)
  }

  ghost predicate Shape(b: Book) { Typed(b) && Indexed(b) && EventsOk(b) }

  predicate SameShape(b: Book, c: Book)
  {
    c.objs == b.objs && c.txs == b.txs && c.order == b.order && c.events == b.events
  }

  lemma SameShapeKeeps(b: Book, c: Book)
    requires Shape(b) && SameShape(b, c)
    ensures Shape(c)
  {
  }

  /* Objects changed in a book c since a book b of the right shape */

  /** c differs from b, as far as events can tell, in the one payment i and in unregistered newcomers. */
  predicate Touched(b: Book, c: Book, i: nat)
  {
    && c.events == b.events && |b.objs| <= |c.objs| && i < |c.objs|
    && (forall j :: 0 <= j < |c.objs| && j != i ==>
          if j < |b.objs| then
            && c.objs[j].key == b.objs[j].key && c.objs[j].registered == b.objs[j].registered
            && c.objs[j].status == b.objs[j].status
          else !c.objs[j].registered)
    && (i < |b.objs| ==> c.objs[i].key == b.objs[i].key)
  }

  lemma AnnounceKeeps(b: Book, c: Book, i: nat, cred: Name, etype: EventType)
    requires EventsOk(b) && Touched(b, c, i) && c.objs[i].registered && Tellable(c.objs[i].key.kind, c.objs[i].status)
    requires Addressed(Event(|c.events|, cred, etype, OfTx(i, c.objs[i])))
    requires i < |b.objs| && b.objs[i].registered ==>
      Stage(b.objs[i].status) < Stage(c.objs[i].status) || c.objs[i].status == b.objs[i].status
    ensures EventsOk(EmitTx(c, i, cred, etype))
  {
    var d := EmitTx(c, i, cred, etype);
    assert About(d.events[|b.events|], i);
    forall j | 0 <= j < |d.objs| && d.objs[j].registered
      ensures exists e :: LastAbout(d.events, e, j) && d.events[e].data.tx.status == d.objs[j].status
    {
      if j == i {
        assert LastAbout(d.events, |b.events|, i);
      } else {
        var e :| LastAbout(b.events, e, j) && b.events[e].data.tx.status == b.objs[j].status;
        assert LastAbout(d.events, e, j);
      }
    }
  }

  /** Nothing registered changed, so nothing needs telling. */
  lemma SilentKeeps(b: Book, c: Book)
    requires EventsOk(b) && c.events == b.events && |b.objs| <= |c.objs|
    requires forall j :: 0 <= j < |c.objs| ==>
      if j < |b.objs| then
        c.objs[j].key == b.objs[j].key && c.objs[j].registered == b.objs[j].registered && c.objs[j].status == b.objs[j].status
      else !c.objs[j].registered
    ensures EventsOk(c)
  {
    forall j | 0 <= j < |c.objs| && c.objs[j].registered
      ensures exists e :: LastAbout(c.events, e, j) && c.events[e].data.tx.status == c.objs[j].status
    {
      var e :| LastAbout(b.events, e, j) && b.events[e].data.tx.status == b.objs[j].status;
      assert LastAbout(c.events, e, j);
    }
  }

  lemma EmitRunKeeps(b: Book, cred: Name, run: SettlementRun)
    requires EventsOk(b) && cred == run.cred
    ensures EventsOk(Emit(b, cred, SettlementChanged, OfRun(run)))
  {
    var c := Emit(b, cred, SettlementChanged, OfRun(run));
    forall j | 0 <= j < |c.objs| && c.objs[j].registered
      ensures exists e :: LastAbout(c.events, e, j) && c.events[e].data.tx.status == c.objs[j].status
    {
      var e :| LastAbout(b.events, e, j) && b.events[e].data.tx.status == b.objs[j].status;
      assert LastAbout(c.events, e, j);
    }
  }

  /* The map */

  lemma AddIndexed(b: Book, t: Tx)
    requires Indexed(b) && !t.registered
    ensures IndexedBut(AddObj(b, t), |b.objs|)
    ensures t.key.kind != Collection ==> Indexed(AddObj(b, t))
  {
  }

  lemma RecordIndexed(b: Book, i: nat, review: bool)
    requires i < |b.objs| && IndexedBut(b, i) && !b.objs[i].registered
    requires b.objs[i].key.kind == Collection ==> b.objs[i].key !in b.txs
    ensures Indexed(Record(b, i, review))
  {
    RecordKeys(b, i, review);
    assert IndexedBut(b, i) ==> Listed(b.order, b.txs.Keys);
    RecordListed(b, i, review);
    hide IndexedBut, Listed, Record, OutcomeFor;
    EnteredIndexed(b, Record(b, i, review), i, Enrolled(b.config, b.objs[i], review));
  }

  lemma EnteredIndexed(b: Book, c: Book, i: nat, t: Tx)
    requires i < |b.objs| && IndexedBut(b, i) && !b.objs[i].registered && t.key == b.objs[i].key && t.registered
    requires t.key.kind == Collection ==> t.key !in b.txs
    requires c.objs == b.objs[i := t] && c.txs == b.txs[t.key := i] && Listed(c.order, c.txs.Keys)
    ensures Indexed(c)
  {
    hide Listed;
  }

  lemma RecordListed(b: Book, i: nat, review: bool)
    requires i < |b.objs| && Listed(b.order, b.txs.Keys)
    ensures Listed(Record(b, i, review).order, Record(b, i, review).txs.Keys)
  {
    RecordKeys(b, i, review);
    hide Listed, Record;
    var key, c := b.objs[i].key, Record(b, i, review);
    if key in b.txs {
      assert c.txs.Keys == b.txs.Keys;
    } else {
      ListedAppend(b.order, b.txs.Keys, key);
      assert c.txs.Keys == b.txs.Keys + {key};
    }
  }

  lemma RecordKeys(b: Book, i: nat, review: bool)
    requires i < |b.objs|
    ensures var c, key := Record(b, i, review), b.objs[i].key;
            && c.txs == b.txs[key := i] && c.order == (if key in b.txs then b.order else b.order + [key])
            && c.objs == b.objs[i := Enrolled(b.config, b.objs[i], review)]
            && c.config == b.config && c.events == b.events && c.wallets == b.wallets && c.walletOrder == b.walletOrder
  {
    var t := b.objs[i];
    NotesOnly(Register(b, i, review), t.key.cred, t.amount, t.key.kind == Collection);
    hide NoteVolume, OutcomeFor;
  }

  lemma SetIndexed(b: Book, i: nat, t: Tx)
    requires Indexed(b) && i < |b.objs| && t.key == b.objs[i].key && t.registered == b.objs[i].registered
    ensures Indexed(SetObj(b, i, t))
  {
  }

  /* Composite changes: types, then the map, then the feed */

  /** Everything but object i is typed. */
  ghost predicate TypedBut(b: Book, i: nat) { forall j :: 0 <= j < |b.objs| && j != i ==> TxOk(b.objs[j]) }

  lemma AddTyped(b: Book, t: Tx)
    requires Typed(b)
    ensures TypedBut(AddObj(b, t), |b.objs|)
    ensures TxOk(t) ==> Typed(AddObj(b, t))
  {
    hide TxOk;
  }

  lemma RecordTyped(b: Book, i: nat, review: bool, cred: Name, etype: EventType)
    requires i < |b.objs| && TypedBut(b, i) && TxOk(Enrolled(b.config, b.objs[i], review))
    ensures Typed(EmitTx(Record(b, i, review), i, cred, etype))
  {
    hide TxOk;
  }

  lemma RecordEvents(b: Book, i: nat, review: bool, cred: Name, etype: EventType)
    requires i < |b.objs| && EventsOk(b) && !b.objs[i].registered && b.objs[i].status == Accepted
    requires cred == b.objs[i].key.cred && etype == AcceptedType(b.objs[i].key.kind) && b.objs[i].key.kind != Transfer
    ensures EventsOk(EmitTx(Record(b, i, review), i, cred, etype))
  {
    hide EventsOk;
    AnnounceKeeps(b, Record(b, i, review), i, cred, etype);
  }

  lemma StatusTyped(b: Book, i: nat, t: Tx)
    requires i < |b.objs| && TypedBut(b, i) && TxOk(t)
    ensures Typed(SetStatus(b, i, t))
  {
    hide TxOk;
  }

  lemma StatusEvents(b: Book, i: nat, t: Tx)
    requires i < |b.objs| && EventsOk(b) && t.key == b.objs[i].key && t.registered && Tellable(t.key.kind, t.status)
    requires t.status != Accepted
    requires !b.objs[i].registered || Stage(b.objs[i].status) < Stage(t.status)
    ensures EventsOk(SetStatus(b, i, t))
  {
    hide EventsOk;
    AnnounceKeeps(b, SetObj(b, i, t), i, t.key.cred, ChangedType(t.key.kind));
  }

  lemma OkTellable(t: Tx)
    requires TxOk(t) && t.registered
    ensures Tellable(t.key.kind, t.status)
  {
  }

  lemma NotAccepted(b: Book, i: nat, t: Tx)
    requires Typed(b) && i < |b.objs| && b.objs[i].registered && Stage(b.objs[i].status) < Stage(t.status)
    ensures t.status != Accepted
  {
    assert TxOk(b.objs[i]);
  }

  lemma StatusShape(b: Book, i: nat, t: Tx)
    requires Shape(b) && i < |b.objs| && TxOk(t) && t.key == b.objs[i].key && t.registered && b.objs[i].registered
    requires Stage(b.objs[i].status) < Stage(t.status)
    ensures Shape(SetStatus(b, i, t))
  {
    NotAccepted(b, i, t);
    hide TxOk, EventsOk, IndexedBut, Tellable, Stage, Emit, Typed, TypedBut, ChangedType;
    OkTellable(t);
    ShapeButTyped(b, i);
    StatusTyped(b, i, t);
    StatusEvents(b, i, t);
    SetIndexed(b, i, t);
    EmitIndexed(SetObj(b, i, t), t.key.cred, ChangedType(t.key.kind), OfTx(i, t));
  }

  /** The map and its order read the payments only. */
  lemma EmitIndexed(b: Book, cred: Name, etype: EventType, data: EventData)
    requires Indexed(b)
    ensures Indexed(Emit(b, cred, etype, data))
  {
    hide Listed;
  }

  lemma ShapeButTyped(b: Book, i: nat)
    requires Typed(b)
    ensures TypedBut(b, i)
  {
    hide TxOk;
  }

  lemma SameIndexed(b: Book, c: Book)
    requires Indexed(b) && c.objs == b.objs && c.txs == b.txs && c.order == b.order
    ensures Indexed(c)
  {
    hide Listed;
  }

  /* Operations */

  lemma HoldShape(b: Book, t: Tx)
    requires Shape(b) && Holdable(t) && TxOk(t)
    ensures Shape(Hold(b, t).book)
  {
    hide Listed, TxOk, EventsOk;
    var d := Draw(b);
    if CanDebit(d, t.key.cred, Pays(t)) {
      HeldShape(b, Hold(b, t).book, t);
    } else {
      SameShapeKeeps(b, EnsureWallet(d, t.key.cred));
    }
  }

  lemma HeldShape(b: Book, c: Book, t: Tx)
    requires Shape(b) && Holdable(t) && TxOk(t) && SameShape(AddObj(b, t), c)
    ensures Shape(c)
  {
    hide Listed, TxOk;
    AddTyped(b, t);
    AddIndexed(b, t);
    SilentKeeps(b, AddObj(b, t));
    SameShapeKeeps(AddObj(b, t), c);
  }

  lemma ResumeHeldShape(b: Book, i: nat, review: bool)
    requires Shape(b) && i < |b.objs| && !b.objs[i].registered && b.objs[i].key.kind in {Payout, Utility}
    requires review ==> b.objs[i].key.kind == Payout
    ensures Shape(ResumeHeld(b, i, review).book)
  {
    hide Listed, EventsOk;
    var t := b.objs[i];
    RecordTyped(b, i, review, t.key.cred, AcceptedType(t.key.kind));
    RecordIndexed(b, i, review);
    RecordEvents(b, i, review, t.key.cred, AcceptedType(t.key.kind));
    SameIndexed(Record(b, i, review), EmitTx(Record(b, i, review), i, t.key.cred, AcceptedType(t.key.kind)));
    hide Typed, IndexedBut, Record, EmitTx;
  }

  lemma CreatedShape(b: Book, t: Tx)
    requires Shape(b) && !t.registered && t.key.kind == Collection && t.key !in b.txs && t.status == Accepted
    requires TxOk(Enrolled(b.config, t, false))
    ensures Shape(EmitTx(Record(AddObj(b, t), |b.objs|, false), |b.objs|, t.key.cred, CollectionAccepted))
  {
    OkTellable(Enrolled(b.config, t, false));
    hide Listed, EventsOk, TxOk;
    var c, i := AddObj(b, t), |b.objs|;
    AddTyped(b, t);
    AddIndexed(b, t);
    AddedEvents(b, t);
    RecordTyped(c, i, false, t.key.cred, CollectionAccepted);
    RecordIndexed(c, i, false);
    RecordEvents(c, i, false, t.key.cred, CollectionAccepted);
    SameIndexed(Record(c, i, false), EmitTx(Record(c, i, false), i, t.key.cred, CollectionAccepted));
    hide Typed, IndexedBut, Record, EmitTx;
  }

  lemma AddedEvents(b: Book, t: Tx)
    requires EventsOk(b) && !t.registered
    ensures EventsOk(AddObj(b, t))
  {
    SilentKeeps(b, AddObj(b, t));
  }

  lemma AmountPositive(s: string)
    ensures ParseAmount(s).Some? ==> ParseAmount(s).value > 0
  {
  }

  lemma DrawShape(b: Book)
    requires Shape(b)
    ensures Shape(Draw(b)) && Draw(b).txs == b.txs && Draw(b).config == b.config && Draw(b).objs == b.objs
  {
    hide Shape;
    SameShapeKeeps(b, Draw(b));
  }

  /** A new collection is as its status prescribes. */
  lemma CollectionOk(b: Book, key: TxKey, amount: nat, r: Body)
    requires WellFormed(b.config) && amount > 0 && key.kind == Collection
    ensures var t := NewTx(b, key, amount, Fee(amount, b.config.feeRate), r, r.party, FromPayer);
            t.key == key && !t.registered && t.status == Accepted && TxOk(Enrolled(b.config, t, false))
    requires r.CollectionBody?
  {
    hide Fee, FixtureOutcome;
    RecipientIsOwed(amount, b.config.feeRate, NonInitiator);
  }

  lemma CollectionShape(b: Book, cred: Name, r: Body)
    requires Shape(b) && WellFormed(b.config) && r.CollectionBody?
    ensures Shape(CreateCollection(b, cred, r).book)
  {
    hide Shape, Typed, EventsOk, ParseAmount, Fee, Record, EmitTx, AddObj, Draw, CheckLimits, KnownProvider, TxOk;
    var g := CreateCollection(b, cred, r);
    if |g.later| == 2 {
      var amount := ParseAmount(r.amount).value;
      var t := NewTx(b, TxKey(Collection, cred, r.reference), amount, Fee(amount, b.config.feeRate), r, r.party,
                     FromPayer);
      AmountPositive(r.amount);
      RecipientIsOwed(amount, b.config.feeRate, NonInitiator);
      ShapeIndexed(b);
      hide IndexedBut;
      AbsentMeans(b, t.key, r);
      DrawShape(b);
      CollectionOk(b, t.key, amount, r);
      CreatedShape(Draw(b), t);
    }
  }

  lemma ShapeIndexed(b: Book)
    requires Shape(b)
    ensures Indexed(b) && EventsOk(b)
  {
  }

  lemma AbsentMeans(b: Book, key: TxKey, hash: Body)
    requires Indexed(b)
    ensures Existing(b, key, hash) == Absent <==> key !in b.txs
  {
  }

  /** A credited transfer registered and completed, before it is announced. */
  function CompleteTransfer(b: Book, i: nat): Book
    requires i < |b.objs|
  {
    var c := Record(b, i, false);
    SetObj(c, i, c.objs[i].(status := Status.Completed, completed := true))
  }

  lemma TransferIndexed(b: Book, i: nat)
    requires Indexed(b) && i < |b.objs| && !b.objs[i].registered && b.objs[i].key.kind == Transfer
    ensures Indexed(CompleteTransfer(b, i))
  {
    RecordIndexed(b, i, false);
    RecordKeys(b, i, false);
    hide IndexedBut, Record;
    var c := Record(b, i, false);
    SetIndexed(c, i, c.objs[i].(status := Status.Completed, completed := true));
  }

  lemma TransferTyped(b: Book, i: nat)
    requires Typed(b) && i < |b.objs| && !b.objs[i].registered && b.objs[i].key.kind == Transfer
    ensures Typed(CompleteTransfer(b, i))
  {
    assert TxOk(b.objs[i]);
    assert TxOk(CompleteTransfer(b, i).objs[i]);
    hide TxOk;
  }

  lemma CreditedTransferShape(b: Book, i: nat)
    requires Shape(b) && i < |b.objs| && !b.objs[i].registered && b.objs[i].key.kind == Transfer
    ensures var c := CompleteTransfer(b, i);
            Shape(EmitTx(EmitTx(c, i, c.objs[i].key.cred, TransferChanged), i, c.objs[i].party, TransferReceived))
  {
    hide EventsOk, TxOk, Listed, IndexedBut, Typed;
    TransferIndexed(b, i);
    TransferTyped(b, i);
    TransferTouches(b, i);
    TransferEvents(b, CompleteTransfer(b, i), i);
    var c := CompleteTransfer(b, i);
    hide CompleteTransfer;
    TwiceToldShape(c, i, c.objs[i].key.cred, TransferChanged, c.objs[i].party, TransferReceived);
  }

  lemma TransferTouches(b: Book, i: nat)
    requires i < |b.objs| && !b.objs[i].registered && b.objs[i].key.kind == Transfer
    ensures var c := CompleteTransfer(b, i);
            && Touched(b, c, i) && c.objs[i].registered && c.objs[i].key.kind == Transfer && c.objs[i].status == Status.Completed
  {
  }

  /** Announcing touches nothing but the feed. */
  lemma TwiceToldShape(c: Book, i: nat, cred: Name, etype: EventType, other: Name, second: EventType)
    requires i < |c.objs| && Typed(c) && Indexed(c)
    requires EventsOk(EmitTx(EmitTx(c, i, cred, etype), i, other, second))
    ensures Shape(EmitTx(EmitTx(c, i, cred, etype), i, other, second))
  {
    hide TxOk, Listed, EventsOk;
  }

  lemma ResumeTransferShape(b: Book, i: nat)
    requires Shape(b) && i < |b.objs| && !b.objs[i].registered && b.objs[i].key.kind == Transfer
    ensures Shape(ResumeTransfer(b, i).book)
  {
    hide Shape;
    var t := b.objs[i];
    var b1 := Credit(b, t.party, t.amount, t.key.reference, TransferIn);
    MovedShape(b, t.party, t.amount, 0, t.key.reference, TransferIn);
    hide Move, Record, SetObj, Emit;
    CreditedTransferShape(b1, i);
  }

  lemma TransferEvents(b: Book, c: Book, i: nat)
    requires EventsOk(b) && Touched(b, c, i) && i < |b.objs| && !b.objs[i].registered && c.objs[i].registered
    requires c.objs[i].key.kind == Transfer && c.objs[i].status == Status.Completed
    ensures EventsOk(EmitTx(EmitTx(c, i, c.objs[i].key.cred, TransferChanged), i, c.objs[i].party, TransferReceived))
  {
    hide EventsOk;
    AnnounceKeeps(b, c, i, c.objs[i].key.cred, TransferChanged);
    var d := EmitTx(c, i, c.objs[i].key.cred, TransferChanged);
    AnnounceKeeps(d, d, i, c.objs[i].party, TransferReceived);
  }

  lemma ResumeShape(b: Book, i: nat)
    requires Shape(b) && i < |b.objs| && !b.objs[i].registered
    ensures Shape(Resume(b, i).book)
  {
    var t := b.objs[i];
    assert TxOk(t);
    hide Shape;
    match t.key.kind
    case Transfer => ResumeTransferShape(b, i);
    case Utility =>
      SameShapeKeeps(b, EnsureWallet(b, t.key.cred));
      ResumeHeldShape(EnsureWallet(b, t.key.cred), i, false);
    case Payout => ResumeHeldShape(b, i, UnderReview(b.config, t.amount));
  }

  lemma StartPayoutShape(b: Book, cred: Name, r: PayoutRequest)
    requires Shape(b)
    ensures Shape(StartPayout(b, cred, r).book)
  {
    hide Shape, ParseAmount, Fee, Hold;
    var amount := ParseAmount(r.amount);
    AmountPositive(r.amount);
    if amount.Some? {
      HoldShape(b, NewTx(b, TxKey(Payout, cred, r.reference), amount.value, Fee(amount.value, b.config.feeRate),
                         PayoutBody(r), r.party, FromWallet));
    }
  }

  lemma StartTransferShape(b: Book, cred: Name, r: Body)
    requires Shape(b) && r.TransferBody?
    ensures Shape(StartTransfer(b, cred, r).book)
  {
    hide Shape, ParseAmount, Hold;
    var amount := ParseAmount(r.amount);
    AmountPositive(r.amount);
    if amount.Some? {
      HoldShape(b, NewTx(b, TxKey(Transfer, cred, r.reference), amount.value, 0, r, r.handle, FromWallet));
    }
  }

  /** A purchase the payer funds is registered at once, without a debit. */
  lemma UnfundedShape(b: Book, t: Tx)
    requires Shape(b) && Newborn(t) && t.key.kind == Utility && t.funding == FromPayer && t.amount > 0
    ensures Shape(Resume(AddObj(b, t), |b.objs|).book)
  {
    hide Shape, EnsureWallet, EmitTx, Record;
    var b1 := EnsureWallet(b, t.key.cred);
    EnsureAdd(b, t, t.key.cred);
    EnsuredShape(b, t.key.cred);
    UnfundedRecordShape(b1, t);
  }

  lemma EnsureAdd(b: Book, t: Tx, id: Name)
    ensures EnsureWallet(AddObj(b, t), id) == AddObj(EnsureWallet(b, id), t)
  {
  }

  lemma EnsuredShape(b: Book, id: Name)
    requires Shape(b)
    ensures Shape(EnsureWallet(b, id)) && EnsureWallet(b, id).objs == b.objs
  {
    hide Shape;
    SameShapeKeeps(b, EnsureWallet(b, id));
  }

  lemma UnfundedRecordShape(b: Book, t: Tx)
    requires Shape(b) && Newborn(t) && t.key.kind == Utility && t.funding == FromPayer && t.amount > 0
    ensures Shape(EmitTx(Record(AddObj(b, t), |b.objs|, false), |b.objs|, t.key.cred, UtilityAccepted))
  {
    var c, i := AddObj(b, t), |b.objs|;
    assert TxOk(Enrolled(b.config, t, false));
    hide Listed, EventsOk, TxOk;
    AddTyped(b, t);
    AddIndexed(b, t);
    AddedEvents(b, t);
    RecordTyped(c, i, false, t.key.cred, UtilityAccepted);
    RecordIndexed(c, i, false);
    RecordEvents(c, i, false, t.key.cred, UtilityAccepted);
    SameIndexed(Record(c, i, false), EmitTx(Record(c, i, false), i, t.key.cred, UtilityAccepted));
    hide Typed, IndexedBut, Record, EmitTx;
  }

  lemma StartUtilityShape(b: Book, cred: Name, r: Body)
    requires Shape(b) && r.UtilityBody?
    ensures Shape(StartUtility(b, cred, r).book)
  {
    hide Shape, ParseAmount, FindProduct, Fee, Hold, Resume;
    AmountPositive(r.amount);
    if UtilityFault(r).None? {
      var amount := ParseAmount(r.amount).value;
      var t := NewTx(b, TxKey(Utility, cred, r.reference), amount, Fee(amount, b.config.feeRate), r, Name(""),
                     r.funding);
      if r.funding == FromWallet {
        HoldShape(b, t);
      } else {
        SameShapeKeeps(b, Draw(b));
        UnfundedShape(Draw(b), t);
      }
    }
  }

  /* Timer steps */

  lemma TypedAt(b: Book, i: nat)
    requires Shape(b) && i < |b.objs|
    ensures TxOk(b.objs[i])
  {
    hide TxOk, Indexed, EventsOk;
  }

  /** Each status a timer step moves to suits the payment, one stage on. */
  lemma NextStatusOk(t: Tx, act: Act)
    requires TxOk(t) && Fits(t, act)
    ensures act.Half? ==> TxOk(t.(status := HalfStatus(t))) && Stage(HalfStatus(t)) > Stage(t.status)
    ensures act.Review? ==> TxOk(t.(status := InReview)) && Stage(InReview) > Stage(t.status)
    ensures act.Refund? ==> TxOk(t.(status := Refunded, completed := true)) && Stage(Refunded) > Stage(t.status)
    ensures act.Final? ==> Stage(Failed) > Stage(t.status)
  {
  }

  /** The two endings of a collection. */
  lemma CollectionEnds(t: Tx, half: nat, i: nat)
    requires TxOk(t) && Fits(t, Final(i, half)) && t.key.kind == Collection
    ensures if t.outcome == Succeeds then TxOk(t.(status := Settled, settlement := Eligible, completed := true))
            else TxOk(t.(status := Failed, failure := Some(if t.outcome == FailsOnPin then WrongPin else Declined), completed := true))
  {
  }

  /** The two endings of the final step of a payout or a purchase. */
  lemma HeldEnds(t: Tx, half: nat, i: nat)
    requires TxOk(t) && Fits(t, Final(i, half)) && t.key.kind in {Payout, Utility}
    ensures t.key.kind == Utility || t.outcome == Succeeds ==> TxOk(t.(status := Delivered, completed := true))
    ensures t.key.kind == Utility || t.outcome != Succeeds ==>
      TxOk(t.(status := Failed, failure := Some(if t.key.kind == Payout then Declined else VendFailed)))
  {
  }

  lemma MovedShape(b: Book, id: Name, db: int, dr: int, ref: Name, kind: EntryKind)
    requires Shape(b)
    ensures var c := Move(b, id, db, dr, ref, kind);
            Shape(c) && c.objs == b.objs && c.config == b.config
  {
    EnsuresOnly(b, id);
    hide Shape, EnsureWallet;
    SameShapeKeeps(b, Move(b, id, db, dr, ref, kind));
  }

  lemma ReleasedShape(b: Book, cred: Name, p: nat)
    requires Shape(b)
    ensures Shape(Release(b, cred, p)) && Release(b, cred, p).objs == b.objs
  {
    EnsuresOnly(b, cred);
    hide Shape, EnsureWallet;
    SameShapeKeeps(b, Release(b, cred, p));
  }

  lemma CollectionFinalShape(b: Book, i: nat, half: nat)
    requires Shape(b) && i < |b.objs| && Fits(b.objs[i], Final(i, half)) && b.objs[i].key.kind == Collection
    ensures Shape(RunFinal(b, i, half).0)
  {
    hide Shape, Move, TxOk, SetStatus;
    var t := b.objs[i];
    TypedAt(b, i);
    CollectionEnds(t, half, i);
    if t.outcome == Succeeds {
      MovedShape(b, t.key.cred, Recipient(t), 0, t.key.reference, CollectionCredit);
      StatusShape(Credit(b, t.key.cred, Recipient(t), t.key.reference, CollectionCredit), i,
                  t.(status := Settled, settlement := Eligible, completed := true));
    } else {
      var reason := if t.outcome == FailsOnPin then WrongPin else Declined;
      StatusShape(b, i, t.(status := Failed, failure := Some(reason), completed := true));
    }
  }

  lemma DeliveredShape(b: Book, i: nat, half: nat)
    requires Shape(b) && i < |b.objs| && b.objs[i].key.kind in {Payout, Utility} && Fits(b.objs[i], Final(i, half))
    requires b.objs[i].key.kind == Utility || b.objs[i].outcome == Succeeds
    ensures Shape(SetStatus(b, i, b.objs[i].(status := Delivered, completed := true)))
  {
    hide Shape, TxOk, SetStatus;
    var t := b.objs[i];
    TypedAt(b, i);
    HeldEnds(t, half, i);
    StatusShape(b, i, t.(status := Delivered, completed := true));
  }

  lemma FailedShape(b: Book, i: nat, half: nat)
    requires Shape(b) && i < |b.objs| && b.objs[i].key.kind in {Payout, Utility} && Fits(b.objs[i], Final(i, half))
    requires b.objs[i].key.kind == Utility || b.objs[i].outcome != Succeeds
    ensures var reason := if b.objs[i].key.kind == Payout then Declined else VendFailed;
            Shape(SetStatus(b, i, b.objs[i].(status := Failed, failure := Some(reason))))
  {
    hide Shape, TxOk, SetStatus;
    TypedAt(b, i);
    HeldEnds(b.objs[i], half, i);
    NextStatusOk(b.objs[i], Final(i, half));
    var reason := if b.objs[i].key.kind == Payout then Declined else VendFailed;
    StatusShape(b, i, b.objs[i].(status := Failed, failure := Some(reason)));
  }

  lemma FinalShape(b: Book, i: nat, half: nat)
    requires Shape(b) && i < |b.objs| && Fits(b.objs[i], Final(i, half))
    ensures Shape(RunFinal(b, i, half).0)
  {
    hide Shape, Release, SetStatus;
    var c := Release(b, b.objs[i].key.cred, Pays(b.objs[i]));
    ReleasedShape(b, b.objs[i].key.cred, Pays(b.objs[i]));
    match b.objs[i].key.kind
    case Collection => CollectionFinalShape(b, i, half);
    case Payout => if b.objs[i].outcome == Succeeds { DeliveredShape(c, i, half); } else { FailedShape(b, i, half); }
    case Utility =>
      DeliveredShape(b, i, half);
      DeliveredShape(c, i, half);
      FailedShape(b, i, half);
  }

  lemma RefundShape(b: Book, i: nat)
    requires Shape(b) && i < |b.objs| && Fits(b.objs[i], Refund(i))
    ensures Shape(RunAct(b, Refund(i)).0)
  {
    hide Shape, Move, Release, TxOk, SetStatus;
    var t := b.objs[i];
    TypedAt(b, i);
    NextStatusOk(t, Refund(i));
    ReleasedShape(b, t.key.cred, Pays(t));
    var b1 := Release(b, t.key.cred, Pays(t));
    MovedShape(b1, t.key.cred, Pays(t), 0, t.key.reference, RefundKind(t.key.kind));
    StatusShape(Credit(b1, t.key.cred, Pays(t), t.key.reference, RefundKind(t.key.kind)), i,
                t.(status := Refunded, completed := true));
  }

  lemma ActShape(b: Book, act: Act)
    requires Shape(b) && act.obj < |b.objs| && Fits(b.objs[act.obj], act)
    ensures Shape(RunAct(b, act).0)
  {
    hide Shape, TxOk, SetStatus, RunFinal;
    var i, t := act.obj, b.objs[act.obj];
    TypedAt(b, i);
    NextStatusOk(t, act);
    match act
    case Final(_, half) => FinalShape(b, i, half);
    case Refund(_) => RefundShape(b, i);
    case Review(_) => StatusShape(b, i, t.(status := InReview));
    case Half(_) => StatusShape(b, i, t.(status := HalfStatus(t)));
  }

  /* Settlement and the rest */

  lemma PayOutShape(b: Book, cred: Name)
    requires Shape(b)
    ensures Shape(b.(objs := PayOutAll(b.objs, cred)))
  {
    hide Listed;
    var c := b.(objs := PayOutAll(b.objs, cred));
    PayOutTyped(b, cred);
    PayOutIndexed(b, cred);
    hide Typed, IndexedBut;
    SilentKeeps(b, c);
    hide EventsOk;
  }

  lemma PayOutKeys(objs: seq<Tx>, cred: Name)
    ensures forall i :: 0 <= i < |objs| ==>
      PayOutAll(objs, cred)[i].key == objs[i].key && PayOutAll(objs, cred)[i].registered == objs[i].registered
  {
  }

  lemma PayOutIndexed(b: Book, cred: Name)
    requires Indexed(b)
    ensures Indexed(b.(objs := PayOutAll(b.objs, cred)))
  {
    PayOutKeys(b.objs, cred);
    hide Listed, PayOut, PayOutAll;
  }

  lemma PayOutTyped(b: Book, cred: Name)
    requires Typed(b)
    ensures Typed(b.(objs := PayOutAll(b.objs, cred)))
  {
    forall i | 0 <= i < |b.objs| ensures TxOk(PayOut(b.objs[i], cred)) { assert TxOk(b.objs[i]); }
    hide TxOk;
  }

  lemma EmitRunShape(b: Book, cred: Name, run: SettlementRun)
    requires Shape(b) && cred == run.cred
    ensures Shape(Emit(b, cred, SettlementChanged, OfRun(run)))
  {
    EmitRunKeeps(b, cred, run);
  }

  lemma SettleShape(b: Book, cred: Name, reference: Name)
    requires Shape(b)
    ensures Shape(SettleNow(b, cred, reference).book)
  {
    hide Shape, PayOutAll, DueTotal, DueCount, FindRun, RunId, Move, Emit;
    if b.policy.Some? && FindRun(b.runs, cred, reference).None? {
      var net := DueTotal(b.objs, cred);
      var run := SettlementRun(b.serial + 1, reference, cred, DueCount(b.objs, cred), net);
      if net > 0 {
        PayOutShape(b, cred);
        PayRunShape(b.(objs := PayOutAll(b.objs, cred)), run, RunId(run.id));
      } else {
        EmptyRunShape(b, run);
      }
    }
  }

  lemma EmptyRunShape(b: Book, run: SettlementRun)
    requires Shape(b)
    ensures Shape(Emit(Draw(b).(runs := b.runs + [run]), run.cred, SettlementChanged, OfRun(run)))
  {
    hide Shape;
    SameShapeKeeps(b, Draw(b).(runs := b.runs + [run]));
    EmitRunShape(Draw(b).(runs := b.runs + [run]), run.cred, run);
  }

  lemma PayRunShape(b: Book, run: SettlementRun, ref: Name)
    requires Shape(b)
    ensures var c := Move(Draw(b), run.cred, 0 - run.total, 0, ref, SettlementPaid);
            Shape(Emit(c.(runs := c.runs + [run]), run.cred, SettlementChanged, OfRun(run)))
  {
    hide Shape, Move;
    SameShapeKeeps(b, Draw(b));
    MovedShape(Draw(b), run.cred, 0 - run.total, 0, ref, SettlementPaid);
    var c := Move(Draw(b), run.cred, 0 - run.total, 0, ref, SettlementPaid);
    SameShapeKeeps(c, c.(runs := c.runs + [run]));
    EmitRunShape(c.(runs := c.runs + [run]), run.cred, run);
  }

  lemma SetBalanceShape(b: Book, cred: Name, amount: string)
    requires Shape(b)
    ensures Shape(SetBalance(b, cred, amount))
  {
    hide Shape, ParseAmount;
    SameShapeKeeps(b, SetBalance(b, cred, amount));
  }
}
