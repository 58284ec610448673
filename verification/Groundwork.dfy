/** What every run keeps whatever the configurations and the order of the timers: no drift, effect and
    volume counters that match the payments, a transactions map that matches them too, and exactly one
    call waiting on each payment not yet registered. */
module Groundwork {
  import opened Money
  import opened Domain
  import opened Operations
  import opened Accounting
  import opened BookInvariants
  import opened Shapes
  import opened Protocol
  import opened Segments
  import opened Sums

  ghost predicate Tallied(b: Book) { WalletsOk(b) && forall w, k :: CountsAt(b, w, k) }

  /** Events are numbered in order, and only debited payments are ever unregistered. */
  predicate Filed(b: Book)
  {
    && (forall e :: 0 <= e < |b.events| ==> b.events[e].id == e)
    && (forall i :: 0 <= i < |b.objs| && !b.objs[i].registered ==> b.objs[i].key.kind != Collection)
  }

  ghost predicate Grounded(b: Book) { Tallied(b) && Indexed(b) && Filed(b) }

  /* Primitives */

  /** Books that agree in everything the ground reads. */
  predicate SameGround(b: Book, c: Book)
  {
    && c.wallets == b.wallets && c.walletOrder == b.walletOrder && c.ledger == b.ledger && c.objs == b.objs && c.txs == b.txs && c.order == b.order
    && c.effects == b.effects && c.dailyIn == b.dailyIn && c.dailyOut == b.dailyOut && c.events == b.events
  }

  lemma SameGrounded(b: Book, c: Book)
    requires Grounded(b) && SameGround(b, c)
    ensures Grounded(c)
  {
    hide SumBy, Listed;
    forall w, k ensures CountsAt(c, w, k) { assert CountsAt(b, w, k); }
  }

  /** A wallet's balance moves with a ledger entry, or not at all. */
  lemma MoveCounts(b: Book, id: Name, db: int, dr: int, ref: Name, kind: EntryKind, w: Name, k: TxKey)
    requires CountsAt(b, w, k)
    ensures CountsAt(Move(b, id, db, dr, ref, kind), w, k)
  {
    hide SumBy;
    MoveAt(b, id, db, dr, ref, kind, w, k);
    MovedCounters(b, id, db, dr, ref, kind);
    hide Move, Drift;
  }

  lemma MoveTallied(b: Book, id: Name, db: int, dr: int, ref: Name, kind: EntryKind)
    requires Tallied(b)
    ensures Tallied(Move(b, id, db, dr, ref, kind))
  {
    hide Move, CountsAt, WalletsOk, FundsGap;
    MoveFunds(b, id, db, dr, ref, kind);
    forall w, k ensures CountsAt(Move(b, id, db, dr, ref, kind), w, k) {
      assert CountsAt(b, w, k);
      MoveCounts(b, id, db, dr, ref, kind, w, k);
    }
  }

  lemma MoveGrounded(b: Book, id: Name, db: int, dr: int, ref: Name, kind: EntryKind)
    requires Grounded(b)
    ensures Grounded(Move(b, id, db, dr, ref, kind)) && Move(b, id, db, dr, ref, kind).objs == b.objs
  {
    hide Tallied, Listed;
    MovePlain(b, id, db, dr, ref, kind);
    MoveMap(b, id, db, dr, ref, kind);
    hide Move;
    MoveTallied(b, id, db, dr, ref, kind);
  }

  lemma MoveMap(b: Book, id: Name, db: int, dr: int, ref: Name, kind: EntryKind)
    ensures Move(b, id, db, dr, ref, kind).txs == b.txs
  {
    EnsuresOnly(b, id);
    hide EnsureWallet;
  }

  lemma EnsureCounts(b: Book, id: Name, w: Name, k: TxKey)
    requires CountsAt(b, w, k)
    ensures CountsAt(EnsureWallet(b, id), w, k)
  {
    hide SumBy;
    EnsureAt(b, id, w);
    if id in b.wallets {} else {}
  }

  lemma EnsureGrounded(b: Book, id: Name)
    requires Grounded(b)
    ensures Grounded(EnsureWallet(b, id)) && EnsureWallet(b, id).objs == b.objs
  {
    hide CountsAt, Listed;
    EnsureKeepsOrder(b, id);
    forall w, k ensures CountsAt(EnsureWallet(b, id), w, k) {
      assert CountsAt(b, w, k);
      EnsureCounts(b, id, w, k);
    }
  }

  lemma ReleaseCounts(b: Book, cred: Name, p: nat, w: Name, k: TxKey)
    requires CountsAt(b, w, k)
    ensures CountsAt(Release(b, cred, p), w, k)
  {
    hide SumBy;
    ReleaseAt(b, cred, p, w, k);
    hide Release, Drift, EffectGap, InwardGap, OutwardGap;
  }

  lemma ReleaseGrounded(b: Book, cred: Name, p: nat)
    requires Grounded(b)
    ensures Grounded(Release(b, cred, p)) && Release(b, cred, p).objs == b.objs
  {
    hide CountsAt, Listed, FundsGap;
    ReleaseFunds(b, cred, p);
    forall w, k ensures CountsAt(Release(b, cred, p), w, k) {
      assert CountsAt(b, w, k);
      ReleaseCounts(b, cred, p, w, k);
    }
  }

  lemma EmitGrounded(b: Book, cred: Name, etype: EventType, data: EventData)
    requires Grounded(b)
    ensures Grounded(Emit(b, cred, etype, data)) && Emit(b, cred, etype, data).objs == b.objs
  {
    hide SumBy, Listed;
    forall w, k ensures CountsAt(Emit(b, cred, etype, data), w, k) { assert CountsAt(b, w, k); }
  }

  lemma AddCounts(b: Book, t: Tx, w: Name, k: TxKey)
    requires CountsAt(b, w, k) && !t.registered
    ensures CountsAt(AddObj(b, t), w, k)
  {
    hide SumBy;
    AddAt(b, t, w, k);
    hide AddObj, Drift, EffectGap, InwardGap, OutwardGap;
  }

  lemma AddGrounded(b: Book, t: Tx)
    requires Grounded(b) && !t.registered && t.key.kind != Collection
    ensures Grounded(AddObj(b, t))
  {
    AddIndexed(b, t);
    hide CountsAt, IndexedBut;
    forall w, k ensures CountsAt(AddObj(b, t), w, k) {
      assert CountsAt(b, w, k);
      AddCounts(b, t, w, k);
    }
  }

  lemma SetCounts(b: Book, i: nat, t: Tx, w: Name, k: TxKey)
    requires CountsAt(b, w, k) && i < |b.objs| && SameEntry(b.objs[i], t)
    ensures CountsAt(SetObj(b, i, t), w, k)
  {
    hide SumBy;
    SetAt(b, i, t, w, k);
    hide SetObj, Drift, EffectGap, InwardGap, OutwardGap;
  }

  /** The parts of a payment that counters and map read. */
  predicate SameEntry(t: Tx, u: Tx) { u.key == t.key && u.amount == t.amount && u.registered == t.registered }

  lemma SetGrounded(b: Book, i: nat, t: Tx)
    requires Grounded(b) && i < |b.objs| && SameEntry(b.objs[i], t)
    ensures Grounded(SetObj(b, i, t))
  {
    SetIndexed(b, i, t);
    hide CountsAt, IndexedBut;
    forall w, k ensures CountsAt(SetObj(b, i, t), w, k) {
      assert CountsAt(b, w, k);
      SetCounts(b, i, t, w, k);
    }
  }

  lemma RecordCounts(b: Book, i: nat, review: bool, w: Name, k: TxKey)
    requires CountsAt(b, w, k) && i < |b.objs| && !b.objs[i].registered
    ensures CountsAt(Record(b, i, review), w, k)
  {
    hide SumBy;
    RegisterAt(b, i, review, w, k);
    NoteVolumeAt(Register(b, i, review), b.objs[i].key.cred, b.objs[i].amount, b.objs[i].key.kind == Collection, w, k);
    hide Register, NoteVolume, Drift, EffectGap, InwardGap, OutwardGap;
  }

  /** Registering a payment, which may be a collection just created. */
  lemma RecordGrounded(b: Book, i: nat, review: bool)
    requires i < |b.objs| && !b.objs[i].registered && Tallied(b) && IndexedBut(b, i)
    requires b.objs[i].key.kind == Collection ==> b.objs[i].key !in b.txs
    requires forall e :: 0 <= e < |b.events| ==> b.events[e].id == e
    requires forall j :: 0 <= j < |b.objs| && j != i && !b.objs[j].registered ==> b.objs[j].key.kind != Collection
    ensures Grounded(Record(b, i, review))
  {
    hide CountsAt, IndexedBut, Record, OutcomeFor, Listed;
    RecordIndexed(b, i, review);
    RecordKeys(b, i, review);
    forall w, k ensures CountsAt(Record(b, i, review), w, k) {
      assert CountsAt(b, w, k);
      RecordCounts(b, i, review, w, k);
    }
  }

  lemma GroundedBut(b: Book, i: nat)
    requires Indexed(b) && i < |b.objs| && !b.objs[i].registered
    ensures IndexedBut(b, i)
  {
    hide Listed;
  }

  /* Operations */

  lemma HoldGrounded(b: Book, t: Tx)
    requires Grounded(b) && t.key.kind != Collection && !t.registered
    ensures Grounded(Hold(b, t).book)
  {
    hide Grounded, SameGround, Move, EnsureWallet, AddObj, CanDebit;
    var d := Draw(b);
    DrawGrounded(b);
    if CanDebit(d, t.key.cred, Pays(t)) {
      var dr := if t.key.kind != Transfer then Pays(t) else 0;
      MoveGrounded(d, t.key.cred, 0 - Pays(t), dr, t.key.reference, EntryOut(t.key.kind));
      AddGrounded(Move(d, t.key.cred, 0 - Pays(t), dr, t.key.reference, EntryOut(t.key.kind)), t);
    } else {
      EnsureGrounded(d, t.key.cred);
    }
  }

  lemma DrawGrounded(b: Book)
    requires Grounded(b)
    ensures Grounded(Draw(b)) && Draw(b).objs == b.objs && Draw(b).txs == b.txs
  {
    SameGrounded(b, Draw(b));
  }

  /** A registration with its announcement. */
  lemma RecordedGrounded(b: Book, i: nat, review: bool, cred: Name, etype: EventType)
    requires Grounded(b) && i < |b.objs| && !b.objs[i].registered
    ensures Grounded(EmitTx(Record(b, i, review), i, cred, etype))
  {
    GroundedParts(b, i);
    RecordGrounded(b, i, review);
    RecordKeys(b, i, review);
    hide Grounded, Record, Emit;
    var c := Record(b, i, review);
    EmitGrounded(c, cred, etype, OfTx(i, c.objs[i]));
  }

  lemma GroundedParts(b: Book, i: nat)
    requires Grounded(b) && i < |b.objs| && !b.objs[i].registered
    ensures Tallied(b) && IndexedBut(b, i) && b.objs[i].key.kind != Collection
    ensures forall e :: 0 <= e < |b.events| ==> b.events[e].id == e
    ensures forall j :: 0 <= j < |b.objs| && j != i && !b.objs[j].registered ==> b.objs[j].key.kind != Collection
  {
    GroundedBut(b, i);
  }

  /** A collection is created and registered at once. */
  lemma CreatedGrounded(b: Book, t: Tx)
    requires Grounded(b) && !t.registered && t.key !in b.txs
    ensures var c := Record(AddObj(b, t), |b.objs|, false);
            Grounded(c) && Grounded(EmitTx(c, |b.objs|, t.key.cred, CollectionAccepted))
  {
    AddIndexed(b, t);
    assert Tallied(AddObj(b, t)) by {
      hide CountsAt, IndexedBut;
      forall w, k ensures CountsAt(AddObj(b, t), w, k) {
        assert CountsAt(b, w, k);
        AddCounts(b, t, w, k);
      }
    }
    hide Tallied, IndexedBut, Record, Emit;
    RecordGrounded(AddObj(b, t), |b.objs|, false);
    hide Grounded;
    RecordKeys(AddObj(b, t), |b.objs|, false);
    var c := Record(AddObj(b, t), |b.objs|, false);
    EmitGrounded(c, t.key.cred, CollectionAccepted, OfTx(|b.objs|, c.objs[|b.objs|]));
  }

  lemma CollectionGrounded(b: Book, cred: Name, r: Body)
    requires Grounded(b) && r.CollectionBody?
    ensures Grounded(CreateCollection(b, cred, r).book)
  {
    GroundedIndexed(b);
    hide Grounded, IndexedBut, ParseAmount, Fee, Record, EmitTx, CheckLimits, Draw;
    var amount, key := ParseAmount(r.amount), TxKey(Collection, cred, r.reference);
    AbsentMeans(b, key, r);
    if amount.Some? && key !in b.txs {
      var t := NewTx(b, key, amount.value, Fee(amount.value, b.config.feeRate), r, r.party, FromPayer);
      DrawGrounded(b);
      CreatedGrounded(Draw(b), t);
    }
  }

  lemma GroundedIndexed(b: Book)
    requires Grounded(b)
    ensures Indexed(b)
  {
  }

  lemma PayoutGrounded(b: Book, cred: Name, r: PayoutRequest)
    requires Grounded(b)
    ensures Grounded(StartPayout(b, cred, r).book)
  {
    hide Grounded, ParseAmount, Fee, Hold;
    var amount := ParseAmount(r.amount);
    if amount.Some? {
      HoldGrounded(b, NewTx(b, TxKey(Payout, cred, r.reference), amount.value, Fee(amount.value, b.config.feeRate),
                            PayoutBody(r), r.party, FromWallet));
    }
  }

  lemma TransferGrounded(b: Book, cred: Name, r: Body)
    requires Grounded(b) && r.TransferBody?
    ensures Grounded(StartTransfer(b, cred, r).book)
  {
    hide Grounded, ParseAmount, Hold;
    var amount := ParseAmount(r.amount);
    if amount.Some? {
      HoldGrounded(b, NewTx(b, TxKey(Transfer, cred, r.reference), amount.value, 0, r, r.handle, FromWallet));
    }
  }

  lemma UtilityGrounded(b: Book, cred: Name, r: Body)
    requires Grounded(b) && r.UtilityBody?
    ensures Grounded(StartUtility(b, cred, r).book)
  {
    hide Grounded, ParseAmount, FindProduct, Fee, Hold, Resume;
    if UtilityFault(r).None? {
      var amount := ParseAmount(r.amount).value;
      var t := NewTx(b, TxKey(Utility, cred, r.reference), amount, Fee(amount, b.config.feeRate), r, Name(""), r.funding);
      if r.funding == FromWallet {
        HoldGrounded(b, t);
      } else {
        DrawGrounded(b);
        AddGrounded(Draw(b), t);
        ResumeGrounded(AddObj(Draw(b), t), |b.objs|);
      }
    }
  }

  lemma ResumeGrounded(b: Book, i: nat)
    requires Grounded(b) && i < |b.objs| && !b.objs[i].registered
    ensures Grounded(Resume(b, i).book)
  {
    hide Grounded, Record, EmitTx, EnsureWallet, ResumeTransfer;
    var t := b.objs[i];
    match t.key.kind
    case Transfer => ResumeTransferGrounded(b, i);
    case Utility =>
      EnsureGrounded(b, t.key.cred);
      RecordedGrounded(EnsureWallet(b, t.key.cred), i, false, t.key.cred, UtilityAccepted);
    case _ => RecordedGrounded(b, i, UnderReview(b.config, t.amount), t.key.cred, AcceptedType(t.key.kind));
  }

  lemma ResumeTransferGrounded(b: Book, i: nat)
    requires Grounded(b) && i < |b.objs| && !b.objs[i].registered
    ensures Grounded(ResumeTransfer(b, i).book)
  {
    var t := b.objs[i];
    var b1 := Credit(b, t.party, t.amount, t.key.reference, TransferIn);
    MoveGrounded(b, t.party, t.amount, 0, t.key.reference, TransferIn);
    GroundedParts(b1, i);
    RecordGrounded(b1, i, false);
    RecordKeys(b1, i, false);
    hide Grounded, Record, Emit, Move, SetObj, IndexedBut;
    var b2 := Record(b1, i, false);
    var u := b2.objs[i].(status := Status.Completed, completed := true);
    SetGrounded(b2, i, u);
    var b3 := SetObj(b2, i, u);
    assert b3.objs == b2.objs[i := u] by { SetPlain(b2, i, u); }
    EmitGrounded(b3, t.key.cred, TransferChanged, OfTx(i, b3.objs[i]));
    var b4 := Emit(b3, t.key.cred, TransferChanged, OfTx(i, b3.objs[i]));
    EmitGrounded(b4, t.party, TransferReceived, OfTx(i, b4.objs[i]));
  }

  lemma SetPlain(b: Book, i: nat, t: Tx)
    requires i < |b.objs|
    ensures SetObj(b, i, t).objs == b.objs[i := t]
  {
  }

  /* Timer steps, in whatever status they find their payment */

  lemma StatusGrounded(b: Book, i: nat, t: Tx)
    requires Grounded(b) && i < |b.objs| && SameEntry(b.objs[i], t)
    ensures Grounded(SetStatus(b, i, t))
  {
    hide Grounded, Emit, SetObj;
    SetGrounded(b, i, t);
    SetPlain(b, i, t);
    EmitGrounded(SetObj(b, i, t), t.key.cred, ChangedType(t.key.kind), OfTx(i, t));
  }

  lemma ActGrounded(b: Book, act: Act)
    requires Grounded(b)
    ensures Grounded(RunAct(b, act).0)
  {
    hide Grounded, SetStatus, Release, Move, RunFinal;
    if act.obj < |b.objs| {
      var i, t := act.obj, b.objs[act.obj];
      match act
      case Review(_) => StatusGrounded(b, i, t.(status := InReview));
      case Half(_) => StatusGrounded(b, i, t.(status := HalfStatus(t)));
      case Final(_, half) => FinalGrounded(b, i, half);
      case Refund(_) =>
        ReleaseGrounded(b, t.key.cred, Pays(t));
        var r := Release(b, t.key.cred, Pays(t));
        MoveGrounded(r, t.key.cred, Pays(t), 0, t.key.reference, RefundKind(t.key.kind));
        StatusGrounded(Credit(r, t.key.cred, Pays(t), t.key.reference, RefundKind(t.key.kind)), i,
                       t.(status := Refunded, completed := true));
    }
  }

  lemma FinalGrounded(b: Book, i: nat, half: nat)
    requires Grounded(b) && i < |b.objs|
    ensures Grounded(RunFinal(b, i, half).0)
  {
    hide Grounded, SetStatus, Release, Move;
    var t := b.objs[i];
    var done := t.(status := Delivered, completed := true);
    ReleaseGrounded(b, t.key.cred, Pays(t));
    StatusGrounded(Release(b, t.key.cred, Pays(t)), i, done);
    StatusGrounded(b, i, done);
    StatusGrounded(b, i, t.(status := Failed, failure := Some(Declined)));
    StatusGrounded(b, i, t.(status := Failed, failure := Some(VendFailed)));
    if t.key.kind in {Collection, Transfer} {
      MoveGrounded(b, t.key.cred, Recipient(t), 0, t.key.reference, CollectionCredit);
      StatusGrounded(Credit(b, t.key.cred, Recipient(t), t.key.reference, CollectionCredit), i,
                     t.(status := Settled, settlement := Eligible, completed := true));
      var reason := if t.outcome == FailsOnPin then WrongPin else Declined;
      StatusGrounded(b, i, t.(status := Failed, failure := Some(reason), completed := true));
    }
  }

  /* Settlements and controls */

  lemma PayOutCounts(b: Book, cred: Name, w: Name, k: TxKey)
    requires CountsAt(b, w, k)
    ensures CountsAt(b.(objs := PayOutAll(b.objs, cred)), w, k)
  {
    hide SumBy, PayOutAll;
    PayOutSame(b.objs, cred, EffectOf(k));
    PayOutSame(b.objs, cred, InwardOf(w));
    PayOutSame(b.objs, cred, OutwardOf(w));
  }

  lemma PayOutGrounded(b: Book, cred: Name)
    requires Grounded(b)
    ensures Grounded(b.(objs := PayOutAll(b.objs, cred)))
  {
    PayOutIndexed(b, cred);
    hide CountsAt, IndexedBut;
    forall w, k ensures CountsAt(b.(objs := PayOutAll(b.objs, cred)), w, k) {
      assert CountsAt(b, w, k);
      PayOutCounts(b, cred, w, k);
    }
  }

  lemma SettleGrounded(b: Book, cred: Name, reference: Name)
    requires Grounded(b)
    ensures Grounded(SettleNow(b, cred, reference).book)
  {
    hide Grounded, PayOutAll, DueTotal, DueCount, FindRun, RunId, Move, Emit;
    if b.policy.Some? && FindRun(b.runs, cred, reference).None? {
      var net := DueTotal(b.objs, cred);
      var run := SettlementRun(b.serial + 1, reference, cred, DueCount(b.objs, cred), net);
      DrawGrounded(b);
      PayOutGrounded(Draw(b), cred);
      var p := Draw(b).(objs := PayOutAll(b.objs, cred));
      MoveGrounded(p, cred, 0 - net, 0, RunId(run.id), SettlementPaid);
      var c := if net > 0 then Move(p, cred, 0 - net, 0, RunId(run.id), SettlementPaid) else Draw(b);
      SameGrounded(c, c.(runs := c.runs + [run]));
      EmitGrounded(c.(runs := c.runs + [run]), cred, SettlementChanged, OfRun(run));
    }
  }

  lemma SetBalanceGrounded(b: Book, cred: Name, amount: string)
    requires Grounded(b)
    ensures Grounded(SetBalance(b, cred, amount))
  {
    hide Grounded, ParseAmount, Move;
    var target := ParseAmount(amount);
    if target.Some? {
      var delta := target.value - EnsureWallet(b, cred).wallets[cred].balance;
      MoveGrounded(b, cred, delta, 0, Name("control"), EntryKind.Adjustment);
    }
  }

  lemma StartGrounded(b: Book, cred: Name, endpoint: Endpoint, body: Body)
    requires Grounded(b)
    ensures Grounded(Start(b, cred, endpoint, body).book)
  {
    hide Grounded, CreateCollection, StartPayout, StartUtility, StartTransfer, SettleNow;
    match body {
      case CollectionBody(_, _, _, _) => CollectionGrounded(b, cred, body);
      case PayoutBody(r) => PayoutGrounded(b, cred, r);
      case UtilityBody(_, _, _, _, _, _, _) => UtilityGrounded(b, cred, body);
      case TransferBody(_, _, _, _) => TransferGrounded(b, cred, body);
      case SettleBody(reference) => SettleGrounded(b, cred, reference);
      case PolicyBody(_) => SameGrounded(b, PutPolicy(b, body).book);
      case _ =>
    }
  }

  /* Segments */

  /** What happened to the entries of payments between b and c. */
  ghost predicate Entered(b: Book, c: Book, e: Effect)
  {
    && |b.objs| <= |c.objs|
    && (forall j :: 0 <= j < |b.objs| && e != Registers(j) ==> SameEntry(b.objs[j], c.objs[j]))
    && match e
       case Nothing => |c.objs| == |b.objs|
       case Holds(i) => i == |b.objs| && |c.objs| == i + 1 && !c.objs[i].registered
       case Registers(i) =>
         && |c.objs| == (if i < |b.objs| then |b.objs| else i + 1) && i <= |b.objs| && c.objs[i].registered
         && (i < |b.objs| ==>
               !b.objs[i].registered && c.objs[i].key == b.objs[i].key && c.objs[i].amount == b.objs[i].amount)
  }

  lemma EffectedEntered(b: Book, c: Book, later: seq<Later>, e: Effect)
    requires Effected(b, c, later, e) && (e.Registers? ==> e.obj >= |b.objs|)
    ensures Entered(b, c, e)
  {
    forall j | 0 <= j < |b.objs| && e != Registers(j) ensures SameEntry(b.objs[j], c.objs[j]) {
      assert SamePlan(b.objs[j], c.objs[j]);
    }
  }

  lemma RecordedEntered(b: Book, i: nat, review: bool, cred: Name, etype: EventType)
    requires i < |b.objs| && !b.objs[i].registered
    ensures var c := EmitTx(Record(b, i, review), i, cred, etype);
            c.config == b.config && Entered(b, c, Registers(i))
  {
    RecordedEffect(b, i, review, cred, etype);
    hide Record, EmitTx;
  }

  lemma ResumeEntered(b: Book, i: nat)
    requires i < |b.objs| && !b.objs[i].registered
    ensures var r := Resume(b, i);
            r.out.Done? && r.book.config == b.config && Entered(b, r.book, Registers(i))
  {
    hide Record, EmitTx, EnsureWallet, ResumeTransfer, Entered;
    var t := b.objs[i];
    match t.key.kind
    case Transfer => TransferEntered(b, i);
    case Utility =>
      EnsurePlain(b, t.key.cred);
      RecordedEntered(EnsureWallet(b, t.key.cred), i, false, t.key.cred, UtilityAccepted);
      EnteredFrom(b, EnsureWallet(b, t.key.cred), Resume(b, i).book, Registers(i));
    case _ => RecordedEntered(b, i, UnderReview(b.config, t.amount), t.key.cred, AcceptedType(t.key.kind));
  }

  lemma EnteredFrom(b: Book, a: Book, c: Book, e: Effect)
    requires a.objs == b.objs && Entered(a, c, e)
    ensures Entered(b, c, e)
  {
  }

  lemma TransferEntered(b: Book, i: nat)
    requires i < |b.objs| && !b.objs[i].registered
    ensures var r := ResumeTransfer(b, i);
            r.out.Done? && r.book.config == b.config && Entered(b, r.book, Registers(i))
  {
    var t := b.objs[i];
    var b1 := Credit(b, t.party, t.amount, t.key.reference, TransferIn);
    CreditPlain(b, t.party, t.amount, t.key.reference, TransferIn);
    RecordKeys(b1, i, false);
    hide Credit, Record, EnsureWallet, OutcomeFor;
  }

  /** What a segment does to the ground, given the payment its call was waiting on. */
  ghost predicate SegmentGround(b: Book, g: Segment, e: Effect)
  {
    && Grounded(g.book) && g.book.config == b.config && Entered(b, g.book, e)
    && Waits(g.phase) == (if e.Holds? then e else Nothing)
  }

  lemma StartSegmentGround(b: Book, cred: Name, endpoint: Endpoint, body: Body)
    requires Grounded(b)
    ensures var r := Start(b, cred, endpoint, body);
            var g := Segment(r.book, r.later, PhaseOf(r.out));
            SegmentGround(b, g, SegmentEffect(b, Nothing, g))
  {
    hide *;
    StartGrounded(b, cred, endpoint, body);
    StartEffectOk(b, cred, endpoint, body);
    StartedGround(b, Start(b, cred, endpoint, body));
  }

  lemma StartedGround(b: Book, r: Result)
    requires Grounded(r.book) && StartOk(b, r)
    ensures var g := Segment(r.book, r.later, PhaseOf(r.out));
            SegmentGround(b, g, SegmentEffect(b, Nothing, g))
  {
    StartEffected(b, r);
    hide Grounded, Effected;
    EffectedEntered(b, r.book, r.later, StartEffect(b, r));
    hide Entered;
  }

  lemma StartEffected(b: Book, r: Result)
    requires StartOk(b, r)
    ensures r.out.Await? ==> r.out.obj == |b.objs| && |r.book.objs| == |b.objs| + 1
  {
  }

  lemma ItemGround(b: Book, cred: Name, body: Body, results: seq<ItemResult>, rest: seq<PayoutRequest>)
    requires Grounded(b) && body.BatchBody?
    ensures var g := NextItem(b, cred, body, results, rest);
            SegmentGround(b, g, SegmentEffect(b, Nothing, g))
  {
    hide Grounded, StartPayout, Effected;
    if rest == [] {
      SameGrounded(b, BatchFinish(b, cred, body, results).book);
    } else {
      PayoutGrounded(b, cred, rest[0]);
      PayoutEffect(b, cred, rest[0]);
      var r := StartPayout(b, cred, rest[0]);
      StartEffected(b, r);
      EffectedEntered(b, r.book, r.later, StartEffect(b, r));
      hide Entered;
    }
  }

  lemma FirstGround(b: Book, cred: Name, endpoint: Endpoint, body: Body)
    requires Grounded(b)
    ensures var g := FirstSegment(b, cred, endpoint, body);
            SegmentGround(b, g, SegmentEffect(b, Nothing, g))
  {
    hide Grounded, NextItem, Start, BatchPrecheck;
    if endpoint == PayoutBatches && body.BatchBody? {
      if BatchPrecheck(b, cred, body).Some? {
        BatchPrecheckOut(b, cred, body);
      } else {
        ItemGround(b, cred, body, [], body.items);
        hide Entered;
      }
    } else {
      StartSegmentGround(b, cred, endpoint, body);
      hide Entered;
    }
  }

  lemma NextGround(b: Book, c: Call)
    requires Grounded(b)
    requires Waits(c.phase).Holds? ==> Waits(c.phase).obj < |b.objs| && !b.objs[Waits(c.phase).obj].registered
    ensures var g := NextSegment(b, c);
            SegmentGround(b, g, SegmentEffect(b, Waits(c.phase), g))
  {
    hide Grounded, Resume, NextItem;
    match c.phase
    case Suspended(i) =>
      ResumeGrounded(b, i);
      ResumeEntered(b, i);
      hide Entered;
    case InBatch(results, Holding(i), rest) =>
      ResumeGrounded(b, i);
      ResumeEntered(b, i);
      hide Entered;
    case InBatch(results, Have(x), rest) =>
      if c.body.BatchBody? {
        ItemGround(b, c.cred, c.body, results + [x], rest);
        hide Entered;
      }
    case _ =>
  }

  /* Calls */

  function WaitingOn(i: nat): Call -> int { (c: Call) => if Waits(c.phase) == Holds(i) then 1 else 0 }

  function Waiting(s: State, i: nat): int { SumBy(s.calls, WaitingOn(i)) }

  function Unregistered(b: Book, i: nat): int { if i < |b.objs| && !b.objs[i].registered then 1 else 0 }

  ghost predicate CallsOk(s: State) { forall i: nat :: Waiting(s, i) == Unregistered(s.book, i) }

  /** No timer is of an epoch to come. */
  predicate EpochsOk(s: State) { forall j :: 0 <= j < |s.timers| ==> s.timers[j].epoch <= s.epoch }

  ghost predicate Ground(s: State) { Grounded(s.book) && CallsOk(s) && EpochsOk(s) }

  lemma UnregisteredMoves(b: Book, c: Book, e: Effect, i: nat)
    requires Entered(b, c, e)
    ensures Unregistered(c, i) == Unregistered(b, i) + (if e == Holds(i) then 1 else 0)
                                  - (if e == Registers(i) && i < |b.objs| then 1 else 0)
  {
  }

  /** A waiting call waits on a payment that is still unregistered. */
  lemma WaitingUnregistered(s: State, i: nat)
    requires CallsOk(s) && i < |s.calls| && Waits(s.calls[i].phase).Holds?
    ensures var k := Waits(s.calls[i].phase).obj;
            k < |s.book.objs| && !s.book.objs[k].registered
  {
    hide SumBy;
    var k := Waits(s.calls[i].phase).obj;
    SumAtLeastOne(s.calls, i, WaitingOn(k));
    assert Waiting(s, k) == Unregistered(s.book, k);
  }

  lemma NewCallOk(s: State, b: Book, e: Effect, c: Call)
    requires CallsOk(s) && Entered(s.book, b, e) && (e.Registers? ==> e.obj >= |s.book.objs|)
    requires Waits(c.phase) == (if e.Holds? then e else Nothing)
    ensures forall i: nat :: SumBy(s.calls + [c], WaitingOn(i)) == Unregistered(b, i)
  {
    hide SumBy, Entered;
    forall i: nat ensures SumBy(s.calls + [c], WaitingOn(i)) == Unregistered(b, i) {
      assert Waiting(s, i) == Unregistered(s.book, i);
      SumAppend(s.calls, c, WaitingOn(i));
      UnregisteredMoves(s.book, b, e, i);
    }
  }

  lemma NewPhaseOk(s: State, b: Book, e: Effect, i: nat, phase: Phase)
    requires CallsOk(s) && i < |s.calls| && Entered(s.book, b, e)
    requires Waits(phase) == (if e.Holds? then e else Nothing)
    requires Waits(s.calls[i].phase) == (if e.Registers? && e.obj < |s.book.objs| then Holds(e.obj) else Nothing)
    ensures forall k: nat ::
      SumBy(s.calls[i := s.calls[i].(phase := phase)], WaitingOn(k)) == Unregistered(b, k)
  {
    hide SumBy, Entered;
    forall k: nat ensures SumBy(s.calls[i := s.calls[i].(phase := phase)], WaitingOn(k)) == Unregistered(b, k) {
      assert Waiting(s, k) == Unregistered(s.book, k);
      SumUpdate(s.calls, i, s.calls[i].(phase := phase), WaitingOn(k));
      UnregisteredMoves(s.book, b, e, k);
    }
  }

  /** Books that register the same payments suit the same calls. */
  lemma CallsSame(s: State, t: State)
    requires CallsOk(s) && t.calls == s.calls && |t.book.objs| == |s.book.objs|
    requires forall i :: 0 <= i < |s.book.objs| ==> t.book.objs[i].registered == s.book.objs[i].registered
    ensures CallsOk(t)
  {
    hide SumBy;
    forall k: nat ensures Waiting(t, k) == Unregistered(t.book, k) { assert Waiting(s, k) == Unregistered(s.book, k); }
  }

  lemma AbsorbEpochs(s: State, g: Segment)
    requires EpochsOk(s)
    ensures EpochsOk(Absorb(s, g))
  {
    var ts := Absorb(s, g).timers;
    forall j | 0 <= j < |ts| ensures ts[j].epoch <= s.epoch {
      if j >= |s.timers| { assert ts[j] == Schedule(s.now, s.epoch, g.later)[j - |s.timers|]; }
    }
  }

  /* Steps */

  lemma GroundParts(s: State)
    requires Ground(s)
    ensures Grounded(s.book) && CallsOk(s) && EpochsOk(s)
  {
  }

  lemma RefusedGround(s: State, t: State, c: Call)
    requires Ground(s) && t.book == s.book && t.epoch == s.epoch && t.timers == s.timers && t.calls == s.calls + [c]
    requires Waits(c.phase) == Nothing
    ensures Ground(t)
  {
    hide Grounded, Entered, SumBy;
    NothingEntered(s.book);
    NewCallOk(s, s.book, Nothing, c);
  }

  lemma PostGround(s: State, cred: Name, key: string, endpoint: Endpoint, body: Body, crash: bool, lost: bool)
    requires Ground(s)
    ensures Ground(ApplyPost(s, cred, key, endpoint, body, crash, lost))
  {
    GroundParts(s);
    hide Ground, Grounded, FirstSegment, SegmentGround, CallsOk, EpochsOk, Entered, IdemKey;
    FirstGround(s.book, cred, endpoint, body);
    var g := FirstSegment(s.book, cred, endpoint, body);
    var t := ApplyPost(s, cred, key, endpoint, body, crash, lost);
    var c := t.calls[|s.calls|];
    if c.ran && !crash {
      PostedGround(s, t, g, c);
    } else {
      RefusedGround(s, t, c);
    }
  }

  lemma PostedGround(s: State, t: State, g: Segment, c: Call)
    requires Ground(s) && SegmentGround(s.book, g, SegmentEffect(s.book, Nothing, g)) && c.phase == g.phase
    requires t.book == g.book && t.epoch == s.epoch && t.calls == s.calls + [c]
    requires t.timers == s.timers + Schedule(s.now, s.epoch, g.later)
    ensures Ground(t)
  {
    hide Grounded, Entered, SumBy;
    NewCallOk(s, g.book, SegmentEffect(s.book, Nothing, g), c);
    AbsorbEpochs(s, g);
  }

  lemma NothingEntered(b: Book)
    ensures Entered(b, b, Nothing)
  {
  }

  lemma AdvanceGround(s: State, i: nat)
    requires Ground(s)
    ensures Ground(ApplyAdvance(s, i))
  {
    if i < |s.calls| {
      var g := NextSegment(s.book, s.calls[i]);
      if Waits(s.calls[i].phase).Holds? { WaitingUnregistered(s, i); }
      NextGround(s.book, s.calls[i]);
      hide Grounded, NextSegment, Entered, SumBy;
      NewPhaseOk(s, g.book, SegmentEffect(s.book, Waits(s.calls[i].phase), g), i, g.phase);
      AbsorbEpochs(s, g);
    }
  }

  lemma FinishGround(s: State, i: nat, lost: bool)
    requires Ground(s)
    ensures Ground(ApplyFinish(s, i, lost))
  {
    var t := ApplyFinish(s, i, lost);
    hide Grounded, SumBy;
    if i < |s.calls| && t.calls != s.calls {
      NothingEntered(s.book);
      NewPhaseOk(s, s.book, Nothing, i, t.calls[i].phase);
    } else {
      CallsSame(s, t);
    }
  }

  /** A timer step changes no entry, whatever status it finds. */
  lemma ActEntered(b: Book, act: Act)
    ensures var c := RunAct(b, act).0;
            c.config == b.config && Entered(b, c, Nothing)
  {
    hide SetStatus, Release, Move, RunFinal, Entered;
    if act.obj < |b.objs| {
      var i, t := act.obj, b.objs[act.obj];
      StatusEntered(b, b, i, t.(status := InReview));
      StatusEntered(b, b, i, t.(status := HalfStatus(t)));
      FinalEntered(b, i, if act.Final? then act.half else 0);
      var r := Release(b, t.key.cred, Pays(t));
      ReleasePlain(b, t.key.cred, Pays(t));
      MovePlain(r, t.key.cred, Pays(t), 0, t.key.reference, RefundKind(t.key.kind));
      StatusEntered(b, Credit(r, t.key.cred, Pays(t), t.key.reference, RefundKind(t.key.kind)), i,
                    t.(status := Refunded, completed := true));
    } else {
      NothingEntered(b);
    }
  }

  lemma FinalEntered(b: Book, i: nat, half: nat)
    requires i < |b.objs|
    ensures var c := RunFinal(b, i, half).0;
            c.config == b.config && Entered(b, c, Nothing)
  {
    hide SetStatus, Release, Move, Entered;
    var t := b.objs[i];
    var done := t.(status := Delivered, completed := true);
    ReleasePlain(b, t.key.cred, Pays(t));
    StatusEntered(b, Release(b, t.key.cred, Pays(t)), i, done);
    StatusEntered(b, b, i, done);
    StatusEntered(b, b, i, t.(status := Failed, failure := Some(Declined)));
    StatusEntered(b, b, i, t.(status := Failed, failure := Some(VendFailed)));
    if t.key.kind in {Collection, Transfer} {
      MovePlain(b, t.key.cred, Recipient(t), 0, t.key.reference, CollectionCredit);
      StatusEntered(b, Credit(b, t.key.cred, Recipient(t), t.key.reference, CollectionCredit), i,
                    t.(status := Settled, settlement := Eligible, completed := true));
      var reason := if t.outcome == FailsOnPin then WrongPin else Declined;
      StatusEntered(b, b, i, t.(status := Failed, failure := Some(reason), completed := true));
    }
  }

  lemma StatusEntered(b: Book, a: Book, i: nat, t: Tx)
    requires i < |b.objs| && a.objs == b.objs && a.config == b.config && SameEntry(b.objs[i], t)
    ensures SetStatus(a, i, t).config == b.config && Entered(b, SetStatus(a, i, t), Nothing)
  {
  }

  lemma ReleasePlain(b: Book, cred: Name, p: nat)
    ensures Release(b, cred, p).objs == b.objs && Release(b, cred, p).config == b.config
  {
  }

  lemma FireGround(s: State, j: nat, at: nat)
    requires Ground(s)
    ensures Ground(ApplyFire(s, j, at)) && ApplyFire(s, j, at).book.config == s.book.config
    ensures Entered(s.book, ApplyFire(s, j, at).book, Nothing)
  {
    NothingEntered(s.book);
    if IsNext(s.timers, j) && at >= s.now && at >= s.timers[j].due {
      var s1 := s.(now := at, timers := Without(s.timers, j));
      var act := s.timers[j].act;
      ActGrounded(s.book, act);
      ActEntered(s.book, act);
      AbsorbEpochs(s1, Segment(RunAct(s.book, act).0, RunAct(s.book, act).1, Broke));
      hide Grounded, RunAct, SumBy;
      CallsSame(s, ApplyFire(s, j, at));
    }
  }

  lemma SetBalancePlain(b: Book, cred: Name, amount: string)
    ensures SetBalance(b, cred, amount).objs == b.objs && SetBalance(b, cred, amount).config == b.config
  {
    hide ParseAmount;
  }

  /** Books changed in no payment. */
  lemma BookGround(s: State, b: Book)
    requires Ground(s) && Grounded(b) && b.objs == s.book.objs
    ensures Ground(s.(book := b))
  {
    hide Grounded, SumBy;
    CallsSame(s, s.(book := b));
  }

  lemma ControlGround(s: State, step: Step)
    requires Ground(s) && (step.Touch? || step.Balance? || step.Patch? || step.DropPolicy? || step.Tick?)
    ensures Ground(Apply(s, step))
  {
    GroundParts(s);
    hide Ground, Grounded, SetBalance, EnsureWallet, CallsOk;
    match step
    case Tick(at) => TickGround(s, at);
    case Touch(cred) =>
      EnsureGrounded(s.book, cred);
      BookGround(s, EnsureWallet(s.book, cred));
    case Balance(cred, amount) =>
      SetBalanceGrounded(s.book, cred, amount);
      SetBalancePlain(s.book, cred, amount);
      BookGround(s, SetBalance(s.book, cred, amount));
    case Patch(config) =>
      SameGrounded(s.book, s.book.(config := config));
      BookGround(s, s.book.(config := config));
    case DropPolicy =>
      SameGrounded(s.book, s.book.(policy := None));
      BookGround(s, s.book.(policy := None));
  }

  lemma TickGround(s: State, at: nat)
    requires Ground(s)
    ensures Ground(s.(now := at))
  {
    hide Grounded, SumBy;
    CallsSame(s, s.(now := at));
  }

  /** Any timers at all suit a state without payments, as long as the epoch has left them behind. */
  lemma EmptyGround(s: State)
    requires s.book == FreshBook(s.book.config) && s.calls == [] && EpochsOk(s)
    ensures Ground(s)
  {
  }

  lemma ResetGround(s: State, c: Config)
    requires Ground(s)
    ensures Ground(ApplyReset(s, c))
  {
    GroundParts(s);
    if Idle(s) {
      hide Ground, Grounded, CallsOk;
      EmptyGround(ApplyReset(s, c));
    }
  }

  lemma StepKeepsGround(s: State, step: Step)
    requires Ground(s)
    ensures Ground(Apply(s, step))
  {
    hide Ground, ApplyPost, ApplyAdvance, ApplyFinish, ApplyFire, ApplyReset, SetBalance, EnsureWallet;
    match step
    case PostCall(cred, key, endpoint, body, crash, lost) => PostGround(s, cred, key, endpoint, body, crash, lost);
    case Advance(i) => AdvanceGround(s, i);
    case Finish(i, lost) => FinishGround(s, i, lost);
    case Fire(j, at) => FireGround(s, j, at);
    case Reset(config) => ResetGround(s, config);
    case _ => ControlGround(s, step);
  }

  /** Every run from a fresh simulator keeps the ground, under any configurations. */
  lemma {:induction false} RunKeepsGround(c: Config, now: nat, steps: seq<Step>)
    ensures Ground(Run(Fresh(c, now), steps))
  {
    hide Ground, Apply;
    if steps == [] {
      EmptyGround(Fresh(c, now));
    } else {
      RunKeepsGround(c, now, steps[..|steps| - 1]);
      StepKeepsGround(Run(Fresh(c, now), steps[..|steps| - 1]), steps[|steps| - 1]);
    }
  }
}
