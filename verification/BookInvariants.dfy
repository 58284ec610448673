/** Every operation of the simulator keeps its books balanced: no drift, reserves equal to the holds of
    unresolved payments, ledger entries that match how payments came out, effect and volume counters that
    match the payments, and no money made or lost overall. */
module BookInvariants {
  import opened Money
  import opened Domain
  import opened Operations
  import opened Sums
  import opened Accounting

  predicate Newborn(t: Tx)
  {
    && !t.registered && !t.completed && !t.review && t.failure == None
    && t.settlement == (if t.key.kind == Collection then NotEligible else NoSettlement)
    && t.status == (if t.key.kind == Transfer then Pending else Accepted)
  }

  /* Debit and hold */

  lemma NewbornMeasures(t: Tx, w: Name, k: TxKey, e: Entry)
    requires Newborn(t) && t.key.kind != Collection && t.funding == FromWallet
    requires e.wallet == t.key.cred && e.ref == t.key.reference && e.kind == EntryOut(t.key.kind)
    ensures HoldOf(w)(t) == if w == t.key.cred && t.key.kind != Transfer then Pays(t) else 0
    ensures NetOf(k)(t) == if k == t.key then 0 - Pays(t) else 0
    ensures Concerns(e, k) <==> k == t.key
    ensures EffectOf(k)(t) == InwardOf(w)(t) == OutwardOf(w)(t) == 0
  {
  }

  /** A movement followed by a new object. */
  lemma MoveAddAt(b: Book, id: Name, db: int, dr: int, ref: Name, kind: EntryKind, t: Tx, w: Name, k: TxKey)
    ensures var c := AddObj(Move(b, id, db, dr, ref, kind), t);
            && Drift(c, w) == Drift(b, w)
            && ReserveGap(c, w) == ReserveGap(b, w) + (if w == id then dr else 0) - HoldOf(w)(t)
            && TxGap(c, k) == TxGap(b, k) + (if Concerns(Entry(b.serial + 1, id, db, ref, kind), k) then db else 0) - NetOf(k)(t)
            && EffectGap(c, k) == EffectGap(b, k) - EffectOf(k)(t)
            && InwardGap(c, w) == InwardGap(b, w) - InwardOf(w)(t)
            && OutwardGap(c, w) == OutwardGap(b, w) - OutwardOf(w)(t)
  {
    hide SumBy;
    MoveAt(b, id, db, dr, ref, kind, w, k);
    AddAt(Move(b, id, db, dr, ref, kind), t, w, k);
  }

  predicate Holdable(t: Tx) { t.key.kind != Collection && t.funding == FromWallet && Newborn(t) }

  lemma HeldAt(b: Book, t: Tx, w: Name, k: TxKey)
    requires BalancedAt(b, w, k) && Holdable(t) && CanDebit(Draw(b), t.key.cred, Pays(t))
    ensures BalancedAt(Hold(b, t).book, w, k)
  {
    hide SumBy, Move, HoldOf, NetOf, EffectOf, InwardOf, OutwardOf, Concerns;
    var d := Draw(b);
    NewbornMeasures(t, w, k, Entry(d.serial + 1, t.key.cred, 0 - Pays(t), t.key.reference, EntryOut(t.key.kind)));
    if t.key.kind == Transfer {
      MoveAddAt(d, t.key.cred, 0 - Pays(t), 0, t.key.reference, TransferOut, t, w, k);
    } else {
      MoveAddAt(d, t.key.cred, 0 - Pays(t), Pays(t), t.key.reference, EntryOut(t.key.kind), t, w, k);
    }
  }

  lemma HoldAt(b: Book, t: Tx, w: Name, k: TxKey)
    requires BalancedAt(b, w, k) && Holdable(t)
    ensures BalancedAt(Hold(b, t).book, w, k)
  {
    hide SumBy;
    if CanDebit(Draw(b), t.key.cred, Pays(t)) {
      HeldAt(b, t, w, k);
    } else {
      EnsureAt(Draw(b), t.key.cred, w);
    }
  }

  lemma MoveAddFunds(b: Book, id: Name, db: int, dr: int, ref: Name, kind: EntryKind, t: Tx)
    requires WalletsOk(b) && kind != EntryKind.Adjustment
    ensures var c := AddObj(Move(b, id, db, dr, ref, kind), t);
            WalletsOk(c) && FundsGap(c) == FundsGap(b) + db + dr - FundsEffect(t)
  {
    hide SumBy, Listed;
    MoveFunds(b, id, db, dr, ref, kind);
    AddFunds(Move(b, id, db, dr, ref, kind), t);
  }

  lemma HeldFunds(b: Book, t: Tx)
    requires WalletsOk(b) && Holdable(t) && CanDebit(Draw(b), t.key.cred, Pays(t))
    ensures WalletsOk(Hold(b, t).book) && FundsGap(Hold(b, t).book) == FundsGap(b)
  {
    hide SumBy, Listed, Move, EnsureWallet, AddObj, CanDebit;
    var d := Draw(b);
    if t.key.kind == Transfer {
      MoveAddFunds(d, t.key.cred, 0 - Pays(t), 0, t.key.reference, TransferOut, t);
    } else {
      MoveAddFunds(d, t.key.cred, 0 - Pays(t), Pays(t), t.key.reference, EntryOut(t.key.kind), t);
    }
  }

  lemma HoldFunds(b: Book, t: Tx)
    requires WalletsOk(b) && Holdable(t)
    ensures WalletsOk(Hold(b, t).book) && FundsGap(Hold(b, t).book) == FundsGap(b)
  {
    hide SumBy, Listed;
    if CanDebit(Draw(b), t.key.cred, Pays(t)) {
      HeldFunds(b, t);
    } else {
      EnsureKeepsOrder(Draw(b), t.key.cred);
      EnsureKeepsFunds(Draw(b), t.key.cred);
    }
  }

  /* Registration and volumes */

  lemma RegisterAt(b: Book, i: nat, review: bool, w: Name, k: TxKey)
    requires i < |b.objs| && !b.objs[i].registered
    ensures var c, t := Register(b, i, review), b.objs[i];
            && Drift(c, w) == Drift(b, w)
            && ReserveGap(c, w) == ReserveGap(b, w)
            && TxGap(c, k) == TxGap(b, k)
            && EffectGap(c, k) == EffectGap(b, k)
            && InwardGap(c, w) == InwardGap(b, w) - (if w == t.key.cred && t.key.kind == Collection then t.amount else 0)
            && OutwardGap(c, w) == OutwardGap(b, w) - (if w == t.key.cred && t.key.kind != Collection then t.amount else 0)
  {
    hide SumBy;
    SetAt(b, i, Enrolled(b.config, b.objs[i], review), w, k);
  }

  lemma NoteVolumeAt(b: Book, cred: Name, amount: nat, inward: bool, w: Name, k: TxKey)
    ensures var c := NoteVolume(b, cred, amount, inward);
            && Drift(c, w) == Drift(b, w)
            && ReserveGap(c, w) == ReserveGap(b, w)
            && TxGap(c, k) == TxGap(b, k)
            && EffectGap(c, k) == EffectGap(b, k)
            && InwardGap(c, w) == InwardGap(b, w) + (if w == cred && inward then amount else 0)
            && OutwardGap(c, w) == OutwardGap(b, w) + (if w == cred && !inward then amount else 0)
  {
    hide SumBy;
    if inward {} else {}
  }

  lemma RecordAt(b: Book, i: nat, review: bool, w: Name, k: TxKey)
    requires i < |b.objs| && !b.objs[i].registered
    ensures BalancedAt(b, w, k) ==> BalancedAt(Record(b, i, review), w, k)
  {
    hide SumBy;
    RegisterAt(b, i, review, w, k);
    NoteVolumeAt(Register(b, i, review), b.objs[i].key.cred, b.objs[i].amount, b.objs[i].key.kind == Collection, w, k);
  }

  lemma RecordFunds(b: Book, i: nat, review: bool)
    requires i < |b.objs| && !b.objs[i].registered && WalletsOk(b)
    ensures var c := Record(b, i, review);
            && WalletsOk(c)
            && FundsGap(c) == FundsGap(b) - (if b.objs[i].key.kind == Transfer then Pays(b.objs[i]) else 0)
  {
    hide SumBy, Listed;
    SetFunds(b, i, Enrolled(b.config, b.objs[i], review));
  }

  lemma RecordKeeps(b: Book, i: nat, review: bool)
    requires Balanced(b) && i < |b.objs| && !b.objs[i].registered && b.objs[i].key.kind != Transfer
    ensures Balanced(Record(b, i, review))
  {
    RecordFunds(b, i, review);
    forall w, k ensures BalancedAt(Record(b, i, review), w, k) { RecordAt(b, i, review, w, k); }
  }

  lemma HoldKeeps(b: Book, t: Tx)
    requires Balanced(b) && Holdable(t)
    ensures Balanced(Hold(b, t).book)
  {
    HoldFunds(b, t);
    forall w, k ensures BalancedAt(Hold(b, t).book, w, k) { HoldAt(b, t, w, k); }
  }

  /* Changes that no identity reads */

  predicate SameMoney(b: Book, c: Book)
  {
    && c.wallets == b.wallets && c.walletOrder == b.walletOrder && c.objs == b.objs && c.ledger == b.ledger
    && c.effects == b.effects && c.runs == b.runs && c.dailyIn == b.dailyIn && c.dailyOut == b.dailyOut
  }

  lemma SameMoneyKeeps(b: Book, c: Book)
    requires Balanced(b) && SameMoney(b, c)
    ensures Balanced(c)
  {
    hide SumBy, Listed;
    forall w, k ensures BalancedAt(c, w, k) { assert BalancedAt(b, w, k); }
  }

  lemma EnsureWalletKeeps(b: Book, id: Name)
    requires Balanced(b)
    ensures Balanced(EnsureWallet(b, id))
  {
    hide SumBy, Listed;
    EnsureKeepsOrder(b, id);
    EnsureKeepsFunds(b, id);
    forall w, k ensures BalancedAt(EnsureWallet(b, id), w, k) {
      assert BalancedAt(b, w, k);
      EnsureAt(b, id, w);
    }
  }

  /** A new object that holds nothing and owes nothing. */
  lemma AddKeeps(b: Book, t: Tx)
    requires Balanced(b) && Newborn(t)
    requires t.key.kind == Collection || (t.key.kind == Utility && t.funding == FromPayer)
    ensures Balanced(AddObj(b, t))
  {
    hide SumBy, Listed;
    AddFunds(b, t);
    forall w, k ensures BalancedAt(AddObj(b, t), w, k) {
      assert BalancedAt(b, w, k);
      AddAt(b, t, w, k);
    }
  }

  /* Status changes */

  /** A status change that leaves every measure of the payment as it was. */
  predicate SameMeasures(o: Tx, t: Tx)
  {
    && t.key == o.key && t.amount == o.amount && t.registered == o.registered
    && HoldAmount(t) == HoldAmount(o) && NetEffect(t) == NetEffect(o) && FundsEffect(t) == FundsEffect(o)
  }

  lemma SetKeeps(b: Book, i: nat, t: Tx)
    requires Balanced(b) && i < |b.objs| && SameMeasures(b.objs[i], t)
    ensures Balanced(SetObj(b, i, t))
  {
    hide SumBy, Listed;
    SetFunds(b, i, t);
    forall w, k ensures BalancedAt(SetObj(b, i, t), w, k) {
      assert BalancedAt(b, w, k);
      SetAt(b, i, t, w, k);
    }
  }

  lemma EmitKeeps(b: Book, cred: Name, etype: EventType, data: EventData)
    requires Balanced(b)
    ensures Balanced(Emit(b, cred, etype, data))
  {
    SameMoneyKeeps(b, Emit(b, cred, etype, data));
  }

  /** A wallet movement together with the payment change it stands for. */
  predicate Matches(o: Tx, t: Tx, id: Name, db: int, dr: int, kind: EntryKind)
  {
    && t.key == o.key && t.amount == o.amount && t.registered == o.registered && id == o.key.cred
    && EntryKindOf(kind) == Some(o.key.kind)
    && HoldAmount(t) == HoldAmount(o) + dr
    && NetEffect(t) == NetEffect(o) + db
    && FundsEffect(t) == FundsEffect(o) + db + dr
  }

  lemma MoveSetGaps(b: Book, i: nat, t: Tx, id: Name, db: int, dr: int, ref: Name, kind: EntryKind, w: Name, k: TxKey)
    requires i < |b.objs|
    ensures var c, o := SetObj(Move(b, id, db, dr, ref, kind), i, t), b.objs[i];
            && Drift(c, w) == Drift(b, w)
            && ReserveGap(c, w) == ReserveGap(b, w) + (if w == id then dr else 0) + HoldOf(w)(o) - HoldOf(w)(t)
            && TxGap(c, k) == TxGap(b, k) + (if Concerns(Entry(b.serial + 1, id, db, ref, kind), k) then db else 0)
                              + NetOf(k)(o) - NetOf(k)(t)
            && EffectGap(c, k) == EffectGap(b, k) + EffectOf(k)(o) - EffectOf(k)(t)
            && InwardGap(c, w) == InwardGap(b, w) + InwardOf(w)(o) - InwardOf(w)(t)
            && OutwardGap(c, w) == OutwardGap(b, w) + OutwardOf(w)(o) - OutwardOf(w)(t)
  {
    hide SumBy, HoldOf, NetOf, EffectOf, InwardOf, OutwardOf, Concerns;
    MoveAt(b, id, db, dr, ref, kind, w, k);
    MovedCounters(b, id, db, dr, ref, kind);
    SetAt(Move(b, id, db, dr, ref, kind), i, t, w, k);
    hide Move, Drift, ReserveGap, TxGap, SetObj;
  }

  /** The measures of a payment before and after a matching movement, at one wallet and key. */
  lemma MatchedMeasures(o: Tx, t: Tx, w: Name, k: TxKey)
    requires t.key == o.key && t.amount == o.amount && t.registered == o.registered
    ensures HoldOf(w)(t) - HoldOf(w)(o) == if w == o.key.cred then HoldAmount(t) - HoldAmount(o) else 0
    ensures NetOf(k)(t) - NetOf(k)(o) == if k == o.key then NetEffect(t) - NetEffect(o) else 0
    ensures EffectOf(k)(t) == EffectOf(k)(o)
    ensures InwardOf(w)(t) == InwardOf(w)(o) && OutwardOf(w)(t) == OutwardOf(w)(o)
  {
    hide HoldAmount, NetEffect;
  }

  lemma MoveSetAt(b: Book, i: nat, t: Tx, id: Name, db: int, dr: int, kind: EntryKind, w: Name, k: TxKey)
    requires BalancedAt(b, w, k) && i < |b.objs| && Matches(b.objs[i], t, id, db, dr, kind)
    ensures BalancedAt(SetObj(Move(b, id, db, dr, t.key.reference, kind), i, t), w, k)
  {
    hide SumBy, HoldAmount, NetEffect, FundsEffect, HoldOf, NetOf, EffectOf, InwardOf, OutwardOf;
    MatchedMeasures(b.objs[i], t, w, k);
    MoveSetGaps(b, i, t, id, db, dr, t.key.reference, kind, w, k);
    assert Concerns(Entry(b.serial + 1, id, db, t.key.reference, kind), k) <==> k == t.key;
  }

  lemma ReleaseAt(b: Book, cred: Name, p: nat, w: Name, k: TxKey)
    ensures var c := Release(b, cred, p);
            && Drift(c, w) == Drift(b, w)
            && ReserveGap(c, w) == ReserveGap(b, w) - (if w == cred then p else 0)
            && TxGap(c, k) == TxGap(b, k)
            && EffectGap(c, k) == EffectGap(b, k)
            && InwardGap(c, w) == InwardGap(b, w)
            && OutwardGap(c, w) == OutwardGap(b, w)
  {
    hide SumBy;
    EnsureAt(b, cred, w);
    AdjustAt(EnsureWallet(b, cred), cred, 0, 0 - p, w);
    ReleaseLedger(b, cred, p);
    hide Release, EnsureWallet, Adjust, Reserved, NetBalance;
  }

  lemma ReleaseLedger(b: Book, cred: Name, p: nat)
    ensures var c := Release(b, cred, p);
            && c == Adjust(EnsureWallet(b, cred), cred, 0, 0 - p)
            && c.ledger == b.ledger && c.objs == b.objs && c.effects == b.effects
            && c.dailyIn == b.dailyIn && c.dailyOut == b.dailyOut
  {
    EnsuresOnly(b, cred);
    hide EnsureWallet;
  }

  lemma ReleaseFunds(b: Book, cred: Name, p: nat)
    requires WalletsOk(b)
    ensures WalletsOk(Release(b, cred, p)) && FundsGap(Release(b, cred, p)) == FundsGap(b) - p
  {
    hide SumBy, Listed;
    EnsureKeepsOrder(b, cred);
    EnsureKeepsFunds(b, cred);
    AdjustFunds(EnsureWallet(b, cred), cred, 0, 0 - p);
  }

  /** A hold given up for good: the reserve falls and the payment stops holding. */
  lemma ReleaseSetKeeps(b: Book, i: nat, t: Tx)
    requires Balanced(b) && i < |b.objs| && t.key == b.objs[i].key && t.amount == b.objs[i].amount
    requires t.registered == b.objs[i].registered
    requires HoldAmount(t) == 0 && NetEffect(t) == NetEffect(b.objs[i])
    requires FundsEffect(t) == FundsEffect(b.objs[i]) - HoldAmount(b.objs[i])
    ensures Balanced(SetObj(Release(b, t.key.cred, HoldAmount(b.objs[i])), i, t))
  {
    var p := HoldAmount(b.objs[i]);
    ReleaseSetFunds(b, i, t, p);
    forall w, k ensures BalancedAt(SetObj(Release(b, t.key.cred, p), i, t), w, k) { ReleaseSetAt(b, i, t, p, w, k); }
  }

  lemma ReleaseSetFunds(b: Book, i: nat, t: Tx, p: nat)
    requires WalletsOk(b) && i < |b.objs|
    ensures var c := SetObj(Release(b, t.key.cred, p), i, t);
            WalletsOk(c) && FundsGap(c) == FundsGap(b) - p + FundsEffect(b.objs[i]) - FundsEffect(t)
  {
    hide SumBy, Listed, FundsEffect;
    ReleaseFunds(b, t.key.cred, p);
    SetFunds(Release(b, t.key.cred, p), i, t);
  }

  lemma ReleaseSetAt(b: Book, i: nat, t: Tx, p: nat, w: Name, k: TxKey)
    requires BalancedAt(b, w, k) && i < |b.objs| && t.key == b.objs[i].key && t.amount == b.objs[i].amount
    requires t.registered == b.objs[i].registered
    requires HoldAmount(t) == 0 && p == HoldAmount(b.objs[i]) && NetEffect(t) == NetEffect(b.objs[i])
    ensures BalancedAt(SetObj(Release(b, t.key.cred, p), i, t), w, k)
  {
    hide SumBy, HoldAmount, NetEffect, FundsEffect, HoldOf, NetOf, EffectOf, InwardOf, OutwardOf;
    ReleaseAt(b, t.key.cred, p, w, k);
    SetAt(Release(b, t.key.cred, p), i, t, w, k);
    MatchedMeasures(b.objs[i], t, w, k);
  }

  /** A hold given back: the reserve falls, the balance rises and the payment nets to nothing. */
  lemma RefundSetKeeps(b: Book, i: nat, t: Tx, kind: EntryKind)
    requires Balanced(b) && i < |b.objs| && t.key == b.objs[i].key && t.amount == b.objs[i].amount
    requires t.registered == b.objs[i].registered && EntryKindOf(kind) == Some(t.key.kind)
    requires HoldAmount(t) == 0 && NetEffect(t) == NetEffect(b.objs[i]) + HoldAmount(b.objs[i])
    requires FundsEffect(t) == FundsEffect(b.objs[i])
    ensures var p := HoldAmount(b.objs[i]);
            Balanced(SetObj(Credit(Release(b, t.key.cred, p), t.key.cred, p, t.key.reference, kind), i, t))
  {
    hide HoldAmount, NetEffect, FundsEffect, BalancedAt, FundsGap, WalletsOk, Release, Move, SetObj;
    var p := HoldAmount(b.objs[i]);
    ReleaseLedger(b, t.key.cred, p);
    MovedCounters(Release(b, t.key.cred, p), t.key.cred, p, 0, t.key.reference, kind);
    RefundSetFunds(b, i, t, p, kind);
    forall w, k
      ensures BalancedAt(SetObj(Move(Release(b, t.key.cred, p), t.key.cred, p, 0, t.key.reference, kind), i, t), w, k)
    {
      RefundSetAt(b, i, t, p, kind, w, k);
    }
  }

  lemma RefundSetFunds(b: Book, i: nat, t: Tx, p: nat, kind: EntryKind)
    requires WalletsOk(b) && i < |b.objs| && kind != EntryKind.Adjustment
    ensures var c := SetObj(Move(Release(b, t.key.cred, p), t.key.cred, p, 0, t.key.reference, kind), i, t);
            WalletsOk(c) && FundsGap(c) == FundsGap(b) + FundsEffect(b.objs[i]) - FundsEffect(t)
  {
    hide SumBy, Listed, FundsEffect;
    var c := Release(b, t.key.cred, p);
    ReleaseFunds(b, t.key.cred, p);
    MoveFunds(c, t.key.cred, p, 0, t.key.reference, kind);
    SetFunds(Move(c, t.key.cred, p, 0, t.key.reference, kind), i, t);
  }

  lemma RefundSetAt(b: Book, i: nat, t: Tx, p: nat, kind: EntryKind, w: Name, k: TxKey)
    requires BalancedAt(b, w, k) && i < |b.objs| && t.key == b.objs[i].key && t.amount == b.objs[i].amount
    requires t.registered == b.objs[i].registered && EntryKindOf(kind) == Some(t.key.kind)
    requires HoldAmount(t) == 0 && p == HoldAmount(b.objs[i]) && NetEffect(t) == NetEffect(b.objs[i]) + p
    ensures BalancedAt(SetObj(Move(Release(b, t.key.cred, p), t.key.cred, p, 0, t.key.reference, kind), i, t), w, k)
  {
    hide SumBy, HoldAmount, NetEffect, FundsEffect, HoldOf, NetOf, EffectOf, InwardOf, OutwardOf;
    var c := Release(b, t.key.cred, p);
    ReleaseAt(b, t.key.cred, p, w, k);
    MatchedMeasures(b.objs[i], t, w, k);
    MoveSetGaps(c, i, t, t.key.cred, p, 0, t.key.reference, kind, w, k);
    assert Concerns(Entry(c.serial + 1, t.key.cred, p, t.key.reference, kind), k) <==> k == t.key;
  }

  lemma MoveSetKeeps(b: Book, i: nat, t: Tx, id: Name, db: int, dr: int, kind: EntryKind)
    requires Balanced(b) && i < |b.objs| && Matches(b.objs[i], t, id, db, dr, kind)
    ensures Balanced(SetObj(Move(b, id, db, dr, t.key.reference, kind), i, t))
  {
    hide SumBy, Listed;
    var c := Move(b, id, db, dr, t.key.reference, kind);
    MoveFunds(b, id, db, dr, t.key.reference, kind);
    SetFunds(c, i, t);
    forall w, k ensures BalancedAt(SetObj(c, i, t), w, k) { MoveSetAt(b, i, t, id, db, dr, kind, w, k); }
  }

  /* The shape of payments */

  /** The statuses after which a payment takes no further step of its own. */
  predicate IsFinal(t: Tx)
  {
    match t.key.kind
    case Collection => t.status in {Settled, Failed}
    case Payout | Utility => t.status in {Delivered, Refunded}
    case Transfer => t.status == Completed
  }

  predicate StatusOk(t: Tx)
  {
    match t.key.kind
    case Collection => t.status in {Accepted, Dispatched, Settled, Failed}
    case Payout =>
      && t.funding == FromWallet
      && t.status in (if t.review then {Accepted, InReview} else {Accepted, Dispatching, Delivered, Failed, Refunded})
    case Utility =>
      t.status in (if t.funding == FromWallet then {Accepted, Vending, Delivered, Failed, Refunded}
                   else {Accepted, AwaitingPayment, Delivered, Failed})
    case Transfer => t.status == Completed
  }

  /** A payment ends as its outcome has it, and gives the reason of its failure. */
  predicate OutcomeOk(t: Tx)
  {
    match t.key.kind
    case Collection =>
      && (t.status == Settled ==> t.outcome == Succeeds)
      && (t.status == Failed ==> t.outcome != Succeeds)
      && t.failure == (if t.status == Failed then Some(if t.outcome == FailsOnPin then WrongPin else Declined) else None)
    case Payout =>
      && (t.status == Delivered ==> t.outcome == Succeeds)
      && (t.status in {Failed, Refunded} ==> t.outcome != Succeeds)
      && t.failure == (if t.status in {Failed, Refunded} then Some(Declined) else None)
    case Utility => t.failure == (if t.status in {Failed, Refunded} then Some(VendFailed) else None)
    case Transfer => t.failure == None
  }

  predicate SettlementOk(t: Tx)
  {
    if t.key.kind != Collection then t.settlement == NoSettlement
    else if t.status == Settled then t.settlement in {Eligible, SettledOut}
    else t.settlement == NotEligible
  }

  predicate TxOk(t: Tx)
  {
    && t.amount > 0
    && (t.key.kind == Collection ==> t.fee >= 10 && (t.amount > 10 ==> t.fee < t.amount))
    && (!t.registered ==> Holdable(t))
    && (t.registered ==> StatusOk(t) && OutcomeOk(t) && (t.completed <==> IsFinal(t)) && (t.review ==> t.key.kind == Payout))
    && SettlementOk(t)
  }

  /** A timer step finds the payment in the status it was scheduled for. */
  predicate Fits(t: Tx, act: Act)
  {
    && t.registered && t.key.kind != Transfer
    && match act
       case Half(_) => t.status == Accepted && !t.review
       case Review(_) => t.status == Accepted && t.review
       case Final(_, _) => t.status == HalfStatus(t) && !t.review
       case Refund(_) => t.status == Failed && (t.key.kind == Payout || (t.key.kind == Utility && t.funding == FromWallet))
  }

  /** A timer step may move money: a final step finds its payment open, a refund finds it failed. */
  predicate Ready(t: Tx, act: Act)
  {
    match act
    case Half(_) | Review(_) => true
    case Final(_, _) => t.registered && t.key.kind != Transfer && !t.review && !t.completed && t.failure.None?
    case Refund(_) =>
      t.failure.Some? && !t.completed && (t.key.kind == Payout || (t.key.kind == Utility && t.funding == FromWallet))
  }

  /** A status change is a payment update followed by its event. */
  lemma StatusKeeps(b: Book, i: nat, t: Tx)
    requires i < |b.objs| && Balanced(SetObj(b, i, t))
    ensures Balanced(SetStatus(b, i, t))
  {
    hide Balanced;
    EmitKeeps(SetObj(b, i, t), t.key.cred, ChangedType(t.key.kind), OfTx(i, t));
  }

  lemma CollectionFinalKeeps(b: Book, i: nat, half: nat)
    requires Balanced(b) && i < |b.objs| && b.objs[i].key.kind == Collection && Ready(b.objs[i], Final(i, half))
    ensures Balanced(RunFinal(b, i, half).0)
  {
    hide Balanced;
    var t := b.objs[i];
    if t.outcome == Succeeds {
      var u := t.(status := Settled, settlement := Eligible, completed := true);
      MoveSetKeeps(b, i, u, t.key.cred, Recipient(t), 0, CollectionCredit);
      StatusKeeps(Credit(b, t.key.cred, Recipient(t), t.key.reference, CollectionCredit), i, u);
    } else {
      var u := t.(status := Failed, failure := Some(if t.outcome == FailsOnPin then WrongPin else Declined), completed := true);
      SetKeeps(b, i, u);
      StatusKeeps(b, i, u);
    }
  }

  lemma PayoutFinalKeeps(b: Book, i: nat, half: nat)
    requires Balanced(b) && i < |b.objs| && b.objs[i].key.kind == Payout && Ready(b.objs[i], Final(i, half))
    ensures Balanced(RunFinal(b, i, half).0)
  {
    hide Balanced;
    var t := b.objs[i];
    if t.outcome == Succeeds {
      var u := t.(status := Delivered, completed := true);
      ReleaseSetKeeps(b, i, u);
      StatusKeeps(Release(b, t.key.cred, Pays(t)), i, u);
    } else {
      var u := t.(status := Failed, failure := Some(Declined));
      SetKeeps(b, i, u);
      StatusKeeps(b, i, u);
    }
  }

  lemma UtilityFinalKeeps(b: Book, i: nat, half: nat)
    requires Balanced(b) && i < |b.objs| && b.objs[i].key.kind == Utility && Ready(b.objs[i], Final(i, half))
    ensures Balanced(RunFinal(b, i, half).0)
  {
    hide Balanced;
    var t := b.objs[i];
    if b.config.othersSucceed {
      var u := t.(status := Delivered, completed := true);
      if t.funding == FromWallet {
        ReleaseSetKeeps(b, i, u);
        StatusKeeps(Release(b, t.key.cred, Pays(t)), i, u);
      } else {
        SetKeeps(b, i, u);
        StatusKeeps(b, i, u);
      }
    } else {
      var u := t.(status := Failed, failure := Some(VendFailed));
      SetKeeps(b, i, u);
      StatusKeeps(b, i, u);
    }
  }

  lemma RefundKeeps(b: Book, i: nat)
    requires Balanced(b) && i < |b.objs| && Ready(b.objs[i], Refund(i))
    ensures Balanced(RunAct(b, Refund(i)).0)
  {
    hide Balanced, Move, Release, SetStatus;
    var t := b.objs[i];
    var u := t.(status := Refunded, completed := true);
    RefundSetKeeps(b, i, u, RefundKind(t.key.kind));
    ReleaseLedger(b, t.key.cred, Pays(t));
    MovedCounters(Release(b, t.key.cred, Pays(t)), t.key.cred, Pays(t), 0, t.key.reference, RefundKind(t.key.kind));
    StatusKeeps(Credit(Release(b, t.key.cred, Pays(t)), t.key.cred, Pays(t), t.key.reference, RefundKind(t.key.kind)), i, u);
  }

  lemma ActKeeps(b: Book, act: Act)
    requires Balanced(b) && act.obj < |b.objs| && Ready(b.objs[act.obj], act)
    ensures Balanced(RunAct(b, act).0)
  {
    hide Balanced;
    var i, t := act.obj, b.objs[act.obj];
    match act
    case Final(_, half) =>
      match t.key.kind {
        case Collection => CollectionFinalKeeps(b, i, half);
        case Payout => PayoutFinalKeeps(b, i, half);
        case Utility => UtilityFinalKeeps(b, i, half);
      }
    case Refund(_) => RefundKeeps(b, i);
    case Review(_) =>
      SetKeeps(b, i, t.(status := InReview));
      StatusKeeps(b, i, t.(status := InReview));
    case Half(_) =>
      SetKeeps(b, i, t.(status := HalfStatus(t)));
      StatusKeeps(b, i, t.(status := HalfStatus(t)));
  }

  /* Whole operations */

  lemma ResumeTransferKeeps(b: Book, i: nat)
    requires Balanced(b) && i < |b.objs| && !b.objs[i].registered && b.objs[i].key.kind == Transfer
    ensures Balanced(ResumeTransfer(b, i).book)
  {
    hide Balanced;
    var t := b.objs[i];
    TransferRecordKeeps(b, i);
    CompleteTransferKeeps(Record(Credit(b, t.party, t.amount, t.key.reference, TransferIn), i, false), i);
  }

  lemma CompleteTransferKeeps(b: Book, i: nat)
    requires Balanced(b) && i < |b.objs| && b.objs[i].key.kind == Transfer
    ensures var u := b.objs[i].(status := Completed, completed := true);
            var c := EmitTx(SetObj(b, i, u), i, u.key.cred, TransferChanged);
            Balanced(EmitTx(c, i, u.party, TransferReceived))
  {
    hide Balanced;
    var u := b.objs[i].(status := Completed, completed := true);
    SetKeeps(b, i, u);
    EmitKeeps(SetObj(b, i, u), u.key.cred, TransferChanged, OfTx(i, u));
    EmitKeeps(EmitTx(SetObj(b, i, u), i, u.key.cred, TransferChanged), u.party, TransferReceived, OfTx(i, u));
  }

  lemma CreditIsMove(b: Book, cred: Name, amount: int, ref: Name, kind: EntryKind)
    ensures Credit(b, cred, amount, ref, kind) == Move(b, cred, amount, 0, ref, kind)
    ensures Credit(b, cred, amount, ref, kind).objs == b.objs
  {
  }

  lemma TransferRecordKeeps(b: Book, i: nat)
    requires Balanced(b) && i < |b.objs| && !b.objs[i].registered && b.objs[i].key.kind == Transfer
    ensures var t := b.objs[i];
            Balanced(Record(Credit(b, t.party, t.amount, t.key.reference, TransferIn), i, false))
  {
    hide SumBy, Listed, Credit, BalancedAt, Record, FundsGap;
    var t := b.objs[i];
    var b1 := Credit(b, t.party, t.amount, t.key.reference, TransferIn);
    CreditIsMove(b, t.party, t.amount, t.key.reference, TransferIn);
    MoveFunds(b, t.party, t.amount, 0, t.key.reference, TransferIn);
    RecordFunds(b1, i, false);
    forall w, k ensures BalancedAt(Record(b1, i, false), w, k) {
      assert BalancedAt(b, w, k);
      PlainMoveAt(b, t.party, t.amount, t.key.reference, TransferIn, w, k);
      RecordAt(b1, i, false, w, k);
    }
  }

  lemma ResumeHeldKeeps(b: Book, i: nat, review: bool)
    requires Balanced(b) && i < |b.objs| && !b.objs[i].registered && b.objs[i].key.kind in {Payout, Utility}
    ensures Balanced(ResumeHeld(b, i, review).book)
  {
    hide Balanced;
    RecordKeeps(b, i, review);
    var c, t := Record(b, i, review), b.objs[i];
    EmitKeeps(c, t.key.cred, AcceptedType(t.key.kind), OfTx(i, c.objs[i]));
  }

  lemma ResumeKeeps(b: Book, i: nat)
    requires Balanced(b) && i < |b.objs| && !b.objs[i].registered && b.objs[i].key.kind != Collection
    ensures Balanced(Resume(b, i).book)
  {
    hide Balanced;
    var t := b.objs[i];
    match t.key.kind
    case Transfer => ResumeTransferKeeps(b, i);
    case Utility =>
      EnsureWalletKeeps(b, t.key.cred);
      ResumeHeldKeeps(EnsureWallet(b, t.key.cred), i, false);
    case Payout => ResumeHeldKeeps(b, i, UnderReview(b.config, t.amount));
  }

  lemma DrawKeeps(b: Book)
    requires Balanced(b)
    ensures Balanced(Draw(b))
  {
    SameMoneyKeeps(b, Draw(b));
  }

  lemma CollectionKeeps(b: Book, cred: Name, r: Body)
    requires Balanced(b) && r.CollectionBody?
    ensures Balanced(CreateCollection(b, cred, r).book)
  {
    hide Balanced, ParseAmount, Fee;
    var g := CreateCollection(b, cred, r);
    if |g.later| == 2 {
      var amount := ParseAmount(r.amount).value;
      var t := NewTx(b, TxKey(Collection, cred, r.reference), amount, Fee(amount, b.config.feeRate), r, r.party,
                     FromPayer);
      DrawKeeps(b);
      AddKeeps(Draw(b), t);
      var c := AddObj(Draw(b), t);
      RecordKeeps(c, |b.objs|, false);
      var d := Record(c, |b.objs|, false);
      EmitKeeps(d, cred, CollectionAccepted, OfTx(|b.objs|, d.objs[|b.objs|]));
    }
  }

  lemma StartPayoutKeeps(b: Book, cred: Name, r: PayoutRequest)
    requires Balanced(b)
    ensures Balanced(StartPayout(b, cred, r).book)
  {
    hide Balanced, ParseAmount, Fee, Hold;
    var amount := ParseAmount(r.amount);
    if amount.Some? {
      HoldKeeps(b, NewTx(b, TxKey(Payout, cred, r.reference), amount.value, Fee(amount.value, b.config.feeRate),
                         PayoutBody(r), r.party, FromWallet));
    }
  }

  lemma StartUtilityKeeps(b: Book, cred: Name, r: Body)
    requires Balanced(b) && r.UtilityBody?
    ensures Balanced(StartUtility(b, cred, r).book)
  {
    hide Balanced, ParseAmount, FindProduct, Fee, Hold, Resume;
    if UtilityFault(r).None? {
      var amount := ParseAmount(r.amount).value;
      var t := NewTx(b, TxKey(Utility, cred, r.reference), amount, Fee(amount, b.config.feeRate), r, Name(""),
                     r.funding);
      if r.funding == FromWallet {
        HoldKeeps(b, t);
      } else {
        DrawKeeps(b);
        AddKeeps(Draw(b), t);
        ResumeKeeps(AddObj(Draw(b), t), |b.objs|);
      }
    }
  }

  lemma StartTransferKeeps(b: Book, cred: Name, r: Body)
    requires Balanced(b) && r.TransferBody?
    ensures Balanced(StartTransfer(b, cred, r).book)
  {
    hide Balanced, ParseAmount, Hold;
    var amount := ParseAmount(r.amount);
    if amount.Some? {
      HoldKeeps(b, NewTx(b, TxKey(Transfer, cred, r.reference), amount.value, 0, r, r.handle, FromWallet));
    }
  }

  /** A posted movement that stands for no payment. */
  lemma PlainMoveAt(b: Book, id: Name, db: int, ref: Name, kind: EntryKind, w: Name, k: TxKey)
    requires BalancedAt(b, w, k) && EntryKindOf(kind).None?
    ensures BalancedAt(Move(b, id, db, 0, ref, kind), w, k)
  {
    hide SumBy;
    MoveAt(b, id, db, 0, ref, kind, w, k);
    MovedCounters(b, id, db, 0, ref, kind);
    hide Move, Drift, ReserveGap, TxGap;
  }

  lemma MovedCounters(b: Book, id: Name, db: int, dr: int, ref: Name, kind: EntryKind)
    ensures var c := Move(b, id, db, dr, ref, kind);
            && c.objs == b.objs && c.effects == b.effects && c.dailyIn == b.dailyIn && c.dailyOut == b.dailyOut
            && c.runs == b.runs
  {
    EnsuresOnly(b, id);
    hide EnsureWallet;
  }

  lemma SetBalanceKeeps(b: Book, cred: Name, amount: string)
    requires Balanced(b)
    ensures Balanced(SetBalance(b, cred, amount))
  {
    hide SumBy, Listed, ParseAmount, Move, BalancedAt;
    var target := ParseAmount(amount);
    if target.Some? {
      var delta := target.value - EnsureWallet(b, cred).wallets[cred].balance;
      MoveFunds(b, cred, delta, 0, Name("control"), EntryKind.Adjustment);
      forall w, k ensures BalancedAt(SetBalance(b, cred, amount), w, k) {
        assert BalancedAt(b, w, k);
        PlainMoveAt(b, cred, delta, Name("control"), EntryKind.Adjustment, w, k);
      }
    }
  }

  /* Settlement */

  lemma {:induction false} PayOutSame(objs: seq<Tx>, cred: Name, f: Tx -> int)
    requires forall t: Tx, s :: f(t.(settlement := s)) == f(t)
    ensures SumBy(PayOutAll(objs, cred), f) == SumBy(objs, f)
  {
    if objs != [] {
      PayOutSame(objs[..|objs| - 1], cred, f);
      SumAppend(PayOutAll(objs[..|objs| - 1], cred), PayOut(objs[|objs| - 1], cred), f);
    }
  }

  lemma PayOutAt(b: Book, cred: Name, w: Name, k: TxKey)
    requires BalancedAt(b, w, k)
    ensures BalancedAt(b.(objs := PayOutAll(b.objs, cred)), w, k)
  {
    hide SumBy, PayOutAll;
    PayOutSame(b.objs, cred, HoldOf(w));
    PayOutSame(b.objs, cred, NetOf(k));
    PayOutSame(b.objs, cred, EffectOf(k));
    PayOutSame(b.objs, cred, InwardOf(w));
    PayOutSame(b.objs, cred, OutwardOf(w));
  }

  lemma PayOutKeeps(b: Book, cred: Name)
    requires Balanced(b)
    ensures Balanced(b.(objs := PayOutAll(b.objs, cred)))
  {
    hide SumBy, Listed, PayOutAll;
    PayOutSame(b.objs, cred, FundsOf());
    forall w, k ensures BalancedAt(b.(objs := PayOutAll(b.objs, cred)), w, k) { PayOutAt(b, cred, w, k); }
  }

  /** Recording a run moves the overall funds identity by what it paid, and no other. */
  lemma AddRunKeeps(b: Book, run: SettlementRun)
    requires WalletsOk(b) && FundsGap(b) == 0 - PaidBy(run) && (forall w, k :: BalancedAt(b, w, k))
    ensures Balanced(b.(runs := b.runs + [run]))
  {
    hide SumBy, Listed;
    SumAppend(b.runs, run, PaidOf());
    forall w, k ensures BalancedAt(b.(runs := b.runs + [run]), w, k) { assert BalancedAt(b, w, k); }
  }

  /** Paying a positive total out of a wallet, with the run that records it. */
  lemma PayRunKeeps(b: Book, run: SettlementRun, ref: Name)
    requires Balanced(b) && run.total > 0
    ensures var c := Move(b, run.cred, 0 - run.total, 0, ref, SettlementPaid);
            Balanced(c.(runs := c.runs + [run]))
  {
    hide SumBy, Listed, Move, BalancedAt;
    var c := Move(b, run.cred, 0 - run.total, 0, ref, SettlementPaid);
    MoveFunds(b, run.cred, 0 - run.total, 0, ref, SettlementPaid);
    forall w, k ensures BalancedAt(c, w, k) {
      assert BalancedAt(b, w, k);
      PlainMoveAt(b, run.cred, 0 - run.total, ref, SettlementPaid, w, k);
    }
    AddRunKeeps(c, run);
  }

  lemma SettleKeeps(b: Book, cred: Name, reference: Name)
    requires Balanced(b)
    ensures Balanced(SettleNow(b, cred, reference).book)
  {
    hide Balanced, PayOutAll, DueTotal, DueCount, FindRun, RunId, Move;
    if b.policy.Some? && FindRun(b.runs, cred, reference).None? {
      var net := DueTotal(b.objs, cred);
      var run := SettlementRun(b.serial + 1, reference, cred, DueCount(b.objs, cred), net);
      DrawKeeps(b);
      if net > 0 {
        PayOutKeeps(Draw(b), cred);
        var p := Draw(b).(objs := PayOutAll(b.objs, cred));
        PayRunKeeps(p, run, RunId(run.id));
        var c := Move(p, cred, 0 - net, 0, RunId(run.id), SettlementPaid);
        EmitKeeps(c.(runs := c.runs + [run]), cred, SettlementChanged, OfRun(run));
      } else {
        AddRunKeeps(Draw(b), run);
        EmitKeeps(Draw(b).(runs := b.runs + [run]), cred, SettlementChanged, OfRun(run));
      }
    }
  }
}
