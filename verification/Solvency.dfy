/** What no operation but a settlement touches: the runs, the terms of a payment and whether it was
    settled out; and how operations treat a wallet's solvency, its balance plus what was settled out of it. */
module Solvency {
  import opened Money
  import opened Domain
  import opened Operations
  import opened Accounting
  import opened BookInvariants
  import opened Shapes
  import opened Segments
  import opened Bookkeeping
  import opened Sums

  function PaidFrom(w: Name): SettlementRun -> int { (r: SettlementRun) => if r.cred == w then PaidBy(r) else 0 }

  /** Everything settled out of a wallet so far. */
  function Paid(b: Book, w: Name): int { SumBy(b.runs, PaidFrom(w)) }

  predicate SolventAt(b: Book, w: Name) { w in b.wallets ==> b.wallets[w].balance + Paid(b, w) >= 0 }

  ghost predicate Solvent(b: Book) { forall w :: SolventAt(b, w) }

  /** The terms of a payment never change; a settlement state only becomes eligible. */
  predicate SameTerms(t: Tx, u: Tx)
  {
    && u.key == t.key && u.amount == t.amount && u.fee == t.fee && u.bearer == t.bearer
    && (u.settlement == t.settlement || (t.settlement == NotEligible && u.settlement == Eligible))
  }

  /** The listings only ever grow at their ends, and serial numbers are not given out again. */
  predicate Grown(b: Book, c: Book) { b.order <= c.order && b.events <= c.events && b.serial <= c.serial }

  ghost predicate SameDeals(b: Book, c: Book)
  {
    && c.runs == b.runs && Grown(b, c) && |b.objs| <= |c.objs|
    && (forall i :: 0 <= i < |b.objs| ==> SameTerms(b.objs[i], c.objs[i]))
    && (forall i :: |b.objs| <= i < |c.objs| ==> c.objs[i].settlement != SettledOut)
  }

  /** No run, no settled-out payment, no payment's terms change, and solvent wallets stay so. */
  ghost predicate Lasting(b: Book, c: Book) { SameDeals(b, c) && (Solvent(b) ==> Solvent(c)) }

  /** Nor does any finished batch. */
  ghost predicate Steady(b: Book, c: Book) { Lasting(b, c) && c.batches == b.batches }

  lemma SteadyThen(b: Book, c: Book, d: Book)
    requires Steady(b, c) && Steady(c, d)
    ensures Steady(b, d)
  {
    hide Solvent;
    forall i | 0 <= i < |b.objs| ensures SameTerms(b.objs[i], d.objs[i]) {
      assert SameTerms(b.objs[i], c.objs[i]) && SameTerms(c.objs[i], d.objs[i]);
    }
  }

  /* Primitives */

  lemma SteadySame(b: Book, c: Book)
    requires c.runs == b.runs && c.objs == b.objs && c.wallets == b.wallets && Grown(b, c)
    ensures Lasting(b, c) && (c.batches == b.batches ==> Steady(b, c))
  {
    hide SumBy;
    if Solvent(b) {
      forall w ensures SolventAt(c, w) { assert SolventAt(b, w); }
    }
  }

  lemma SteadyAdd(b: Book, t: Tx)
    requires t.settlement != SettledOut
    ensures Steady(b, AddObj(b, t))
  {
    hide SumBy;
    if Solvent(b) {
      forall w ensures SolventAt(AddObj(b, t), w) { assert SolventAt(b, w); }
    }
  }

  lemma SteadySet(b: Book, i: nat, t: Tx)
    requires i < |b.objs| && SameTerms(b.objs[i], t)
    ensures Steady(b, SetObj(b, i, t))
  {
    hide SumBy;
    if Solvent(b) {
      forall w ensures SolventAt(SetObj(b, i, t), w) { assert SolventAt(b, w); }
    }
  }

  lemma PaidNonNegative(b: Book, w: Name)
    ensures Paid(b, w) >= 0
  {
    SumNonNegative(b.runs, PaidFrom(w));
  }

  lemma EnsureSolventAt(b: Book, id: Name, w: Name)
    requires SolventAt(b, w)
    ensures SolventAt(EnsureWallet(b, id), w)
  {
    hide SumBy;
    PaidNonNegative(b, w);
    if id in b.wallets {} else {}
  }

  lemma SteadyEnsure(b: Book, id: Name)
    ensures Steady(b, EnsureWallet(b, id))
  {
    hide SolventAt;
    EnsurePlain(b, id);
    EnsureRuns(b, id);
    hide EnsureWallet;
    if Solvent(b) {
      forall w ensures SolventAt(EnsureWallet(b, id), w) {
        assert SolventAt(b, w);
        EnsureSolventAt(b, id, w);
      }
    }
  }

  lemma EnsureRuns(b: Book, id: Name)
    ensures EnsureWallet(b, id).runs == b.runs && Grown(b, EnsureWallet(b, id)) && EnsureWallet(b, id).batches == b.batches
    ensures id in EnsureWallet(b, id).wallets
  {
  }

  /** A movement in, or one the balance covers. */
  lemma SteadyMove(b: Book, id: Name, db: int, dr: int, ref: Name, kind: EntryKind)
    requires db >= 0 || CanDebit(b, id, 0 - db)
    ensures Steady(b, Move(b, id, db, dr, ref, kind))
  {
    hide SumBy;
    var e, c := EnsureWallet(b, id), Move(b, id, db, dr, ref, kind);
    SteadyEnsure(b, id);
    if Solvent(b) {
      forall w ensures SolventAt(c, w) {
        assert SolventAt(e, w);
        PaidNonNegative(b, w);
      }
    }
  }

  lemma SteadyRelease(b: Book, cred: Name, p: nat)
    ensures Steady(b, Release(b, cred, p))
  {
    hide SumBy;
    var e, c := EnsureWallet(b, cred), Release(b, cred, p);
    SteadyEnsure(b, cred);
    if Solvent(b) {
      forall w ensures SolventAt(c, w) { assert SolventAt(e, w); }
    }
  }

  /** Registering a payment, and announcing it. */
  lemma SteadyRecord(b: Book, i: nat, review: bool, cred: Name, etype: EventType)
    requires i < |b.objs|
    ensures Steady(b, Record(b, i, review)) && Steady(b, EmitTx(Record(b, i, review), i, cred, etype))
  {
    hide Steady, Record, EmitTx;
    var a, c := SetObj(b, i, Enrolled(b.config, b.objs[i], review)), Record(b, i, review);
    SteadySet(b, i, Enrolled(b.config, b.objs[i], review));
    RecordPlain(b, i, review);
    SteadySame(a, c);
    SteadyThen(b, a, c);
    EmitPlain(c, i, cred, etype);
    SteadySame(c, EmitTx(c, i, cred, etype));
    SteadyThen(b, c, EmitTx(c, i, cred, etype));
  }

  lemma RecordPlain(b: Book, i: nat, review: bool)
    requires i < |b.objs|
    ensures var a, c := SetObj(b, i, Enrolled(b.config, b.objs[i], review)), Record(b, i, review);
            c.runs == a.runs && c.objs == a.objs && c.wallets == a.wallets && c.batches == a.batches && Grown(a, c)
  {
    RegisterOnly(b, i, review);
    NoteVolumeOnly(Register(b, i, review), b.objs[i].key.cred, b.objs[i].amount, b.objs[i].key.kind == Collection);
    hide Register, NoteVolume;
  }

  lemma RegisterOnly(b: Book, i: nat, review: bool)
    requires i < |b.objs|
    ensures var a, c := SetObj(b, i, Enrolled(b.config, b.objs[i], review)), Register(b, i, review);
            c.runs == a.runs && c.objs == a.objs && c.wallets == a.wallets && c.batches == a.batches && Grown(a, c)
  {
  }

  lemma NoteVolumeOnly(b: Book, cred: Name, amount: nat, inward: bool)
    ensures var c := NoteVolume(b, cred, amount, inward);
            && c.runs == b.runs && c.objs == b.objs && c.wallets == b.wallets && c.batches == b.batches
            && c.order == b.order && c.events == b.events && c.serial == b.serial
  {
  }

  lemma EmitPlain(b: Book, i: nat, cred: Name, etype: EventType)
    requires i < |b.objs|
    ensures var c := EmitTx(b, i, cred, etype);
            && c.runs == b.runs && c.objs == b.objs && c.wallets == b.wallets && c.batches == b.batches && Grown(b, c)
            && c.dailyIn == b.dailyIn && c.dailyOut == b.dailyOut
  {
  }

  /** A status change after a movement. */
  lemma SteadyStatus(b: Book, a: Book, i: nat, t: Tx)
    requires i < |b.objs| && Steady(b, a) && a.objs == b.objs && SameTerms(b.objs[i], t)
    ensures Steady(b, SetStatus(a, i, t))
  {
    hide Steady;
    SteadySet(a, i, t);
    SteadySame(SetObj(a, i, t), SetStatus(a, i, t));
    SteadyThen(a, SetObj(a, i, t), SetStatus(a, i, t));
    SteadyThen(b, a, SetStatus(a, i, t));
  }

  /* Operations */

  lemma SteadyHold(b: Book, t: Tx)
    requires t.key.kind != Collection && t.settlement != SettledOut
    ensures Steady(b, Hold(b, t).book)
  {
    hide Steady, Move;
    var d := Draw(b);
    SteadySame(b, d);
    if CanDebit(d, t.key.cred, Pays(t)) {
      var m := Debit(d, t.key.cred, Pays(t), t.key.reference, EntryOut(t.key.kind), t.key.kind != Transfer);
      SteadyDebit(d, t.key.cred, Pays(t), t.key.reference, EntryOut(t.key.kind), t.key.kind != Transfer);
      SteadyAdd(m, t);
      SteadyThen(b, d, m);
      SteadyThen(b, m, AddObj(m, t));
    } else {
      SteadyEnsure(d, t.key.cred);
      SteadyThen(b, d, EnsureWallet(d, t.key.cred));
    }
  }

  /** A debit that is allowed leaves its wallet non-negative. */
  lemma SteadyDebit(b: Book, cred: Name, amount: nat, ref: Name, kind: EntryKind, reserve: bool)
    requires CanDebit(b, cred, amount)
    ensures var c := Debit(b, cred, amount, ref, kind, reserve);
            Steady(b, c) && cred in c.wallets && c.wallets[cred].balance >= 0
  {
    SteadyMove(b, cred, 0 - amount, if reserve then amount else 0, ref, kind);
    hide Steady;
  }

  lemma SteadyCollection(b: Book, cred: Name, r: Body)
    requires r.CollectionBody?
    ensures Steady(b, CreateCollection(b, cred, r).book)
  {
    hide Steady, ParseAmount, Fee, Record, EmitTx;
    var g := CreateCollection(b, cred, r);
    SteadySame(b, b);
    if |g.later| == 2 {
      var amount := ParseAmount(r.amount).value;
      var t := NewTx(b, TxKey(Collection, cred, r.reference), amount, Fee(amount, b.config.feeRate), r, r.party,
                     FromPayer);
      SteadySame(b, Draw(b));
      SteadyAdd(Draw(b), t);
      SteadyThen(b, Draw(b), AddObj(Draw(b), t));
      SteadyRecord(AddObj(Draw(b), t), |b.objs|, false, cred, CollectionAccepted);
      SteadyThen(b, AddObj(Draw(b), t), g.book);
    }
  }

  lemma SteadyPayout(b: Book, cred: Name, r: PayoutRequest)
    ensures Steady(b, StartPayout(b, cred, r).book)
  {
    hide Steady, ParseAmount, Fee, Hold;
    var amount := ParseAmount(r.amount);
    SteadySame(b, b);
    if amount.Some? {
      SteadyHold(b, NewTx(b, TxKey(Payout, cred, r.reference), amount.value, Fee(amount.value, b.config.feeRate),
                          PayoutBody(r), r.party, FromWallet));
    }
  }

  lemma SteadyTransfer(b: Book, cred: Name, r: Body)
    requires r.TransferBody?
    ensures Steady(b, StartTransfer(b, cred, r).book)
  {
    hide Steady, ParseAmount, Hold;
    var amount := ParseAmount(r.amount);
    SteadySame(b, b);
    if amount.Some? {
      SteadyHold(b, NewTx(b, TxKey(Transfer, cred, r.reference), amount.value, 0, r, r.handle, FromWallet));
    }
  }

  lemma SteadyUtility(b: Book, cred: Name, r: Body)
    requires r.UtilityBody?
    ensures Steady(b, StartUtility(b, cred, r).book)
  {
    hide Steady, ParseAmount, FindProduct, Fee, Hold, Resume;
    SteadySame(b, b);
    if UtilityFault(r).None? {
      var amount := ParseAmount(r.amount).value;
      var t := NewTx(b, TxKey(Utility, cred, r.reference), amount, Fee(amount, b.config.feeRate), r, Name(""),
                     r.funding);
      if r.funding == FromWallet {
        SteadyHold(b, t);
      } else {
        var a := AddObj(Draw(b), t);
        SteadySame(b, Draw(b));
        SteadyAdd(Draw(b), t);
        SteadyThen(b, Draw(b), a);
        SteadyResume(a, |b.objs|);
        SteadyThen(b, a, Resume(a, |b.objs|).book);
      }
    }
  }

  lemma SteadyHeld(b: Book, i: nat, review: bool)
    requires i < |b.objs|
    ensures Steady(b, ResumeHeld(b, i, review).book)
  {
    hide Steady, Record, EmitTx;
    SteadyRecord(b, i, review, b.objs[i].key.cred, AcceptedType(b.objs[i].key.kind));
  }

  lemma SteadyTransferEnd(b: Book, i: nat)
    requires i < |b.objs|
    ensures Steady(b, ResumeTransfer(b, i).book)
  {
    hide Steady, Move;
    var t := b.objs[i];
    var b1 := Credit(b, t.party, t.amount, t.key.reference, TransferIn);
    MovePlain(b, t.party, t.amount, 0, t.key.reference, TransferIn);
    SteadyMove(b, t.party, t.amount, 0, t.key.reference, TransferIn);
    var b2 := Record(b1, i, false);
    SteadyRecord(b1, i, false, t.key.cred, TransferChanged);
    SteadyThen(b, b1, b2);
    var u := b2.objs[i].(status := Completed, completed := true);
    SteadySet(b2, i, u);
    SteadyThen(b, b2, SetObj(b2, i, u));
    SteadySame(SetObj(b2, i, u), ResumeTransfer(b, i).book);
    SteadyThen(b, SetObj(b2, i, u), ResumeTransfer(b, i).book);
  }

  lemma SteadyResume(b: Book, i: nat)
    requires i < |b.objs|
    ensures Steady(b, Resume(b, i).book)
  {
    hide Steady, ResumeHeld, ResumeTransfer, EnsureWallet;
    var t := b.objs[i];
    match t.key.kind
    case Transfer => SteadyTransferEnd(b, i);
    case Utility =>
      var e := EnsureWallet(b, t.key.cred);
      SteadyEnsure(b, t.key.cred);
      EnsurePlain(b, t.key.cred);
      SteadyHeld(e, i, false);
      SteadyThen(b, e, ResumeHeld(e, i, false).book);
    case _ => SteadyHeld(b, i, UnderReview(b.config, t.amount));
  }

  lemma SteadySetBalance(b: Book, cred: Name, amount: string)
    ensures Steady(b, SetBalance(b, cred, amount))
  {
    hide Steady, ParseAmount;
    var target := ParseAmount(amount);
    SteadySame(b, b);
    if target.Some? {
      var delta := target.value - EnsureWallet(b, cred).wallets[cred].balance;
      SteadyMove(b, cred, delta, 0, Name("control"), EntryKind.Adjustment);
    }
  }

  /* Timer steps */

  lemma SteadyFinal(b: Book, i: nat, half: nat)
    requires i < |b.objs| && FixedTx(b.objs[i]) && Ready(b.objs[i], Final(i, half))
    requires b.objs[i].key.kind == Collection ==> Recipient(b.objs[i]) >= 0
    ensures Steady(b, RunFinal(b, i, half).0)
  {
    hide Steady, Move, Release, SetStatus;
    var t := b.objs[i];
    SteadySame(b, b);
    match t.key.kind
    case Collection =>
      var m := Credit(b, t.key.cred, Recipient(t), t.key.reference, CollectionCredit);
      MovePlain(b, t.key.cred, Recipient(t), 0, t.key.reference, CollectionCredit);
      SteadyMove(b, t.key.cred, Recipient(t), 0, t.key.reference, CollectionCredit);
      SteadyStatus(b, m, i, t.(status := Settled, settlement := Eligible, completed := true));
      var reason := if t.outcome == FailsOnPin then WrongPin else Declined;
      SteadyStatus(b, b, i, t.(status := Failed, failure := Some(reason), completed := true));
    case _ => SteadyOutward(b, i, half);
  }

  lemma SteadyOutward(b: Book, i: nat, half: nat)
    requires i < |b.objs| && b.objs[i].key.kind in {Payout, Utility}
    ensures Steady(b, RunFinal(b, i, half).0)
  {
    hide Steady, Release, SetStatus;
    var t := b.objs[i];
    var m := Release(b, t.key.cred, Pays(t));
    SteadySame(b, b);
    ReleasedPlain(b, t.key.cred, Pays(t));
    SteadyRelease(b, t.key.cred, Pays(t));
    SteadyStatus(b, m, i, t.(status := Delivered, completed := true));
    SteadyStatus(b, b, i, t.(status := Delivered, completed := true));
    SteadyStatus(b, b, i, t.(status := Failed, failure := Some(Declined)));
    SteadyStatus(b, b, i, t.(status := Failed, failure := Some(VendFailed)));
  }

  lemma ReleasedPlain(b: Book, cred: Name, p: nat)
    ensures Release(b, cred, p).objs == b.objs && Release(b, cred, p).runs == b.runs
  {
  }

  lemma SteadyRefund(b: Book, i: nat)
    requires i < |b.objs|
    ensures Steady(b, RunAct(b, Refund(i)).0)
  {
    hide Steady, Move, Release, SetStatus;
    var t := b.objs[i];
    var p := Pays(t);
    var r := Release(b, t.key.cred, p);
    var m := Credit(r, t.key.cred, p, t.key.reference, RefundKind(t.key.kind));
    ReleasedPlain(b, t.key.cred, p);
    SteadyRelease(b, t.key.cred, p);
    MovePlain(r, t.key.cred, p, 0, t.key.reference, RefundKind(t.key.kind));
    SteadyMove(r, t.key.cred, p, 0, t.key.reference, RefundKind(t.key.kind));
    SteadyThen(b, r, m);
    SteadyStatus(b, m, i, t.(status := Refunded, completed := true));
  }

  /** A timer step is steady unless it credits a collection whose fee exceeds its amount. */
  lemma SteadyAct(b: Book, act: Act)
    requires act.obj < |b.objs| && FixedTx(b.objs[act.obj]) && Ready(b.objs[act.obj], act)
    requires act.Final? && b.objs[act.obj].key.kind == Collection ==> Recipient(b.objs[act.obj]) >= 0
    ensures Steady(b, RunAct(b, act).0)
  {
    hide Steady, FixedTx, RunFinal, SetStatus;
    var i, t := act.obj, b.objs[act.obj];
    match act
    case Final(_, half) => SteadyFinal(b, i, half);
    case Refund(_) => SteadyRefund(b, i);
    case Half(_) =>
      SteadySame(b, b);
      SteadyStatus(b, b, i, t.(status := HalfStatus(t)));
    case Review(_) =>
      SteadySame(b, b);
      SteadyStatus(b, b, i, t.(status := InReview));
  }

  /* Growth, whatever status a timer finds */

  /** Nothing that only grows shrinks, and no run, no finished batch and no volume changes. */
  predicate Kept(b: Book, c: Book)
  {
    && Grown(b, c) && c.runs == b.runs && c.batches == b.batches
    && c.dailyIn == b.dailyIn && c.dailyOut == b.dailyOut
  }

  lemma StatusKept(b: Book, a: Book, i: nat, t: Tx)
    requires i < |a.objs| && Kept(b, a)
    ensures Kept(b, SetStatus(a, i, t))
  {
  }

  lemma MoveKept(b: Book, a: Book, id: Name, db: int, ref: Name, kind: EntryKind)
    requires Kept(b, a)
    ensures Kept(b, Move(a, id, db, 0, ref, kind)) && Move(a, id, db, 0, ref, kind).objs == a.objs
  {
  }

  lemma ReleaseKept(b: Book, cred: Name, p: nat)
    ensures Kept(b, Release(b, cred, p)) && Release(b, cred, p).objs == b.objs
  {
  }

  lemma ActKept(b: Book, act: Act)
    ensures Kept(b, RunAct(b, act).0)
  {
    hide SetStatus, Release, Move, RunFinal, Kept;
    KeptAlready(b);
    if act.obj < |b.objs| {
      var i, t := act.obj, b.objs[act.obj];
      match act
      case Review(_) => StatusKept(b, b, i, t.(status := InReview));
      case Half(_) => StatusKept(b, b, i, t.(status := HalfStatus(t)));
      case Final(_, half) => FinalKept(b, i, half);
      case Refund(_) =>
        var r := Release(b, t.key.cred, Pays(t));
        ReleaseKept(b, t.key.cred, Pays(t));
        MoveKept(b, r, t.key.cred, Pays(t), t.key.reference, RefundKind(t.key.kind));
        StatusKept(b, Credit(r, t.key.cred, Pays(t), t.key.reference, RefundKind(t.key.kind)), i,
                   t.(status := Refunded, completed := true));
    }
  }

  lemma KeptAlready(b: Book)
    ensures Kept(b, b)
  {
  }

  lemma FinalKept(b: Book, i: nat, half: nat)
    requires i < |b.objs|
    ensures Kept(b, RunFinal(b, i, half).0)
  {
    hide SetStatus, Release, Move, Kept;
    var t := b.objs[i];
    var done := t.(status := Delivered, completed := true);
    KeptAlready(b);
    ReleaseKept(b, t.key.cred, Pays(t));
    StatusKept(b, Release(b, t.key.cred, Pays(t)), i, done);
    StatusKept(b, b, i, done);
    StatusKept(b, b, i, t.(status := Failed, failure := Some(Declined)));
    StatusKept(b, b, i, t.(status := Failed, failure := Some(VendFailed)));
    if t.key.kind in {Collection, Transfer} {
      MoveKept(b, b, t.key.cred, Recipient(t), t.key.reference, CollectionCredit);
      StatusKept(b, Credit(b, t.key.cred, Recipient(t), t.key.reference, CollectionCredit), i,
                 t.(status := Settled, settlement := Eligible, completed := true));
      var reason := if t.outcome == FailsOnPin then WrongPin else Declined;
      StatusKept(b, b, i, t.(status := Failed, failure := Some(reason), completed := true));
    }
  }
}
