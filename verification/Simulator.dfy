/** The simulator itself: an object whose methods update wallets, payments, ledger, events, timers and the
    idempotency map in place. Every method is proved to do to the whole state what the functions of
    Operations and Protocol say, so what is proved of those functions holds of the object. */
module Simulator {
  import opened Money
  import opened Domain
  import Ops = Operations
  import opened Protocol
  import opened Sums
  import Accounting
  import Reconciliation
  import Duplicates

  /** The state after an operation ran to its end or its suspension: its books and its timers. */
  ghost function Did(s: State, r: Ops.Result): State
  {
    s.(book := r.book, timers := s.timers + Schedule(s.now, s.epoch, r.later))
  }

  lemma DidNothing(s: State, book: Ops.Book, out: Ops.Out)
    ensures Did(s, Ops.Result(book, [], out)) == s.(book := book)
  {
    assert s.timers + Schedule(s.now, s.epoch, []) == s.timers;
  }

  lemma DidOne(s: State, t: State, book: Ops.Book, x: Later, out: Ops.Out)
    requires t == s.(book := book, timers := s.timers + Schedule(s.now, s.epoch, [x]))
    ensures t == Did(s, Ops.Result(book, [x], out))
  {
  }

  lemma DidTwo(s: State, t: State, book: Ops.Book, x: Later, y: Later, out: Ops.Out)
    requires t == s.(book := book, timers := s.timers + Schedule(s.now, s.epoch, [x]) + Schedule(s.now, s.epoch, [y]))
    ensures t == Did(s, Ops.Result(book, [x, y], out))
  {
    assert [x, y] == [x] + [y];
    assert Schedule(s.now, s.epoch, [x, y]) == Schedule(s.now, s.epoch, [x]) + Schedule(s.now, s.epoch, [y]);
  }

  lemma NothingFires(s: State, j: nat, at: nat)
    ensures IsNext(s.timers, j) ==> j < |s.timers|
    ensures !(IsNext(s.timers, j) && at >= s.now && at >= s.timers[j].due) ==> ApplyFire(s, j, at) == s
  {
    hide Ops.RunAct;
  }

  class Simulator {
    var config: Config
    var epoch: nat
    var now: nat
    var serial: nat
    var wallets: map<Name, Wallet>
    var walletOrder: seq<Name>
    var objs: seq<Tx>
    var txs: map<TxKey, nat>
    var order: seq<TxKey>
    var ledger: seq<Entry>
    var events: seq<Event>
    var effects: map<TxKey, nat>
    var batches: map<(Name, Name), Ops.Batch>
    var runs: seq<SettlementRun>
    var policy: Option<nat>
    var dailyIn: map<Name, nat>
    var dailyOut: map<Name, nat>
    var idem: map<Name, Idem>
    var timers: seq<Timer>
    var calls: seq<Call>

    /** The books this object holds. */
    function Books(): Ops.Book
      reads this
    {
      Ops.Book(config, serial, wallets, walletOrder, objs, txs, order, ledger, events, effects, batches, runs, policy,
               dailyIn, dailyOut)
    }

    /** The whole state this object holds. */
    function Abs(): State
      reads this
    {
      State(Books(), epoch, now, timers, idem, calls)
    }

    constructor (config: Config, now: nat)
      ensures Abs() == Fresh(config, now)
    {
      this.config, this.now, epoch, serial := config, now, 0, 0;
      wallets, walletOrder, objs, txs, order, ledger := map[], [], [], map[], [], [];
      events, effects, batches, runs, policy := [], map[], map[], [], None;
      dailyIn, dailyOut, idem, timers, calls := map[], map[], map[], [], [];
    }

    /* Wallets and ledger */

    method EnsureWallet(id: Name)
      modifies this`wallets, this`walletOrder
      ensures Abs() == old(Abs()).(book := Ops.EnsureWallet(old(Books()), id)) && id in wallets
    {
      if id !in wallets {
        var opening := if config.openingBalance.Some? then config.openingBalance.value else 0;
        wallets := wallets[id := Wallet(opening, 0, opening)];
        walletOrder := walletOrder + [id];
      }
    }

    method Post(wallet: Name, delta: int, ref: Name, kind: EntryKind)
      modifies this`serial, this`ledger
      ensures Abs() == old(Abs()).(book := Ops.Post(old(Books()), wallet, delta, ref, kind))
    {
      serial := serial + 1;
      ledger := ledger + [Entry(serial, wallet, delta, ref, kind)];
    }

    method Adjust(id: Name, balance: int, reserved: int)
      requires id in wallets
      modifies this`wallets
      ensures Books() == Ops.Adjust(old(Books()), id, balance, reserved)
      ensures id in wallets && wallets[id].balance == old(wallets[id].balance) + balance
    {
      var w := wallets[id];
      wallets := wallets[id := Wallet(w.balance + balance, w.reserved + reserved, w.opening)];
    }

    /** Refused when the balance does not cover the amount; then only the wallet may be new. */
    method Debit(cred: Name, amount: nat, ref: Name, kind: EntryKind, reserve: bool) returns (ok: bool)
      modifies this`wallets, this`walletOrder, this`serial, this`ledger
      ensures ok <==> Ops.CanDebit(old(Books()), cred, amount)
      ensures Abs() == old(Abs()).(book :=
                if ok then Ops.Debit(old(Books()), cred, amount, ref, kind, reserve)
                else Ops.EnsureWallet(old(Books()), cred))
      ensures cred in wallets && (ok ==> wallets[cred].balance >= 0)
    {
      hide Ops.EnsureWallet, Ops.Adjust, Ops.Post;
      EnsureWallet(cred);
      if wallets[cred].balance < amount { return false; }
      Adjust(cred, 0 - amount, if reserve then amount else 0);
      Post(cred, 0 - amount, ref, kind);
      return true;
    }

    method Credit(cred: Name, amount: int, ref: Name, kind: EntryKind)
      modifies this
      ensures Abs() == old(Abs()).(book := Ops.Credit(old(Books()), cred, amount, ref, kind))
      ensures objs == old(objs)
    {
      EnsureWallet(cred);
      wallets := wallets[cred := wallets[cred].(balance := wallets[cred].balance + amount)];
      Post(cred, amount, ref, kind);
    }

    method Release(cred: Name, amount: nat)
      modifies this
      ensures Abs() == old(Abs()).(book := Ops.Release(old(Books()), cred, amount))
      ensures objs == old(objs)
    {
      EnsureWallet(cred);
      wallets := wallets[cred := wallets[cred].(reserved := wallets[cred].reserved - amount)];
    }

    method NoteVolume(cred: Name, amount: nat, inward: bool)
      modifies this
      ensures Abs() == old(Abs()).(book := Ops.NoteVolume(old(Books()), cred, amount, inward))
      ensures objs == old(objs)
    {
      if inward {
        dailyIn := dailyIn[cred := Ops.Volume(dailyIn, cred) + amount];
      } else {
        dailyOut := dailyOut[cred := Ops.Volume(dailyOut, cred) + amount];
      }
    }

    /* Payments, events and timers */

    method NewTx(key: TxKey, amount: nat, fee: nat, hash: Body, party: Name, funding: Funding)
      returns (t: Tx)
      modifies this
      ensures Abs() == old(Abs()).(book := Ops.Draw(old(Books())))
      ensures t == Ops.NewTx(old(Books()), key, amount, fee, hash, party, funding)
      ensures t.key == key && objs == old(objs)
    {
      serial := serial + 1;
      t := Tx(serial, key, amount, fee, config.feeBearer, if key.kind == Transfer then Status.Pending else Accepted, None,
              if key.kind == Collection then NotEligible else NoSettlement,
              false, hash, party, funding, Succeeds, false, false);
    }

    /** The object becomes reachable: from its timers, from the call that awaits its debit, or both. */
    method Keep(t: Tx) returns (i: nat)
      modifies this
      ensures Abs() == old(Abs()).(book := Ops.AddObj(old(Books()), t)) && i == |old(objs)| && objs == old(objs) + [t]
    {
      i := |objs|;
      objs := objs + [t];
    }

    /** The transactions map keeps its keys in the order of their first insertion. */
    method Index(key: TxKey, i: nat)
      modifies this`txs, this`order
      ensures Abs() == old(Abs()).(book := old(Books()).(
                txs := old(txs)[key := i], order := if key in old(txs) then old(order) else old(order) + [key]))
    {
      if key !in txs { order := order + [key]; }
      txs := txs[key := i];
    }

    method Register(i: nat, review: bool)
      requires i < |objs|
      modifies this`objs, this`txs, this`order, this`effects
      ensures Abs() == old(Abs()).(book := Ops.Register(old(Books()), i, review)) && |objs| == |old(objs)|
    {
      hide Ops.Count;
      var t := objs[i];
      objs := objs[i := Ops.Enrolled(config, t, review)];
      effects := effects[t.key := Ops.Count(effects, t.key) + 1];
      Index(t.key, i);
    }

    method Emit(cred: Name, etype: EventType, data: EventData)
      modifies this`events
      ensures Abs() == old(Abs()).(book := Ops.Emit(old(Books()), cred, etype, data))
    {
      events := events + [Event(|events|, cred, etype, data)];
    }

    method SetStatus(i: nat, t: Tx)
      requires i < |objs|
      modifies this
      ensures Abs() == old(Abs()).(book := Ops.SetStatus(old(Books()), i, t)) && |objs| == |old(objs)|
    {
      objs := objs[i := t];
      Emit(t.key.cred, Ops.ChangedType(t.key.kind), OfTx(i, t));
    }

    method Defer(delay: nat, act: Act)
      modifies this
      ensures Abs() == old(Abs()).(timers := old(timers) + Schedule(now, epoch, [Later(delay, act)]))
    {
      var due := now + Timeout(delay);
      timers := timers + [Timer(due, epoch, act)];
      assert Schedule(now, epoch, [Later(delay, act)]) == [Timer(due, epoch, act)];
    }

    /** Registers a payment, counts its amount and announces it. */
    method Record(i: nat, review: bool, etype: EventType)
      requires i < |objs|
      modifies this
      ensures Abs() == old(Abs()).(book := Ops.EmitTx(Ops.Record(old(Books()), i, review), i, old(objs)[i].key.cred, etype))
      ensures |objs| == |old(objs)|
    {
      hide Ops.Register, Ops.NoteVolume, Ops.Emit;
      var t := objs[i];
      Register(i, review);
      NoteVolume(t.key.cred, t.amount, t.key.kind == Collection);
      Emit(t.key.cred, etype, OfTx(i, objs[i]));
    }

    /** An operation that ends here without scheduling anything. */
    method Fails(code: Code) returns (out: Ops.Out)
      ensures out == Ops.Fail(code) && Abs() == Did(Abs(), Ops.Result(Books(), [], out))
    {
      out := Ops.Fail(code);
      DidNothing(Abs(), Books(), out);
    }

    method Answers(reply: Reply) returns (out: Ops.Out)
      ensures out == Ops.Done(reply) && Abs() == Did(Abs(), Ops.Result(Books(), [], out))
    {
      out := Ops.Done(reply);
      DidNothing(Abs(), Books(), out);
    }

    /* Operations, up to their end or their awaited debit */

    method CreateCollection(cred: Name, r: Body) returns (out: Ops.Out)
      requires r.CollectionBody?
      modifies this
      ensures var did := Ops.CreateCollection(old(Books()), cred, r);
              Abs() == Did(old(Abs()), did) && out == did.out
    {
      hide Ops.Record, Ops.EmitTx, Ops.AddObj, Ops.Draw, ParseAmount, Fee, Ops.FixtureOutcome, Ops.NewTx, Ops.CheckLimits,
        Schedule;
      var amount := ParseAmount(r.amount);
      var key := TxKey(Collection, cred, r.reference);
      if !Ops.KnownProvider(r.provider) || amount.None? { out := Fails(InvalidInput); return; }
      var dup := Ops.Existing(Books(), key, r);
      if dup.Conflict? { out := Fails(DuplicateReference); return; }
      if dup.Same? { out := Answers(TxReply(202, objs[dup.obj])); return; }
      var limit := Ops.CheckLimits(Books(), cred, amount.value, true);
      if limit.Some? { out := Fails(limit.value); return; }
      var half, full := config.resolveDelayMs / 2, config.resolveDelayMs;
      var t := NewTx(key, amount.value, Fee(amount.value, config.feeRate), r, r.party, FromPayer);
      var i := Keep(t);
      Record(i, false, CollectionAccepted);
      Defer(half, Half(i));
      Defer(full, Final(i, half));
      out := Ops.Done(TxReply(202, objs[i]));
      DidTwo(old(Abs()), Abs(), Books(), Later(half, Half(i)), Later(full, Final(i, half)), out);
    }

    /** The debit of a payment just drawn; on success its object is kept while the caller awaits it. */
    method Hold(ghost b: Ops.Book, t: Tx) returns (out: Ops.Out)
      requires Books() == Ops.Draw(b) && t.key.kind != Collection
      modifies this
      ensures var did := Ops.Hold(b, t);
              Abs() == Did(old(Abs()), did) && out == did.out
    {
      hide Ops.Debit, Ops.EnsureWallet, Schedule, Ops.CanDebit;
      var ok := Debit(t.key.cred, Ops.Pays(t), t.key.reference, Ops.EntryOut(t.key.kind), t.key.kind != Transfer);
      if !ok { out := Fails(InsufficientFunds); return; }
      var i := Keep(t);
      out := Ops.Await(i);
      DidNothing(old(Abs()), Books(), out);
    }

    method StartPayout(cred: Name, r: PayoutRequest) returns (out: Ops.Out)
      modifies this
      ensures var did := Ops.StartPayout(old(Books()), cred, r);
              Abs() == Did(old(Abs()), did) && out == did.out
    {
      hide Ops.Hold, Ops.Draw, ParseAmount, Fee, Ops.FixtureOutcome, Ops.CheckLimits, Schedule;
      var amount := ParseAmount(r.amount);
      var key := TxKey(Payout, cred, r.reference);
      if !Ops.KnownProvider(r.provider) || amount.None? { out := Fails(InvalidInput); return; }
      var dup := Ops.Existing(Books(), key, PayoutBody(r));
      if dup.Conflict? { out := Fails(DuplicateReference); return; }
      if dup.Same? { out := Answers(TxReply(202, objs[dup.obj])); return; }
      var limit := Ops.CheckLimits(Books(), cred, amount.value, false);
      if limit.Some? { out := Fails(limit.value); return; }
      ghost var b := Books();
      var t := NewTx(key, amount.value, Fee(amount.value, config.feeRate), PayoutBody(r), r.party, FromWallet);
      out := Hold(b, t);
    }

    method StartUtility(cred: Name, r: Body) returns (out: Ops.Out)
      requires r.UtilityBody?
      modifies this
      ensures var did := Ops.StartUtility(old(Books()), cred, r);
              Abs() == Did(old(Abs()), did) && out == did.out
    {
      hide Ops.Hold, Ops.Draw, Ops.AddObj, Ops.Resume, ParseAmount, Fee, Ops.FindProduct, Ops.CheckLimits, Schedule;
      var fault := Ops.UtilityFault(r);
      if fault.Some? { out := Fails(fault.value); return; }
      var key, amount := TxKey(Utility, cred, r.reference), ParseAmount(r.amount).value;
      var dup := Ops.Existing(Books(), key, r);
      if dup.Conflict? { out := Fails(DuplicateReference); return; }
      if dup.Same? { out := Answers(TxReply(202, objs[dup.obj])); return; }
      var limit := Ops.CheckLimits(Books(), cred, amount, false);
      if limit.Some? { out := Fails(limit.value); return; }
      ghost var b := Books();
      var t := NewTx(key, amount, Fee(amount, config.feeRate), r, Name(""), r.funding);
      if r.funding == FromWallet {
        out := Hold(b, t);
      } else {
        var i := Keep(t);
        out := Resume(i);
      }
    }

    method StartTransfer(cred: Name, r: Body) returns (out: Ops.Out)
      requires r.TransferBody?
      modifies this
      ensures var did := Ops.StartTransfer(old(Books()), cred, r);
              Abs() == Did(old(Abs()), did) && out == did.out
    {
      hide Ops.Hold, Ops.Draw, ParseAmount, Ops.CheckLimits, Schedule;
      var amount := ParseAmount(r.amount);
      var key := TxKey(Transfer, cred, r.reference);
      if r.currency != "GHS" { out := Fails(CurrencyNotSupported); return; }
      if amount.None? { out := Fails(InvalidInput); return; }
      if r.handle == cred { out := Fails(OwnHandle); return; }
      if !Ops.KnownHandle(r.handle.text) { out := Fails(NotFound); return; }
      var dup := Ops.Existing(Books(), key, r);
      if dup.Conflict? { out := Fails(DuplicateReference); return; }
      if dup.Same? { out := Answers(TxReply(200, objs[dup.obj])); return; }
      var limit := Ops.CheckLimits(Books(), cred, amount.value, false);
      if limit.Some? { out := Fails(limit.value); return; }
      ghost var b := Books();
      var t := NewTx(key, amount.value, 0, r, r.handle, FromWallet);
      out := Hold(b, t);
    }

    /* Operations, after their awaited debit */

    method Resume(i: nat) returns (out: Ops.Out)
      requires i < |objs|
      modifies this
      ensures var did := Ops.Resume(old(Books()), i);
              Abs() == Did(old(Abs()), did) && out == did.out
    {
      hide Ops.ResumeHeld, Ops.ResumeTransfer, Ops.EnsureWallet, Schedule;
      match objs[i].key.kind {
        case Transfer => out := ResumeTransfer(i);
        case Utility =>
          EnsureWallet(objs[i].key.cred);
          out := ResumeHeld(i, false);
        case _ => out := ResumeHeld(i, Ops.UnderReview(config, objs[i].amount));
      }
    }

    method ResumeHeld(i: nat, review: bool) returns (out: Ops.Out)
      requires i < |objs|
      modifies this
      ensures var did := Ops.ResumeHeld(old(Books()), i, review);
              Abs() == Did(old(Abs()), did) && out == did.out
    {
      hide Ops.Record, Ops.EmitTx, Schedule;
      var full := config.resolveDelayMs;
      Record(i, review, Ops.AcceptedType(objs[i].key.kind));
      out := Ops.Done(TxReply(202, objs[i]));
      if review {
        Defer(full, Review(i));
        DidOne(old(Abs()), Abs(), Books(), Later(full, Review(i)), out);
      } else {
        Defer(full / 2, Half(i));
        Defer(full, Final(i, full / 2));
        DidTwo(old(Abs()), Abs(), Books(), Later(full / 2, Half(i)), Later(full, Final(i, full / 2)), out);
      }
    }

    method ResumeTransfer(i: nat) returns (out: Ops.Out)
      requires i < |objs|
      modifies this
      ensures var did := Ops.ResumeTransfer(old(Books()), i);
              Abs() == Did(old(Abs()), did) && out == did.out
    {
      hide Ops.Credit, Ops.Register, Ops.NoteVolume, Ops.Emit, Schedule;
      var t := objs[i];
      Credit(t.party, t.amount, t.key.reference, TransferIn);
      Register(i, false);
      NoteVolume(t.key.cred, t.amount, t.key.kind == Collection);
      objs := objs[i := objs[i].(status := Status.Completed, completed := true)];
      Emit(t.key.cred, TransferChanged, OfTx(i, objs[i]));
      Emit(t.party, TransferReceived, OfTx(i, objs[i]));
      out := Ops.Done(TxReply(200, objs[i]));
      DidNothing(old(Abs()), Books(), out);
    }

    /* Timers */

    /** The step of a timer; the payment is updated in place and a failed one may schedule its refund. */
    method Step(act: Act)
      modifies this
      ensures var (b, later) := Ops.RunAct(old(Books()), act);
              Abs() == Did(old(Abs()), Ops.Result(b, later, Ops.Fail(Internal)))
    {
      hide Ops.SetStatus, Ops.RunFinal, Ops.Credit, Ops.Release, Schedule;
      if act.obj >= |objs| { var _ := Fails(Internal); return; }
      var i, t := act.obj, objs[act.obj];
      match act {
        case Review(_) => SetStatus(i, t.(status := InReview));
        case Half(_) => SetStatus(i, t.(status := Ops.HalfStatus(t)));
        case Final(_, half) => Finalise(i, half); return;
        case Refund(_) =>
          Release(t.key.cred, Ops.Pays(t));
          Credit(t.key.cred, Ops.Pays(t), t.key.reference, Ops.RefundKind(t.key.kind));
          SetStatus(i, t.(status := Refunded, completed := true));
      }
      DidNothing(old(Abs()), Books(), Ops.Fail(Internal));
    }

    method Finalise(i: nat, half: nat)
      requires i < |objs|
      modifies this
      ensures var (b, later) := Ops.RunFinal(old(Books()), i, half);
              Abs() == Did(old(Abs()), Ops.Result(b, later, Ops.Fail(Internal)))
    {
      hide Ops.SetStatus, Ops.Credit, Ops.Release, Schedule;
      var t := objs[i];
      var refund := Later(if half > 1 then half else 1, Refund(i));
      match t.key.kind {
        case Payout =>
          if t.outcome == Succeeds {
            Release(t.key.cred, Ops.Pays(t));
            SetStatus(i, t.(status := Delivered, completed := true));
          } else {
            FailHeld(i, Declined, refund);
            return;
          }
        case Utility =>
          if config.othersSucceed {
            if t.funding == FromWallet { Release(t.key.cred, Ops.Pays(t)); }
            SetStatus(i, t.(status := Delivered, completed := true));
          } else if t.funding == FromWallet {
            FailHeld(i, VendFailed, refund);
            return;
          } else {
            SetStatus(i, t.(status := Failed, failure := Some(VendFailed)));
          }
        case _ =>
          if t.outcome == Succeeds {
            Credit(t.key.cred, Ops.Recipient(t), t.key.reference, CollectionCredit);
            SetStatus(i, t.(status := Settled, settlement := Eligible, completed := true));
          } else {
            var reason := if t.outcome == FailsOnPin then WrongPin else Declined;
            SetStatus(i, t.(status := Failed, failure := Some(reason), completed := true));
          }
      }
      DidNothing(old(Abs()), Books(), Ops.Fail(Internal));
    }

    /** A held payment fails and its refund is scheduled. */
    method FailHeld(i: nat, reason: Failure, refund: Later)
      requires i < |objs|
      modifies this
      ensures Abs() == Did(old(Abs()), Ops.Result(
                Ops.SetStatus(old(Books()), i, old(objs)[i].(status := Failed, failure := Some(reason))), [refund], Ops.Fail(Internal)))
    {
      hide Ops.SetStatus, Schedule;
      SetStatus(i, objs[i].(status := Failed, failure := Some(reason)));
      Defer(refund.delay, refund.act);
      DidOne(old(Abs()), Abs(), Books(), refund, Ops.Fail(Internal));
    }

    /* Settlements and controls */

    method Conclude(run: SettlementRun)
      modifies this`runs, this`events
      ensures var b := old(Books()).(runs := old(runs) + [run]);
              Abs() == old(Abs()).(book := Ops.Emit(b, run.cred, SettlementChanged, OfRun(run)))
    {
      runs := runs + [run];
      Emit(run.cred, SettlementChanged, OfRun(run));
    }

    /** Pays a credential everything that is due to it, and records the run. */
    method SettleNow(cred: Name, reference: Name) returns (out: Ops.Out)
      modifies this
      ensures var did := Ops.SettleNow(old(Books()), cred, reference);
              Abs() == Did(old(Abs()), did) && out == did.out
    {
      hide Ops.DueTotal, Ops.DueCount, Ops.PayOutAll, Ops.FindRun, Ops.RunId, Ops.Move, Ops.Emit, Schedule;
      if policy.None? { out := Fails(NotFound); return; }
      var dup := Ops.FindRun(runs, cred, reference);
      if dup.Some? { out := Answers(RunReply(dup.value)); return; }
      var count, net := Due(cred);
      serial := serial + 1;
      var run := SettlementRun(serial, reference, cred, count, net);
      if net > 0 {
        PayOutDue(cred);
        Spend(cred, net, Ops.RunId(run.id));
      }
      Conclude(run);
      out := Ops.Done(RunReply(run));
      DidNothing(old(Abs()), Books(), out);
    }

    /** How many payments are due to a credential, and what they come to. */
    method Due(cred: Name) returns (count: nat, net: int)
      ensures count == Ops.DueCount(objs, cred) && net == Ops.DueTotal(objs, cred)
    {
      count, net := 0, 0;
      for i := 0 to |objs|
        invariant count == Ops.DueCount(objs[..i], cred) && net == Ops.DueTotal(objs[..i], cred)
      {
        assert objs[..i + 1][..i] == objs[..i];
        if Ops.IsDue(objs[i], cred) {
          count := count + 1;
          net := net + Ops.Recipient(objs[i]);
        }
      }
      assert objs[..|objs|] == objs;
    }

    method PayOutDue(cred: Name)
      modifies this
      ensures Abs() == old(Abs()).(book := old(Books()).(objs := Ops.PayOutAll(old(objs), cred)))
    {
      for i := 0 to |objs|
        invariant |objs| == |old(objs)|
        invariant forall j :: 0 <= j < i ==> objs[j] == Ops.PayOut(old(objs)[j], cred)
        invariant forall j :: i <= j < |objs| ==> objs[j] == old(objs)[j]
        invariant Abs() == old(Abs()).(book := old(Books()).(objs := objs))
      {
        if Ops.IsDue(objs[i], cred) { objs := objs[i := objs[i].(settlement := SettledOut)]; }
      }
      assert objs == Ops.PayOutAll(old(objs), cred);
    }

    /** Takes a settlement out of a wallet; nothing checks that the balance covers it. */
    method Spend(cred: Name, net: int, ref: Name)
      modifies this
      ensures Abs() == old(Abs()).(book := Ops.Move(old(Books()), cred, 0 - net, 0, ref, SettlementPaid))
    {
      EnsureWallet(cred);
      wallets := wallets[cred := wallets[cred].(balance := wallets[cred].balance - net)];
      Post(cred, 0 - net, ref, SettlementPaid);
    }

    method PutPolicy(r: Body) returns (out: Ops.Out)
      requires r.PolicyBody?
      modifies this
      ensures var did := Ops.PutPolicy(old(Books()), r);
              Abs() == Did(old(Abs()), did) && out == did.out
    {
      hide Schedule;
      if !r.toMomo { out := Fails(BankSettlementUnavailable); return; }
      var version := (if policy.Some? then policy.value else 0) + 1;
      policy := Some(version);
      out := Answers(PolicyReply(version));
    }

    method SetBalance(cred: Name, amount: string)
      modifies this
      ensures Abs() == old(Abs()).(book := Ops.SetBalance(old(Books()), cred, amount))
    {
      hide ParseAmount;
      var target := ParseAmount(amount);
      if target.None? { return; }
      EnsureWallet(cred);
      var delta := target.value - wallets[cred].balance;
      wallets := wallets[cred := wallets[cred].(balance := target.value)];
      Post(cred, delta, Name("control"), EntryKind.Adjustment);
    }

    /* Calls */

    /** Runs the handler of an endpoint up to its first suspension. */
    method Begin(cred: Name, endpoint: Endpoint, body: Body) returns (phase: Phase)
      modifies this
      ensures var g := FirstSegment(old(Books()), cred, endpoint, body);
              Abs() == Absorb(old(Abs()), g) && phase == g.phase
    {
      hide Ops.CreateCollection, Ops.StartPayout, Ops.StartUtility, Ops.StartTransfer, Ops.SettleNow, Ops.PutPolicy,
        NextItem, Schedule, Ops.BatchPrecheck;
      var out: Ops.Out;
      if endpoint == PayoutBatches && body.BatchBody? {
        var early := Ops.BatchPrecheck(Books(), cred, body);
        if early.None? {
          phase := TakeItem(cred, body, [], body.items);
          return;
        }
        out := early.value;
        DidNothing(Abs(), Books(), out);
      } else if endpoint == Collections && body.CollectionBody? {
        out := CreateCollection(cred, body);
      } else if endpoint == Payouts && body.PayoutBody? {
        out := StartPayout(cred, body.payout);
      } else if endpoint == UtilityPurchases && body.UtilityBody? {
        out := StartUtility(cred, body);
      } else if endpoint == Transfers && body.TransferBody? {
        out := StartTransfer(cred, body);
      } else if endpoint == Settlements && body.SettleBody? {
        out := SettleNow(cred, body.reference);
      } else if endpoint == SettlementPolicy && body.PolicyBody? {
        out := PutPolicy(body);
      } else {
        out := Fails(InvalidInput);
      }
      phase := PhaseOf(out);
    }

    /** Takes up the next item of a batch, or closes the batch. */
    method TakeItem(cred: Name, body: Body, results: seq<ItemResult>, rest: seq<PayoutRequest>) returns (phase: Phase)
      requires body.BatchBody?
      modifies this
      ensures var g := NextItem(old(Books()), cred, body, results, rest);
              Abs() == Absorb(old(Abs()), g) && phase == g.phase
    {
      hide Ops.StartPayout, Schedule;
      if rest == [] {
        serial := serial + 1;
        var reply := BatchReply(serial, body.reference, results);
        batches := batches[(cred, body.reference) := Ops.Batch(body, reply)];
        phase := Returned(reply);
        DidNothing(old(Abs()), Books(), Ops.Fail(Internal));
      } else {
        var out := StartPayout(cred, rest[0]);
        phase := InBatch(results, ItemOf(Books(), rest[0].reference, out), rest[1..]);
      }
    }

    /** The idempotent run of a request: checks the key, and runs the handler under a new one. */
    method Idempotent(cred: Name, key: string, endpoint: Endpoint, body: Body, crash: bool, lost: bool)
      modifies this
      ensures Abs() == ApplyPost(old(Abs()), cred, key, endpoint, body, crash, lost)
    {
      hide FirstSegment, IdemKey, Schedule, Deliver, GoodKey;
      var k := IdemKey(cred, key);
      if !GoodKey(key) {
        calls := calls + [Call(cred, key, body, false, Answered(Rejected(InvalidInput)))];
        return;
      }
      if k in idem {
        var hit := idem[k];
        var answer :=
          if hit.hash != body then Rejected(IdempotencyKeyReused)
          else if hit.Running? then Rejected(RequestInFlight)
          else Deliver(hit.reply, lost);
        calls := calls + [Call(cred, key, body, false, Answered(answer))];
        return;
      }
      idem := idem[k := Running(body)];
      var phase := Broke;
      if !crash { phase := Begin(cred, endpoint, body); }
      calls := calls + [Call(cred, key, body, true, phase)];
    }

    /** Continues a suspended call up to its next suspension or its end. */
    method Advance(i: nat)
      modifies this
      ensures Abs() == ApplyAdvance(old(Abs()), i)
    {
      hide Ops.Resume, NextItem, Schedule;
      if i >= |calls| { return; }
      var c := calls[i];
      var phase := c.phase;
      DidNothing(Abs(), Books(), Ops.Fail(Internal));
      match c.phase {
        case Suspended(obj) =>
          if obj < |objs| {
            var out := Resume(obj);
            phase := PhaseOf(out);
          }
        case InBatch(results, Holding(obj), rest) =>
          if obj < |objs| {
            var reference := objs[obj].key.reference;
            var out := Resume(obj);
            phase := InBatch(results, ItemOf(Books(), reference, out), rest);
          }
        case InBatch(results, Have(x), rest) =>
          if c.body.BatchBody? { phase := TakeItem(c.cred, c.body, results + [x], rest); }
        case _ =>
      }
      calls := calls[i := c.(phase := phase)];
    }

    /** The end of the idempotent run: the entry is committed or forgotten, and the client answered. */
    method Finish(i: nat, lost: bool)
      modifies this
      ensures Abs() == ApplyFinish(old(Abs()), i, lost)
    {
      hide IdemKey;
      if i >= |calls| { return; }
      var c := calls[i];
      var k := IdemKey(c.cred, c.key);
      match c.phase {
        case Returned(reply) =>
          idem := idem[k := Committed(c.body, reply)];
          calls := calls[i := c.(phase := Answered(Deliver(reply, lost)))];
        case Threw(code) =>
          idem := if HttpStatus(code) < 500 then idem[k := Committed(c.body, ErrorReply(code))] else idem - {k};
          calls := calls[i := c.(phase := Answered(Rejected(code)))];
        case Broke =>
          idem := idem - {k};
          calls := calls[i := c.(phase := Answered(Crashed))];
        case _ =>
      }
    }

    /** The timer queue fires its next timer; one of an earlier epoch does nothing. */
    method Fire(j: nat, at: nat)
      requires IsNext(timers, j) && at >= now && at >= timers[j].due
      modifies this
      ensures Abs() == ApplyFire(old(Abs()), j, at)
    {
      hide Ops.RunAct, Schedule;
      var t := timers[j];
      now := at;
      timers := timers[..j] + timers[j + 1..];
      if t.epoch == epoch { Step(t.act); }
    }

    /** Empties everything but the timers that are already on their way, which the new epoch disowns. */
    method Reset(config: Config)
      requires Idle(Abs())
      modifies this
      ensures Abs() == ApplyReset(old(Abs()), config)
    {
      Clear(config);
      hide Idle;
    }

    method Clear(config: Config)
      modifies this
      ensures Abs() == State(Ops.FreshBook(config), old(epoch) + 1, old(now), old(timers), map[], [])
    {
      ClearPayments();
      ClearSettlements();
      ClearRest(config);
    }

    method ClearPayments()
      modifies this`objs, this`txs, this`order, this`events, this`effects
      ensures objs == [] && txs == map[] && order == [] && events == [] && effects == map[]
    {
      objs, txs, order, events, effects := [], map[], [], [], map[];
    }

    method ClearSettlements()
      modifies this`batches, this`runs, this`policy, this`dailyIn, this`dailyOut
      ensures batches == map[] && runs == [] && policy == None && dailyIn == map[] && dailyOut == map[]
    {
      batches, runs, policy, dailyIn, dailyOut := map[], [], None, map[], map[];
    }

    method ClearRest(config: Config)
      modifies this`config, this`epoch, this`serial, this`wallets, this`walletOrder, this`ledger, this`idem, this`calls
      ensures this.config == config && epoch == old(epoch) + 1 && serial == 0 && wallets == map[] && walletOrder == []
      ensures ledger == [] && idem == map[] && calls == []
    {
      this.config := config;
      epoch := epoch + 1;
      serial := 0;
      wallets, walletOrder, ledger, idem, calls := map[], [], [], map[], [];
    }

    /** Any step of the state machine, taken by the object. */
    method Perform(step: Protocol.Step)
      modifies this
      ensures Abs() == Apply(old(Abs()), step)
    {
      hide ApplyPost, ApplyAdvance, ApplyFinish, ApplyFire, Ops.EnsureWallet, Ops.SetBalance, Idle, IsNext;
      match step {
        case PostCall(cred, key, endpoint, body, crash, lost) => Idempotent(cred, key, endpoint, body, crash, lost);
        case Advance(i) => Advance(i);
        case Finish(i, lost) => Finish(i, lost);
        case Fire(j, at) =>
          NothingFires(Abs(), j, at);
          if j < |timers| && IsNext(timers, j) && at >= now && at >= timers[j].due { Fire(j, at); }
        case Tick(at) => if at > now { now := at; }
        case Reset(c) => if Idle(Abs()) { Reset(c); }
        case _ => Control(step);
      }
    }

    /** What the control routes change besides a reset. */
    method Control(step: Protocol.Step)
      requires step.Touch? || step.Balance? || step.Patch? || step.DropPolicy?
      modifies this
      ensures Abs() == Apply(old(Abs()), step)
    {
      hide Ops.EnsureWallet, Ops.SetBalance, ApplyPost, ApplyAdvance, ApplyFinish, ApplyFire, ApplyReset;
      match step {
        case Touch(cred) => EnsureWallet(cred);
        case Balance(cred, amount) => SetBalance(cred, amount);
        case Patch(c) => config := c;
        case DropPolicy => policy := None;
      }
    }

    /* The reconciliation view */

    /** Every wallet beside its ledger, the payments by kind and status, the effects counted twice, the
        negative wallets and the total drift. */
    method Reconcile() returns (r: Reconciliation.Report)
      ensures |r.wallets| == |walletOrder|
      ensures forall i :: 0 <= i < |walletOrder| ==> r.wallets[i] == Reconciliation.RowOf(Books(), walletOrder[i])
      ensures forall at :: (at in r.byKind <==> Reconciliation.Tally(Books(), at) != 0)
                           && (at in r.byKind ==> r.byKind[at] == Reconciliation.Tally(Books(), at))
      ensures r.total == |txs|
      ensures r.duplicates == Duplicates.DuplicateEffects(Books())
      ensures r.negative == Reconciliation.Negative(walletOrder, wallets)
      ensures r.drift == Reconciliation.LedgerDrift(Books())
    {
      var rows := WalletRows();
      var byKind := CountByKind();
      var duplicates := CountDuplicates();
      var negative := NegativeWallets();
      var drift := TotalDrift(rows);
      r := Reconciliation.Report(rows, |txs|, byKind, duplicates, negative, drift);
    }

    method WalletRows() returns (rows: seq<Reconciliation.WalletRow>)
      ensures |rows| == |walletOrder|
      ensures forall i :: 0 <= i < |walletOrder| ==> rows[i] == Reconciliation.RowOf(Books(), walletOrder[i])
    {
      rows := [];
      for i := 0 to |walletOrder|
        invariant |rows| == i && forall j :: 0 <= j < i ==> rows[j] == Reconciliation.RowOf(Books(), walletOrder[j])
      {
        var id := walletOrder[i];
        var sum := LedgerSum(id);
        var w := Reconciliation.WalletOf(wallets, id);
        rows := rows + [Reconciliation.WalletRow(id, w.balance, w.reserved, w.opening + sum, w.balance - (w.opening + sum))];
      }
    }

    method LedgerSum(id: Name) returns (sum: int)
      ensures sum == SumBy(ledger, Accounting.DeltaOf(id))
    {
      sum := 0;
      for n := 0 to |ledger|
        invariant sum == SumBy(ledger[..n], Accounting.DeltaOf(id))
      {
        assert ledger[..n + 1] == ledger[..n] + [ledger[n]];
        SumAppend(ledger[..n], ledger[n], Accounting.DeltaOf(id));
        if ledger[n].wallet == id { sum := sum + ledger[n].delta; }
      }
      assert ledger[..|ledger|] == ledger;
    }

    method CountByKind() returns (m: map<(Kind, Status), int>)
      ensures forall at :: (at in m <==> Reconciliation.Tally(Books(), at) != 0)
                           && (at in m ==> m[at] == Reconciliation.Tally(Books(), at))
    {
      m := map[];
      for i := 0 to |order|
        invariant Reconciliation.CountedSoFar(Books(), order[..i], m)
      {
        assert order[..i + 1] == order[..i] + [order[i]];
        Reconciliation.CountNext(Books(), order[..i], order[i], m);
        var k := order[i];
        if k in txs && txs[k] < |objs| {
          var at := (objs[txs[k]].key.kind, objs[txs[k]].status);
          m := m[at := (if at in m then m[at] else 0) + 1];
        }
      }
      assert order[..|order|] == order;
      Reconciliation.CountedAll(Books(), m);
    }

    method CountDuplicates() returns (duplicates: int)
      ensures duplicates == Duplicates.DuplicateEffects(Books())
    {
      duplicates := 0;
      for i := 0 to |order|
        invariant duplicates == SumBy(order[..i], Duplicates.ExcessOf(effects))
      {
        SumAppend(order[..i], order[i], Duplicates.ExcessOf(effects));
        assert order[..i + 1] == order[..i] + [order[i]];
        var n := Ops.Count(effects, order[i]);
        if n > 1 { duplicates := duplicates + (n - 1); }
      }
      assert order[..|order|] == order;
    }

    method NegativeWallets() returns (ids: seq<Name>)
      ensures ids == Reconciliation.Negative(walletOrder, wallets)
    {
      ids := [];
      for i := 0 to |walletOrder|
        invariant ids == Reconciliation.Negative(walletOrder[..i], wallets)
      {
        assert walletOrder[..i + 1][..i] == walletOrder[..i];
        if Reconciliation.WalletOf(wallets, walletOrder[i]).balance < 0 { ids := ids + [walletOrder[i]]; }
      }
      assert walletOrder[..|walletOrder|] == walletOrder;
    }

    method TotalDrift(rows: seq<Reconciliation.WalletRow>) returns (drift: int)
      requires |rows| == |walletOrder|
      requires forall i :: 0 <= i < |walletOrder| ==> rows[i] == Reconciliation.RowOf(Books(), walletOrder[i])
      ensures drift == Reconciliation.LedgerDrift(Books())
    {
      drift := 0;
      for i := 0 to |rows|
        invariant drift == SumBy(walletOrder[..i], Reconciliation.DriftOf(Books()))
      {
        SumAppend(walletOrder[..i], walletOrder[i], Reconciliation.DriftOf(Books()));
        assert walletOrder[..i + 1] == walletOrder[..i] + [walletOrder[i]];
        drift := drift + Reconciliation.Abs(rows[i].drift);
      }
      assert walletOrder[..|walletOrder|] == walletOrder;
    }
  }

  /** A fresh simulator put through any steps at all, under any configurations: the drift it then reports is
      zero, and so are its duplicate effects when no step started a payment that was in its gap. */
  method Exercise(config: Config, now: nat, steps: seq<Protocol.Step>) returns (r: Reconciliation.Report)
    ensures r.drift == 0
    ensures forall i :: 0 <= i < |r.wallets| ==> r.wallets[i].drift == 0
    ensures Duplicates.NeverDoubles(config, now, steps) ==> r.duplicates == 0
  {
    hide Apply;
    var sim := new Simulator(config, now);
    for i := 0 to |steps|
      invariant sim.Abs() == Run(Fresh(config, now), steps[..i])
    {
      assert steps[..i + 1] == steps[..i] + [steps[i]];
      RunStep(Fresh(config, now), steps[..i], steps[i]);
      sim.Perform(steps[i]);
    }
    assert steps[..|steps|] == steps;
    r := sim.Reconcile();
    Reconciliation.NoDrift(config, now, steps, Name(""));
    Reconciliation.NoRowDrifts(config, now, steps);
    if Duplicates.NeverDoubles(config, now, steps) {
      Duplicates.NeverAppliedTwice(config, now, steps, TxKey(Collection, Name(""), Name("")));
    }
  }
}
