/** When a request goes through, exactly, and what the ones that do not leave behind: a refusal moves no
    money, and a repeated reference is answered with its payment as it stands. */
module Acceptance {
  import opened Money
  import opened Domain
  import opened Operations
  import opened Accounting
  import opened Shapes
  import opened Protocol
  import opened Segments

  /** Everything a client or an auditor can see is as before; at most a new wallet stands at its opening
      balance, and the serial counter moved on. */
  predicate Free(b: Book, c: Book)
  {
    && c.ledger == b.ledger && c.objs == b.objs && c.txs == b.txs && c.order == b.order && c.events == b.events
    && c.effects == b.effects && c.batches == b.batches && c.runs == b.runs && c.policy == b.policy
    && c.dailyIn == b.dailyIn && c.dailyOut == b.dailyOut && c.config == b.config
    && forall w :: w in c.wallets ==>
         if w in b.wallets then c.wallets[w] == b.wallets[w]
         else c.wallets[w].balance == c.wallets[w].opening && c.wallets[w].reserved == 0
  }

  predicate WithinLimits(b: Book, cred: Name, amount: nat, inward: bool)
  {
    && (b.config.perTransaction.Some? ==> amount <= b.config.perTransaction.value)
    && (b.config.daily.Some? ==> Volume(if inward then b.dailyIn else b.dailyOut, cred) + amount <= b.config.daily.value)
  }

  lemma LimitsExactly(b: Book, cred: Name, amount: nat, inward: bool)
    ensures CheckLimits(b, cred, amount, inward).None? <==> WithinLimits(b, cred, amount, inward)
  {
  }

  /** The reference is in use for exactly this body. */
  predicate Repeats(b: Book, key: TxKey, body: Body)
  {
    key in b.txs && b.txs[key] < |b.objs| && b.objs[b.txs[key]].hash == body
  }

  /** Answered with the payment as it stands, and nothing else. */
  predicate Replays(b: Book, key: TxKey, status: nat, r: Result)
  {
    && key in b.txs && b.txs[key] < |b.objs|
    && r == Result(b, [], Done(TxReply(status, b.objs[b.txs[key]])))
  }

  lemma FreeAlready(b: Book)
    ensures Free(b, b)
  {
  }

  /** The request made one payment, of this key, exactly if it was accepted. */
  predicate Begets(b: Book, c: Book, accepted: bool, key: TxKey)
  {
    && |c.objs| == |b.objs| + (if accepted then 1 else 0)
    && (accepted ==> c.objs[|b.objs|].key == key)
  }

  lemma HoldFree(b: Book, t: Tx)
    requires t.key.kind != Collection
    ensures var r := Hold(b, t);
            && (r.out.Await? <==> CanDebit(b, t.key.cred, Pays(t)))
            && (!r.out.Await? ==> r.out == Fail(InsufficientFunds) && Free(b, r.book) && r.later == [])
            && Begets(b, r.book, r.out.Await?, t.key)
  {
    CanDebitSame(b, t.key.cred, Pays(t));
    if CanDebit(Draw(b), t.key.cred, Pays(t)) {
      DebitPlain(Draw(b), t.key.cred, Pays(t), t.key.reference, EntryOut(t.key.kind), t.key.kind != Transfer);
    }
    hide Debit;
  }

  lemma CanDebitSame(b: Book, cred: Name, amount: int)
    ensures CanDebit(Draw(b), cred, amount) <==> CanDebit(b, cred, amount)
  {
  }

  /* What a caller can check before the call */

  /** The provider is known, the amount is one, the reference is new, the limits allow it and the wallet
      covers amount and fee. */
  predicate AcceptsPayout(b: Book, cred: Name, r: PayoutRequest)
  {
    var amount := ParseAmount(r.amount);
    && KnownProvider(r.provider) && amount.Some? && TxKey(Payout, cred, r.reference) !in b.txs
    && WithinLimits(b, cred, amount.value, false)
    && CanDebit(b, cred, PayerAmount(amount.value, Fee(amount.value, b.config.feeRate), b.config.feeBearer))
  }

  predicate TransferFits(cred: Name, r: Body)
    requires r.TransferBody?
  {
    r.currency == "GHS" && ParseAmount(r.amount).Some? && r.handle != cred && KnownHandle(r.handle.text)
  }

  /** A transfer bears no fee, and its recipient is a known handle other than the sender. */
  predicate AcceptsTransfer(b: Book, cred: Name, r: Body)
    requires r.TransferBody?
  {
    && TransferFits(cred, r) && TxKey(Transfer, cred, r.reference) !in b.txs
    && WithinLimits(b, cred, ParseAmount(r.amount).value, false)
    && CanDebit(b, cred, ParseAmount(r.amount).value)
  }

  /** A purchase needs a well-formed order for a known product in its range; one the payer funds needs no
      balance. */
  predicate AcceptsUtility(b: Book, cred: Name, r: Body)
    requires r.UtilityBody?
  {
    && UtilityFault(r).None? && TxKey(Utility, cred, r.reference) !in b.txs
    && var amount := ParseAmount(r.amount).value;
       && WithinLimits(b, cred, amount, false)
       && (r.funding == FromWallet ==> CanDebit(b, cred, amount + Fee(amount, b.config.feeRate)))
  }

  /** A collection needs no balance. */
  predicate AcceptsCollection(b: Book, cred: Name, r: Body)
    requires r.CollectionBody?
  {
    var amount := ParseAmount(r.amount);
    && KnownProvider(r.provider) && amount.Some? && TxKey(Collection, cred, r.reference) !in b.txs
    && WithinLimits(b, cred, amount.value, true)
  }

  /* What the operations make of it */

  /** A payout waits for its debit exactly if it is accepted; it is answered at once exactly if it repeats its
      reference with its body, and then nothing changes; otherwise it is refused and moves no money. */
  lemma PayoutExactly(b: Book, cred: Name, r: PayoutRequest)
    requires Indexed(b)
    ensures var did, key := StartPayout(b, cred, r), TxKey(Payout, cred, r.reference);
            && (did.out.Await? <==> AcceptsPayout(b, cred, r))
            && Begets(b, did.book, AcceptsPayout(b, cred, r), key)
            && (did.out.Done? <==>
                  KnownProvider(r.provider) && ParseAmount(r.amount).Some? && Repeats(b, key, PayoutBody(r)))
            && (did.out.Done? ==> Replays(b, key, 202, did))
            && (did.out.Fail? ==> Free(b, did.book) && did.later == [])
  {
    hide IndexedBut, ParseAmount, Fee, Hold, CheckLimits, WithinLimits, CanDebit, KnownProvider, Free;
    var amount, key := ParseAmount(r.amount), TxKey(Payout, cred, r.reference);
    AbsentMeans(b, key, PayoutBody(r));
    FreeAlready(b);
    if amount.Some? {
      LimitsExactly(b, cred, amount.value, false);
      HoldFree(b, NewTx(b, key, amount.value, Fee(amount.value, b.config.feeRate), PayoutBody(r), r.party, FromWallet));
    }
  }

  /** A transfer, likewise. */
  lemma TransferExactly(b: Book, cred: Name, r: Body)
    requires Indexed(b) && r.TransferBody?
    ensures var did, key := StartTransfer(b, cred, r), TxKey(Transfer, cred, r.reference);
            && (did.out.Await? <==> AcceptsTransfer(b, cred, r))
            && Begets(b, did.book, AcceptsTransfer(b, cred, r), key)
            && (did.out.Done? <==> TransferFits(cred, r) && Repeats(b, key, r))
            && (did.out.Done? ==> Replays(b, key, 200, did))
            && (did.out.Fail? ==> Free(b, did.book) && did.later == [])
  {
    hide IndexedBut, ParseAmount, Hold, CheckLimits, WithinLimits, CanDebit, KnownHandle, Free;
    var amount, key := ParseAmount(r.amount), TxKey(Transfer, cred, r.reference);
    AbsentMeans(b, key, r);
    FreeAlready(b);
    if amount.Some? {
      LimitsExactly(b, cred, amount.value, false);
      HoldFree(b, NewTx(b, key, amount.value, 0, r, r.handle, FromWallet));
    }
  }

  /** A purchase: an accepted one waits for its debit, or is registered at once when the payer funds it. */
  lemma UtilityExactly(b: Book, cred: Name, r: Body)
    requires Indexed(b) && r.UtilityBody?
    ensures var did, key := StartUtility(b, cred, r), TxKey(Utility, cred, r.reference);
            var accepted, repeated := AcceptsUtility(b, cred, r), UtilityFault(r).None? && Repeats(b, key, r);
            && (did.out.Await? <==> accepted && r.funding == FromWallet)
            && (did.out.Done? <==> repeated || (accepted && r.funding == FromPayer))
            && Begets(b, did.book, accepted, key)
            && (repeated ==> Replays(b, key, 202, did))
            && (did.out.Fail? ==> Free(b, did.book) && did.later == [])
  {
    hide IndexedBut, ParseAmount, FindProduct, Fee, Hold, Resume, CheckLimits, WithinLimits, CanDebit, Free;
    var key := TxKey(Utility, cred, r.reference);
    AbsentMeans(b, key, r);
    FreeAlready(b);
    if UtilityFault(r).None? {
      var amount := ParseAmount(r.amount).value;
      var t := NewTx(b, key, amount, Fee(amount, b.config.feeRate), r, Name(""), r.funding);
      LimitsExactly(b, cred, amount, false);
      HoldFree(b, t);
      UnfundedEffect(Draw(b), t);
    }
  }

  /** A collection: made and registered at once if accepted, repeated or refused otherwise. */
  lemma CollectionExactly(b: Book, cred: Name, r: Body)
    requires Indexed(b) && r.CollectionBody?
    ensures var did, key := CreateCollection(b, cred, r), TxKey(Collection, cred, r.reference);
            var repeated := KnownProvider(r.provider) && ParseAmount(r.amount).Some? && Repeats(b, key, r);
            && Begets(b, did.book, AcceptsCollection(b, cred, r), key)
            && (repeated ==> Replays(b, key, 202, did))
            && (did.out.Fail? <==> !AcceptsCollection(b, cred, r) && !repeated)
            && (did.out.Fail? ==> did.book == b && did.later == [])
  {
    hide IndexedBut, ParseAmount, Fee, Record, EmitTx, CheckLimits, WithinLimits, KnownProvider;
    var amount, key := ParseAmount(r.amount), TxKey(Collection, cred, r.reference);
    AbsentMeans(b, key, r);
    if amount.Some? {
      LimitsExactly(b, cred, amount.value, true);
      var t := NewTx(b, key, amount.value, Fee(amount.value, b.config.feeRate), r, r.party, FromPayer);
      RecordedEffect(AddObj(Draw(b), t), |b.objs|, false, cred, CollectionAccepted);
    }
  }

  /** Whatever the endpoint and the body: a refused request moves no money and leaves no trace but a serial
      number and perhaps a new wallet at its opening balance. */
  lemma RefusalsAreFree(b: Book, cred: Name, endpoint: Endpoint, body: Body)
    requires Indexed(b)
    ensures var did := Start(b, cred, endpoint, body);
            did.out.Fail? ==> Free(b, did.book) && did.later == []
  {
    hide IndexedBut, CreateCollection, StartPayout, StartUtility, StartTransfer, SettleNow, Free, Begets;
    FreeAlready(b);
    match body {
      case CollectionBody(_, _, _, _) => CollectionExactly(b, cred, body);
      case PayoutBody(r) => PayoutExactly(b, cred, r);
      case UtilityBody(_, _, _, _, _, _, _) => UtilityExactly(b, cred, body);
      case TransferBody(_, _, _, _) => TransferExactly(b, cred, body);
      case SettleBody(reference) => SettleRefused(b, cred, reference);
      case _ =>
    }
  }

  lemma SettleRefused(b: Book, cred: Name, reference: Name)
    ensures SettleNow(b, cred, reference).out.Fail? ==> SettleNow(b, cred, reference).book == b
    ensures SettleNow(b, cred, reference).later == []
  {
  }

  /* Documented test numbers */

  lemma {:induction false} DigitsStay(s: string)
    requires AllDigits(s)
    ensures OnlyDigits(s) == s
  {
    if s != "" {
      DigitsStay(s[1..]);
      assert s == [s[0]] + s[1..];
    }
  }

  lemma {:induction false} OnlyDigitsAre(s: string)
    ensures AllDigits(OnlyDigits(s))
  {
    if s != "" { OnlyDigitsAre(s[1..]); }
  }

  /** The short form of nine zeros and three digits stands for an international number. */
  predicate ShortFor(x: string, y: string)
  {
    |x| == 12 && x[..9] == "000000000" && y == "233" + x[3..]
  }

  /** A number has one outcome however it is punctuated, and a short form that of its international form. */
  lemma TestNumbersAreOne(c: Config, collection: bool, provider: string, x: string, y: string)
    requires OnlyDigits(x) == OnlyDigits(y) || ShortFor(OnlyDigits(x), OnlyDigits(y))
    ensures FixtureOutcome(c, collection, provider, x) == FixtureOutcome(c, collection, provider, y)
         == FixtureOutcome(c, collection, provider, OnlyDigits(x))
  {
    OnlyDigitsAre(x);
    DigitsStay(OnlyDigits(x));
    OnlyDigitsAre(y);
    DigitsStay(OnlyDigits(y));
    hide OnlyDigits;
    if ShortFor(OnlyDigits(x), OnlyDigits(y)) { assert OnlyDigits(y)[0] == '2'; }
  }
}
