/** Runs of a fresh simulator in which a promise fails: about money, limits, completion or webhooks. */
module Failures {
  import opened Money
  import opened Domain
  import opened Operations
  import opened Accounting
  import opened BookInvariants
  import opened Shapes
  import opened Protocol
  import opened Segments
  import opened Groundwork
  import opened Reachability
  import opened Acceptance
  import opened Duplicates
  import opened Solvency
  import opened Settlements
  import opened DailyLimits
  import opened Reconciliation
  import opened SmallRuns
  import opened Bookkeeping
  import opened Lifecycle
  import opened Webhooks
  import opened Delays
  import opened Sums

  /* Collections that leave their recipient nothing */

  /** Empty wallets, and the fee on the recipient. */
  const Stingy := Config(None, 50, 0.0, NonInitiator, true, None, None, None)

  lemma SmallAmounts()
    ensures ParseAmount("0.05") == Some(5) && ParseAmount("0.10") == Some(10)
  {
    assert "0.05"[..1] == "0" && "0.05"[2..] == "05" && "0.10"[..1] == "0" && "0.10"[2..] == "10";
    assert "0"[..0] == "" && "05"[..1] == "0" && "10"[..1] == "1" && "1"[..0] == "";
  }

  lemma StingyTerms(cred: Name, text: string, amount: nat)
    requires amount <= 10
    ensures var t := PostedTx(Stingy, cred, text, amount);
            && t.registered && t.key == CollectionKey(cred) && Recipient(t) == amount - 10
  {
    assert Round(amount as real * 0.0) == 0;
  }

  /** One collection of five pesewas takes five pesewas from an empty wallet. */
  lemma SmallCollectionOverspends(cred: Name, now: nat)
    ensures var b := Run(Fresh(Stingy, now), CollectionRun(Stingy, now, cred, "0.05")).book;
            cred in b.wallets && b.wallets[cred].balance == 0 - 5 && !SolventAt(b, cred)
  {
    SmallAmounts();
    CollectionRuns(Stingy, now, cred, "0.05", 5);
    StingyTerms(cred, "0.05", 5);
    hide Run, CollectionRun, PostedTx, ParseAmount, Recipient;
  }

  /* Settlements */

  function PutMomo(cred: Name): Step { PostCall(cred, "b", SettlementPolicy, PolicyBody(true), false, false) }

  function Settle(cred: Name): Step { PostCall(cred, "c", Settlements, SettleBody(Name("settlement")), false, false) }

  lemma PolicyPosted(s: State, cred: Name)
    requires IdemKey(cred, "b") !in s.idem
    ensures var t := Apply(s, PutMomo(cred));
            && t.book == s.book.(policy := t.book.policy) && t.book.policy.Some?
            && t.idem == s.idem[IdemKey(cred, "b") := Running(PolicyBody(true))]
  {
    hide IdemKey, Schedule;
  }

  lemma SettlePosted(s: State, cred: Name)
    requires IdemKey(cred, "c") !in s.idem
    ensures Apply(s, Settle(cred)).book == SettleNow(s.book, cred, Name("settlement")).book
  {
    hide SettleNow, IdemKey;
  }

  lemma DueOne(objs: seq<Tx>, cred: Name)
    requires |objs| > 0 && IsDue(objs[0], cred) && forall i :: 1 <= i < |objs| ==> !IsDue(objs[i], cred)
    ensures DueCount(objs, cred) == 1 && DueTotal(objs, cred) == Recipient(objs[0])
  {
    if |objs| == 1 {
      assert objs[..0] == [];
    } else {
      DueOne(objs[..|objs| - 1], cred);
    }
  }

  /** One collection, due to its credential, and nothing else. */
  predicate OneDue(s: State, cred: Name, recipient: int)
  {
    && |s.book.objs| == 1 && IsDue(s.book.objs[0], cred) && Recipient(s.book.objs[0]) == recipient
    && s.book.objs[0].key == CollectionKey(cred) && s.book.runs == []
    && IdemKey(cred, "b") !in s.idem && IdemKey(cred, "c") !in s.idem && IdemKey(cred, "d") !in s.idem
  }

  lemma CollectedIsDue(c: Config, now: nat, cred: Name, text: string, amount: nat)
    requires Unlimited(c) && c.othersSucceed && DelaysOrdered(c.resolveDelayMs) && ParseAmount(text) == Some(amount)
    ensures var s := Run(Fresh(c, now), CollectionRun(c, now, cred, text));
            && OneDue(s, cred, Recipient(PostedTx(c, cred, text, amount))) && s.book.config == c
            && cred in s.book.wallets
            && s.book.wallets[cred] == FirstCredit(c, Recipient(PostedTx(c, cred, text, amount)))
  {
    hide *;
    CollectionRuns(c, now, cred, text, amount);
    OutcomeSucceeds(c, cred, text, amount);
    PostedRegistered(c, cred, text, amount);
    CollectedDue(Run(Fresh(c, now), CollectionRun(c, now, cred, text)), c, cred, PostedTx(c, cred, text, amount), CollectionOf(text));
  }

  lemma CollectedDue(s: State, c: Config, cred: Name, t: Tx, body: Body)
    requires CollectedBook(s.book, c, cred, t, false) && t.registered && t.key == CollectionKey(cred)
    requires s.idem == map[IdemKey(cred, "a") := Running(body)]
    ensures OneDue(s, cred, Recipient(t)) && s.book.config == c
    ensures cred in s.book.wallets && s.book.wallets[cred] == FirstCredit(c, Recipient(t))
  {
    FewKeys(cred);
    hide IdemKey, FirstCredit;
  }

  /** A collection of ten pesewas leaves its recipient nothing; settling it records a run that counts one item
      and pays none, so the runs no longer add up. */
  lemma UnpaidItemCounted(cred: Name, now: nat)
    ensures var steps := CollectionRun(Stingy, now, cred, "0.10") + [PutMomo(cred)] + [Settle(cred)];
            var b := Run(Fresh(Stingy, now), steps).book;
            && |b.runs| == 1 && b.runs[0].itemCount == 1 && b.runs[0].total == 0 && !RunsOk(b)
            && |b.objs| == 1 && b.objs[0].settlement == Eligible
  {
    SmallAmounts();
    StingyTerms(cred, "0.10", 10);
    CollectedIsDue(Stingy, now, cred, "0.10", 10);
    var run := CollectionRun(Stingy, now, cred, "0.10");
    ThenTwo(Fresh(Stingy, now), run, PutMomo(cred), Settle(cred));
    hide *;
    UnpaidFrom(Run(Fresh(Stingy, now), run), cred);
  }

  lemma UnpaidFrom(s: State, cred: Name)
    requires OneDue(s, cred, 0)
    ensures var b := Apply(Apply(s, PutMomo(cred)), Settle(cred)).book;
            && |b.runs| == 1 && b.runs[0].itemCount == 1 && b.runs[0].total == 0 && !RunsOk(b)
            && |b.objs| == 1 && b.objs[0].settlement == Eligible
  {
    PolicyPosted(s, cred);
    FewKeys(cred);
    hide Apply, Recipient, IdemKey, RunsOk, SettleNow;
    SettlePosted(Apply(s, PutMomo(cred)), cred);
    UnpaidSettled(Apply(s, PutMomo(cred)).book, cred);
  }

  lemma UnpaidSettled(b: Book, cred: Name)
    requires b.policy.Some? && b.runs == [] && |b.objs| == 1 && IsDue(b.objs[0], cred) && Recipient(b.objs[0]) == 0
    ensures var c := SettleNow(b, cred, Name("settlement")).book;
            && |c.runs| == 1 && c.runs[0].itemCount == 1 && c.runs[0].total == 0 && !RunsOk(c)
            && c.objs == b.objs
  {
    DueOne(b.objs, cred);
    SettleDoes(b, cred, Name("settlement"));
    assert FindRun([], cred, Name("settlement")).None?;
    hide SettleNow, DueCount, DueTotal, FindRun, Recipient;
    var c := SettleNow(b, cred, Name("settlement")).book;
    SumOne(c.runs, ItemsOf(cred));
    SumOne(c.objs, OutCountOf(cred));
    assert !RunsOkAt(c, cred);
  }

  /* A settlement of money that is gone */

  /** Empty wallets, and the fee on the payer. */
  const Empty := Config(None, 50, 0.0, Initiator, true, None, None, None)

  const Spending := TransferBody(Name("transfer"), Name("demo-merchant"), "1.00", "GHS")

  function Spend(cred: Name): Step { PostCall(cred, "d", Transfers, Spending, false, false) }

  lemma TransferPosted(s: State, cred: Name)
    requires IdemKey(cred, "d") !in s.idem && cred != Name("demo-merchant") && Unlimited(s.book.config)
    requires cred in s.book.wallets && s.book.wallets[cred].balance >= 100
    requires TxKey(Transfer, cred, Name("transfer")) !in s.book.txs
    ensures var t := Apply(s, Spend(cred));
            && t.book.runs == s.book.runs && t.book.policy == s.book.policy && t.book.config == s.book.config
            && |t.book.objs| == |s.book.objs| + 1 && t.book.objs[..|s.book.objs|] == s.book.objs
            && t.book.objs[|s.book.objs|].key.kind == Transfer
            && cred in t.book.wallets && t.book.wallets[cred].balance == s.book.wallets[cred].balance - 100
            && t.idem == s.idem[IdemKey(cred, "d") := Running(Spending)]
  {
    SmallChangeParses();
    hide ParseAmount, IdemKey, Schedule;
  }

  /** One GHS collected, spent by transfer, and then settled all the same: the wallet ends one GHS short. */
  lemma SettlementOverdraws(cred: Name, now: nat)
    requires cred != Name("demo-merchant")
    ensures var steps := CollectionRun(Empty, now, cred, "1.00") + [PutMomo(cred)] + [Spend(cred)] + [Settle(cred)];
            var b := Run(Fresh(Empty, now), steps).book;
            cred in b.wallets && b.wallets[cred].balance == 0 - 100
  {
    SmallChangeParses();
    PostedTerms(Empty, cred);
    CollectedIsDue(Empty, now, cred, "1.00", 100);
    var run := CollectionRun(Empty, now, cred, "1.00");
    var s := Run(Fresh(Empty, now), run);
    TransferNotYet(Empty, now, cred, run);
    ThenTwo(Fresh(Empty, now), run, PutMomo(cred), Spend(cred));
    RunStep(Fresh(Empty, now), run + [PutMomo(cred)] + [Spend(cred)], Settle(cred));
    hide Run, Apply, CollectionRun, PostedTx, ParseAmount, Recipient, IdemKey;
    SpentFrom(s, cred);
  }

  /** A simulator whose only payment is a collection knows no transfer. */
  lemma TransferNotYet(c: Config, now: nat, cred: Name, steps: seq<Step>)
    requires var b := Run(Fresh(c, now), steps).book; |b.objs| == 1 && b.objs[0].key == CollectionKey(cred)
    ensures TxKey(Transfer, cred, Name("transfer")) !in Run(Fresh(c, now), steps).book.txs
  {
    RunKeepsGround(c, now, steps);
    hide Run, Tallied, CallsOk, Listed;
  }

  /** One GHS collected and in the wallet, and no transfer made. */
  predicate Unspent(s: State, cred: Name)
  {
    && |s.book.objs| == 1 && IsDue(s.book.objs[0], cred) && Recipient(s.book.objs[0]) == 100 && s.book.runs == []
    && IdemKey(cred, "c") !in s.idem && IdemKey(cred, "d") !in s.idem
    && s.book.config == Empty && TxKey(Transfer, cred, Name("transfer")) !in s.book.txs
    && cred in s.book.wallets && s.book.wallets[cred].balance == 100
  }

  /** The collection is still due, but the wallet is empty. */
  predicate Spent(b: Book, cred: Name)
  {
    && b.policy.Some? && b.runs == [] && |b.objs| == 2 && IsDue(b.objs[0], cred) && Recipient(b.objs[0]) == 100
    && b.objs[1].key.kind == Transfer && cred in b.wallets && b.wallets[cred].balance == 0
  }

  lemma UnspentPolicy(s: State, cred: Name)
    requires Unspent(s, cred) && IdemKey(cred, "b") !in s.idem
    ensures Unspent(Apply(s, PutMomo(cred)), cred) && Apply(s, PutMomo(cred)).book.policy.Some?
  {
    PolicyPosted(s, cred);
    FewKeys(cred);
    hide Apply, Recipient, IdemKey;
  }

  lemma UnspentSpent(s: State, cred: Name)
    requires Unspent(s, cred) && s.book.policy.Some? && cred != Name("demo-merchant")
    ensures Spent(Apply(s, Spend(cred)).book, cred) && IdemKey(cred, "c") !in Apply(s, Spend(cred)).idem
  {
    TransferPosted(s, cred);
    FewKeys(cred);
    hide Apply, Recipient, IdemKey;
  }

  lemma SpentFrom(s: State, cred: Name)
    requires Unspent(s, cred) && IdemKey(cred, "b") !in s.idem && cred != Name("demo-merchant")
    ensures var b := Apply(Apply(Apply(s, PutMomo(cred)), Spend(cred)), Settle(cred)).book;
            cred in b.wallets && b.wallets[cred].balance == 0 - 100
  {
    hide *;
    UnspentPolicy(s, cred);
    var s2 := Apply(s, PutMomo(cred));
    UnspentSpent(s2, cred);
    SettlePosted(Apply(s2, Spend(cred)), cred);
    SpentSettled(Apply(s2, Spend(cred)).book, cred);
  }

  lemma SpentSettled(b: Book, cred: Name)
    requires Spent(b, cred)
    ensures var c := SettleNow(b, cred, Name("settlement")).book;
            cred in c.wallets && c.wallets[cred].balance == 0 - 100
  {
    DueOne(b.objs, cred);
    assert FindRun([], cred, Name("settlement")).None?;
    hide SettleNow, DueCount, DueTotal, FindRun, Recipient;
    SettlePays(b, cred, Name("settlement"));
  }

  /* Payouts over the daily limit */

  const Limited := Config(Some(10000), 50, 0.0, Initiator, true, None, None, Some(150))

  function OneGhs(reference: string): PayoutRequest { PayoutRequest(Name(reference), "1.00", "mtn", Name("0")) }

  lemma LimitedPayoutHeld(b: Book, cred: Name, reference: string)
    requires b.config == Limited && TxKey(Payout, cred, Name(reference)) !in b.txs && b.dailyOut == map[]
    requires EnsureWallet(b, cred).wallets[cred].balance >= 200
    ensures var r := StartPayout(b, cred, OneGhs(reference));
            && r.out == Await(|b.objs|) && r.later == []
            && r.book.config == Limited && r.book.dailyOut == map[] && r.book.txs == b.txs
            && |r.book.objs| == |b.objs| + 1 && r.book.objs[..|b.objs|] == b.objs
            && r.book.objs[|b.objs|].key == TxKey(Payout, cred, Name(reference)) && r.book.objs[|b.objs|].amount == 100
            && cred in r.book.wallets
            && r.book.wallets[cred].balance == EnsureWallet(b, cred).wallets[cred].balance - 110
  {
    SmallChangeParses();
    assert Fee(100, 0.0) == 10 by { assert Round(100 as real * 0.0) == 0; }
    var r := OneGhs(reference);
    var t := NewTx(b, TxKey(Payout, cred, r.reference), 100, 10, PayoutBody(r), r.party, FromWallet);
    CanDebitSame(b, cred, 110);
    hide ParseAmount, Fee, Hold;
    assert StartPayout(b, cred, r) == Hold(b, t);
    HoldAccepted(b, t);
    HeldWallet(b, t);
    hide StartPayout, EnsureWallet;
  }

  lemma HeldWallet(b: Book, t: Tx)
    requires t.key.kind == Payout && Hold(b, t).out.Await?
    ensures var c, w := Hold(b, t).book, t.key.cred;
            && Hold(b, t).later == [] && w in c.wallets
            && c.wallets[w].balance == EnsureWallet(b, w).wallets[w].balance - Pays(t)
  {
    hide Move, EnsureWallet;
    MovedBalance(Draw(b), t.key.cred, 0 - Pays(t), Pays(t), t.key.reference, EntryOut(t.key.kind));
    DrawnWallet(b, t.key.cred);
  }

  lemma MovedBalance(b: Book, id: Name, db: int, dr: int, ref: Name, kind: EntryKind)
    ensures var c, e := Move(b, id, db, dr, ref, kind), EnsureWallet(b, id);
            id in c.wallets && id in e.wallets && c.wallets[id].balance == e.wallets[id].balance + db
  {
  }

  lemma DrawnWallet(b: Book, id: Name)
    ensures EnsureWallet(Draw(b), id).wallets == EnsureWallet(b, id).wallets && id in EnsureWallet(b, id).wallets
  {
  }

  lemma LimitedPayoutStarts(s: State, cred: Name, key: string, reference: string)
    requires GoodKey(key) && IdemKey(cred, key) !in s.idem && s.book.config == Limited
    requires TxKey(Payout, cred, Name(reference)) !in s.book.txs && s.book.dailyOut == map[]
    requires EnsureWallet(s.book, cred).wallets[cred].balance >= 200
    ensures var t := Apply(s, PostPayout(cred, key, OneGhs(reference)));
            && t.book.config == Limited && t.book.dailyOut == map[] && t.book.txs == s.book.txs
            && |t.calls| == |s.calls| + 1 && t.calls[..|s.calls|] == s.calls && t.calls[|s.calls|].phase == Suspended(|s.book.objs|)
            && |t.book.objs| == |s.book.objs| + 1 && t.book.objs[..|s.book.objs|] == s.book.objs
            && t.book.objs[|s.book.objs|].key == TxKey(Payout, cred, Name(reference)) && t.book.objs[|s.book.objs|].amount == 100
            && t.idem == s.idem[IdemKey(cred, key) := Running(PayoutBody(OneGhs(reference)))]
            && cred in t.book.wallets
            && t.book.wallets[cred].balance == EnsureWallet(s.book, cred).wallets[cred].balance - 110
  {
    LimitedPayoutHeld(s.book, cred, reference);
    hide StartPayout, EnsureWallet, IdemKey, Schedule;
  }

  /** A call waits on a payout of one GHS. */
  predicate Held(s: State, n: nat, cred: Name)
  {
    && n < |s.calls| && s.calls[n].phase == Suspended(n) && n < |s.book.objs|
    && s.book.objs[n].key.kind == Payout && s.book.objs[n].key.cred == cred && s.book.objs[n].amount == 100
  }

  lemma LimitedPayoutEnds(s: State, n: nat, cred: Name)
    requires Held(s, n, cred)
    ensures var t := Apply(s, Advance(n));
            && Volume(t.book.dailyOut, cred) == Volume(s.book.dailyOut, cred) + 100
            && (forall m :: m != n && Held(s, m, cred) ==> Held(t, m, cred))
  {
    AdvanceIsApplied(s, n);
    AdvanceSparesOthers(s, n);
    ResumeNoted(s.book, n);
    ResumeOnly(s.book, n);
    hide Apply, ApplyAdvance, Resume;
  }

  lemma ResumeOnly(b: Book, i: nat)
    requires i < |b.objs| && b.objs[i].key.kind == Payout
    ensures var c := Resume(b, i).book;
            |c.objs| == |b.objs| && forall j :: 0 <= j < |b.objs| && j != i ==> c.objs[j] == b.objs[j]
  {
    hide Record;
    RecordKeys(b, i, UnderReview(b.config, b.objs[i].amount));
  }

  function TwoPayouts(cred: Name): seq<Step>
  {
    [PostPayout(cred, "a", OneGhs("one"))] + [PostPayout(cred, "b", OneGhs("two"))] + [Advance(0)] + [Advance(1)]
  }

  /** Two payouts of one GHS under a daily limit of one and a half, each checked while the other is in its gap:
      two GHS go out. */
  lemma LimitOverstepped(cred: Name, now: nat)
    ensures Volume(Run(Fresh(Limited, now), TwoPayouts(cred)).book.dailyOut, cred) == 200
  {
    var s0, p, q := Fresh(Limited, now), PostPayout(cred, "a", OneGhs("one")), PostPayout(cred, "b", OneGhs("two"));
    TwoPayoutsEnd(s0, cred);
    assert TwoPayouts(cred) == [p] + [q] + [Advance(0)] + [Advance(1)];
    hide *;
    ThreeSteps(s0, p, q, Advance(0));
    RunStep(s0, [p] + [q] + [Advance(0)], Advance(1));
  }

  lemma TwoPayoutsHeld(s: State, cred: Name)
    requires s.book == FreshBook(Limited) && s.idem == map[] && s.calls == []
    ensures var t := Apply(Apply(s, PostPayout(cred, "a", OneGhs("one"))), PostPayout(cred, "b", OneGhs("two")));
            Held(t, 0, cred) && Held(t, 1, cred) && t.book.dailyOut == map[]
  {
    FewKeys(cred);
    LimitedPayoutStarts(s, cred, "a", "one");
    var s1 := Apply(s, PostPayout(cred, "a", OneGhs("one")));
    hide Apply, IdemKey, PostPayout;
    LimitedPayoutStarts(s1, cred, "b", "two");
  }

  lemma TwoPayoutsEnd(s: State, cred: Name)
    requires s.book == FreshBook(Limited) && s.idem == map[] && s.calls == []
    ensures var t := Apply(Apply(s, PostPayout(cred, "a", OneGhs("one"))), PostPayout(cred, "b", OneGhs("two")));
            Volume(Apply(Apply(t, Advance(0)), Advance(1)).book.dailyOut, cred) == 200
  {
    hide Apply, PostPayout, Held, FreshBook;
    TwoPayoutsHeld(s, cred);
    var t := Apply(Apply(s, PostPayout(cred, "a", OneGhs("one"))), PostPayout(cred, "b", OneGhs("two")));
    LimitedPayoutEnds(t, 0, cred);
    LimitedPayoutEnds(Apply(t, Advance(0)), 1, cred);
  }

  /* Purchases the payer funds */

  function Purchase(reference: string): Body
  {
    UtilityBody(Name(reference), "airtime-mtn", "1.00", "GHS", FromPayer, true, false)
  }

  function PostPurchase(cred: Name, reference: string): Step
  {
    PostCall(cred, "b", UtilityPurchases, Purchase(reference), false, false)
  }

  /** The purchase as its registration leaves it. */
  predicate Purchased(t: Tx, cred: Name, reference: string)
  {
    && t.key == TxKey(Utility, cred, Name(reference)) && t.funding == FromPayer && Begun(t) && !t.review
  }

  /** A purchase the payer funds is registered, announced and given its two timers by its first step. */
  lemma PurchaseMade(b: Book, cred: Name, reference: string)
    requires Unlimited(b.config) && TxKey(Utility, cred, Name(reference)) !in b.txs
    ensures var r, n, half := StartUtility(b, cred, Purchase(reference)), |b.objs|, b.config.resolveDelayMs / 2;
            && |r.book.objs| == n + 1 && r.book.objs[..n] == b.objs && Purchased(r.book.objs[n], cred, reference)
            && r.book.config == b.config && r.out.Done?
            && r.book.events == b.events + [Event(|b.events|, cred, UtilityAccepted, OfTx(n, r.book.objs[n]))]
            && r.later == [Later(half, Half(n)), Later(b.config.resolveDelayMs, Final(n, half))]
  {
    SmallChangeParses();
    var t := NewTx(b, TxKey(Utility, cred, Name(reference)), 100, Fee(100, b.config.feeRate), Purchase(reference), Name(""), FromPayer);
    hide ParseAmount, Fee, Record, EnsureWallet;
    var a := AddObj(Draw(b), t);
    EnsuresOnly(a, cred);
    RecordKeys(EnsureWallet(a, cred), |b.objs|, false);
    assert StartUtility(b, cred, Purchase(reference)) == Resume(a, |b.objs|);
    hide StartUtility, OutcomeFor;
  }

  lemma PurchasePosted(s: State, cred: Name, reference: string)
    requires IdemKey(cred, "b") !in s.idem && Unlimited(s.book.config)
    requires TxKey(Utility, cred, Name(reference)) !in s.book.txs
    ensures var t, n, half := Apply(s, PostPurchase(cred, reference)), |s.book.objs|, s.book.config.resolveDelayMs / 2;
            && |t.book.objs| == n + 1 && t.book.objs[..n] == s.book.objs && Purchased(t.book.objs[n], cred, reference)
            && t.book.config == s.book.config && t.epoch == s.epoch && t.now == s.now
            && t.book.events == s.book.events + [Event(|s.book.events|, cred, UtilityAccepted, OfTx(n, t.book.objs[n]))]
            && t.timers == s.timers + [Timer(s.now + Timeout(half), s.epoch, Half(n)),
                                       Timer(s.now + Timeout(s.book.config.resolveDelayMs), s.epoch, Final(n, half))]
  {
    hide StartUtility, IdemKey, Purchased, Schedule, Apply, Begun, Timeout;
    var half, full := s.book.config.resolveDelayMs / 2, s.book.config.resolveDelayMs;
    PurchaseMade(s.book, cred, reference);
    PostRuns(s, cred, "b", UtilityPurchases, Purchase(reference));
    ScheduledTwo(s.now, s.epoch, Later(half, Half(|s.book.objs|)), Later(full, Final(|s.book.objs|, half)));
  }

  lemma ScheduledTwo(now: nat, epoch: nat, x: Later, y: Later)
    ensures Schedule(now, epoch, [x, y]) == [Timer(now + Timeout(x.delay), epoch, x.act), Timer(now + Timeout(y.delay), epoch, y.act)]
  {
  }

  /** Purchases fail to vend. */
  const Unlucky := Config(Some(10000), 50, 0.0, Initiator, false, None, None, None)

  function StrandedRun(cred: Name, now: nat): seq<Step>
  {
    [PostPurchase(cred, "purchase")] + [Fire(0, now + 25)] + [Fire(0, now + 50)]
  }

  /** A purchase the payer funds fails to vend: no timer is left for it, and it is neither completed nor
      refunded, whatever follows. */
  lemma PurchaseStranded(cred: Name, now: nat)
    ensures var s := Run(Fresh(Unlucky, now), StrandedRun(cred, now));
            && s.timers == [] && |s.book.objs| == 1 && Stuck(s.book.objs[0]) && s.book.objs[0].status == Failed
            && forall steps :: Idempotency.NoReset(steps) ==> StillOpen(Run(s, steps), 0)
  {
    hide *;
    var s0 := Fresh(Unlucky, now);
    StrandedIs(s0, cred, now);
    StrandedStarts(cred, now);
    StrandedEnds(Apply(s0, PostPurchase(cred, "purchase")), cred, now);
    RunSturdy(Unlucky, now, StrandedRun(cred, now));
    StuckRegistered(Run(s0, StrandedRun(cred, now)).book.objs[0]);
    NeverCompletesExactly(Run(s0, StrandedRun(cred, now)), 0);
  }

  lemma StrandedIs(s: State, cred: Name, now: nat)
    ensures Run(s, StrandedRun(cred, now)) ==
            Apply(Apply(Apply(s, PostPurchase(cred, "purchase")), Fire(0, now + 25)), Fire(0, now + 50))
  {
    var p := PostPurchase(cred, "purchase");
    assert StrandedRun(cred, now) == [p] + [Fire(0, now + 25)] + [Fire(0, now + 50)];
    hide *;
    ThreeSteps(s, p, Fire(0, now + 25), Fire(0, now + 50));
  }

  lemma StrandedStarts(cred: Name, now: nat)
    ensures StrandedPosted(Apply(Fresh(Unlucky, now), PostPurchase(cred, "purchase")), cred, now)
  {
    hide Apply, PostPurchase, IdemKey, Purchased;
    PurchasePosted(Fresh(Unlucky, now), cred, "purchase");
  }

  predicate StrandedPosted(s: State, cred: Name, now: nat)
  {
    && |s.book.objs| == 1 && Purchased(s.book.objs[0], cred, "purchase") && s.book.config == Unlucky && s.now == now
    && s.timers == [Timer(now + 25, s.epoch, Half(0)), Timer(now + 50, s.epoch, Final(0, 25))]
  }

  lemma StuckRegistered(t: Tx)
    requires Stuck(t)
    ensures t.registered
  {
  }

  lemma StrandedEnds(s: State, cred: Name, now: nat)
    requires StrandedPosted(s, cred, now)
    ensures var t := Apply(Apply(s, Fire(0, now + 25)), Fire(0, now + 50));
            t.timers == [] && |t.book.objs| == 1 && Stuck(t.book.objs[0]) && t.book.objs[0].status == Failed
  {
    hide Apply, RunAct;
    Fired(s, 0, now + 25);
    ActDoes(s.book, Half(0));
    var s1 := Apply(s, Fire(0, now + 25));
    assert s1.timers == [s.timers[1]];
    Fired(s1, 0, now + 50);
    ActDoes(s1.book, Final(0, 25));
  }

  /* One reference, two payments */

  /** A settled collection, and a purchase of the same credential under the same reference that is only
      accepted: from every event, delivered once and in order, the receiver makes out that the purchase is
      settled. */
  lemma ReferenceShared(cred: Name, now: nat)
    ensures var steps := CollectionRun(PlainConfig, now, cred, "1.00") + [PostPurchase(cred, "collection")];
            var b := Run(Fresh(PlainConfig, now), steps).book;
            && |b.objs| == 2 && b.objs[1].registered && b.objs[1].status == Accepted
            && b.objs[1].key == TxKey(Utility, cred, Name("collection"))
            && Best(Statuses(Unique(AllDelivered(b.events)), Name("collection"))) == Some(Settled)
  {
    SmallChangeParses();
    CollectionRuns(PlainConfig, now, cred, "1.00", 100);
    OutcomeSucceeds(PlainConfig, cred, "1.00", 100);
    var run := CollectionRun(PlainConfig, now, cred, "1.00");
    var s := Run(Fresh(PlainConfig, now), run);
    FewKeys(cred);
    RunStep(Fresh(PlainConfig, now), run, PostPurchase(cred, "collection"));
    hide Run, Apply, CollectionRun, PostedTx, ParseAmount, IdemKey, PostPurchase, Best, Statuses, Unique;
    PurchasePosted(s, cred, "collection");
    SharedMisleads(s.book, Apply(s, PostPurchase(cred, "collection")).book, cred);
  }

  lemma SharedMisleads(b: Book, c: Book, cred: Name)
    requires ToldInTurn(b.events, CollectionKey(cred), [Accepted] + [Dispatched, Settled])
    requires |c.objs| == 2 && Purchased(c.objs[1], cred, "collection")
    requires c.events == b.events + [Event(|b.events|, cred, UtilityAccepted, OfTx(1, c.objs[1]))]
    ensures Best(Statuses(Unique(AllDelivered(c.events)), Name("collection"))) == Some(Settled)
  {
    var ds := AllDelivered(c.events);
    assert [Accepted] + [Dispatched, Settled] == [Accepted, Dispatched, Settled];
    assert forall n :: 0 <= n < 3 ==> c.events[n] == b.events[n];
    DeliveredSigned(c.events);
    hide Signed, Seen, Best, Statuses, Unique;
    ReceiverChoosesExactly(ds, c.events, Name("collection"), Settled);
    assert LeadsAt(ds, Name("collection"), Settled, 2);
  }

  /* Credentials that share entries */

  /** One credential posts a collection and is answered; then another posts the same body, under a key that
      leads to the same entry. */
  function Borrowing(d: Name, l: string, c: Name, k: string): seq<Step>
  {
    [PostCall(d, l, Collections, CollectionOf("1.00"), false, false)] + [Finish(0, false)]
      + [PostCall(c, k, Collections, CollectionOf("1.00"), false, false)]
  }

  /** The second credential is answered with the reply to the first, about the first one's payment, and no
      request of its own runs. */
  lemma AnsweredForAnother(d: Name, l: string, c: Name, k: string, now: nat)
    requires GoodKey(k) && GoodKey(l) && IdemKey(c, k) == IdemKey(d, l)
    ensures var s := Run(Fresh(PlainConfig, now), Borrowing(d, l, c, k));
            && |s.calls| == 2 && s.calls[0].phase.Answered? && s.calls[0].phase.answer.Got?
            && s.calls[1] == Call(c, k, CollectionOf("1.00"), false, s.calls[0].phase)
            && s.calls[0].phase.answer.reply.TxReply? && s.calls[0].phase.answer.reply.view.key == CollectionKey(d)
            && |s.book.objs| == 1 && s.book.objs[0].key == CollectionKey(d)
  {
    var s0, body := Fresh(PlainConfig, now), CollectionOf("1.00");
    SmallChangeParses();
    CollectionMade(PlainConfig, d, "1.00", 100);
    OutcomeSucceeds(PlainConfig, d, "1.00", 100);
    hide ParseAmount, CreateCollection, PostedTx, IdemKey, GoodKey, Apply, Run, Schedule;
    PostRuns(s0, d, l, Collections, body);
    var s1 := Apply(s0, PostCall(d, l, Collections, body, false, false));
    Commits200(s1, 0, PostedTx(PlainConfig, d, "1.00", 100));
    var s2 := Apply(s1, Finish(0, false));
    Repeats200(s2, c, k, Collections, body, TxReply(202, PostedTx(PlainConfig, d, "1.00", 100)));
    ThreeSteps(s0, PostCall(d, l, Collections, body, false, false), Finish(0, false),
               PostCall(c, k, Collections, body, false, false));
  }

  lemma Commits200(s: State, i: nat, t: Tx)
    requires i < |s.calls| && s.calls[i].phase == Returned(TxReply(202, t))
    ensures var u, c := Apply(s, Finish(i, false)), s.calls[i];
            && u.book == s.book && u.calls == s.calls[i := c.(phase := Answered(Got(TxReply(202, t))))]
            && u.idem == s.idem[IdemKey(c.cred, c.key) := Committed(c.body, TxReply(202, t))]
  {
    hide IdemKey;
  }

  lemma Repeats200(s: State, cred: Name, key: string, endpoint: Endpoint, body: Body, reply: Reply)
    requires GoodKey(key) && IdemKey(cred, key) in s.idem && s.idem[IdemKey(cred, key)] == Committed(body, reply)
    ensures var u := Apply(s, PostCall(cred, key, endpoint, body, false, false));
            u.book == s.book && u.calls == s.calls + [Call(cred, key, body, false, Answered(Got(reply)))]
  {
    hide IdemKey;
  }

  /** For instance: what "a:b" was answered under the key "k" is what "a" is answered under "b:k". */
  lemma ColonsMeet(now: nat)
    ensures IdemKey(Name("a"), "b:k") == IdemKey(Name("a:b"), "k")
    ensures var s := Run(Fresh(PlainConfig, now), Borrowing(Name("a:b"), "k", Name("a"), "b:k"));
            |s.calls| == 2 && !s.calls[1].ran && s.calls[1].phase == s.calls[0].phase
  {
    SameEntryExactly(Name("a"), "b:k", Name("a:b"), "k");
    assert "a" + ":" == "a:b"[..2] && "a:b"[2..] + ":" + "k" == "b:k";
    hide IdemKey, Run, Borrowing;
    AnsweredForAnother(Name("a:b"), "k", Name("a"), "b:k", now);
  }
}
