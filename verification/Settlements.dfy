/** Settlement over whole runs: each collection is paid out by at most one settlement run, the runs of a
    credential add up to its settled-out collections, and wallets are not overspent, each exactly when the
    collections concerned leave their recipients something. */
module Settlements {
  import opened Money
  import opened Domain
  import opened Operations
  import opened Accounting
  import opened BookInvariants
  import opened Shapes
  import opened Protocol
  import opened Segments
  import opened Groundwork
  import opened Bookkeeping
  import opened Sums
  import opened Solvency

  function TotalOf(c: Name): SettlementRun -> int { (r: SettlementRun) => if r.cred == c then r.total else 0 }
  function ItemsOf(c: Name): SettlementRun -> int { (r: SettlementRun) => if r.cred == c then r.itemCount else 0 }
  function OutTotalOf(c: Name): Tx -> int
  {
    (t: Tx) => if t.key.cred == c && t.settlement == SettledOut then Recipient(t) else 0
  }
  function OutCountOf(c: Name): Tx -> int { (t: Tx) => if t.key.cred == c && t.settlement == SettledOut then 1 else 0 }

  /** The runs of a credential account for its settled-out collections, by total and by count. */
  predicate RunsOkAt(b: Book, c: Name)
  {
    && SumBy(b.runs, TotalOf(c)) == SumBy(b.objs, OutTotalOf(c))
    && SumBy(b.runs, ItemsOf(c)) == SumBy(b.objs, OutCountOf(c))
  }

  ghost predicate RunsOk(b: Book) { forall c :: RunsOkAt(b, c) }

  /** Every collection leaves its recipient something. */
  ghost predicate Worthwhile(b: Book)
  {
    forall i :: 0 <= i < |b.objs| && b.objs[i].key.kind == Collection ==> Recipient(b.objs[i]) > 0
  }

  /** Where fees are as the configuration schema has them, that is: the payer bears the fee, or the amount
      exceeds the minimum fee. */
  lemma WorthwhileTx(t: Tx)
    requires TxOk(t) && t.key.kind == Collection
    ensures Recipient(t) > 0 <==> t.bearer == Initiator || t.amount > 10
  {
  }

  /* One settlement request */

  /** The request makes a run of its own: a policy exists and the reference is new. */
  predicate Records(b: Book, cred: Name, reference: Name)
  {
    b.policy.Some? && FindRun(b.runs, cred, reference).None?
  }

  lemma {:induction false} PaidOutTotal(objs: seq<Tx>, cred: Name, c: Name)
    ensures SumBy(PayOutAll(objs, cred), OutTotalOf(c)) ==
            SumBy(objs, OutTotalOf(c)) + if c == cred then DueTotal(objs, cred) else 0
  {
    if objs != [] {
      PaidOutTotal(objs[..|objs| - 1], cred, c);
      SumAppend(PayOutAll(objs[..|objs| - 1], cred), PayOut(objs[|objs| - 1], cred), OutTotalOf(c));
    }
  }

  lemma {:induction false} PaidOutCount(objs: seq<Tx>, cred: Name, c: Name)
    ensures SumBy(PayOutAll(objs, cred), OutCountOf(c)) ==
            SumBy(objs, OutCountOf(c)) + if c == cred then DueCount(objs, cred) else 0
  {
    if objs != [] {
      PaidOutCount(objs[..|objs| - 1], cred, c);
      SumAppend(PayOutAll(objs[..|objs| - 1], cred), PayOut(objs[|objs| - 1], cred), OutCountOf(c));
    }
  }

  lemma {:induction false} NothingDue(objs: seq<Tx>, cred: Name)
    ensures DueCount(objs, cred) == 0 ==> DueTotal(objs, cred) == 0
  {
    if objs != [] { NothingDue(objs[..|objs| - 1], cred); }
  }

  lemma {:induction false} DueIsPositive(objs: seq<Tx>, cred: Name)
    requires forall i :: 0 <= i < |objs| && objs[i].key.kind == Collection ==> Recipient(objs[i]) > 0
    ensures DueCount(objs, cred) > 0 ==> DueTotal(objs, cred) > 0
    ensures DueTotal(objs, cred) >= 0
  {
    if objs != [] { DueIsPositive(objs[..|objs| - 1], cred); }
  }

  /** What a settlement request does: the runs and payments it leaves. */
  lemma SettleDoes(b: Book, cred: Name, reference: Name)
    ensures var c, net := SettleNow(b, cred, reference).book, DueTotal(b.objs, cred);
            if Records(b, cred, reference) then
              && c.runs == b.runs + [SettlementRun(b.serial + 1, reference, cred, DueCount(b.objs, cred), net)]
              && c.objs == (if net > 0 then PayOutAll(b.objs, cred) else b.objs)
              && c.batches == b.batches && Grown(b, c)
            else c == b
  {
    hide DueTotal, DueCount, FindRun, RunId, PayOutAll, Move;
    var net := DueTotal(b.objs, cred);
    if Records(b, cred, reference) {
      MovePlain(Draw(b).(objs := PayOutAll(b.objs, cred)), cred, 0 - net, 0, RunId(b.serial + 1), SettlementPaid);
    }
  }

  lemma SettleRunsAt(b: Book, cred: Name, reference: Name, c: Name)
    requires RunsOkAt(b, c)
    ensures RunsOkAt(SettleNow(b, cred, reference).book, c) <==>
            !Records(b, cred, reference) || c != cred || DueTotal(b.objs, cred) > 0 || DueCount(b.objs, cred) == 0
  {
    hide SumBy, DueTotal, DueCount, PayOutAll, SettleNow, Records;
    SettleDoes(b, cred, reference);
    var run := SettlementRun(b.serial + 1, reference, cred, DueCount(b.objs, cred), DueTotal(b.objs, cred));
    SumAppend(b.runs, run, TotalOf(c));
    SumAppend(b.runs, run, ItemsOf(c));
    PaidOutTotal(b.objs, cred, c);
    PaidOutCount(b.objs, cred, c);
    NothingDue(b.objs, cred);
  }

  /** A settlement request keeps the runs in step with the settled-out collections exactly when it makes
      no run, nothing is due, or what is due nets to more than nothing. */
  lemma SettleRunsExactly(b: Book, cred: Name, reference: Name)
    requires RunsOk(b)
    ensures RunsOk(SettleNow(b, cred, reference).book) <==>
            !Records(b, cred, reference) || DueTotal(b.objs, cred) > 0 || DueCount(b.objs, cred) == 0
  {
    hide SumBy, DueTotal, DueCount, SettleNow, Records, RunsOkAt;
    forall c ensures RunsOkAt(b, c) { }
    SettleRunsAt(b, cred, reference, cred);
    forall c ensures c != cred ==> RunsOkAt(SettleNow(b, cred, reference).book, c) {
      SettleRunsAt(b, cred, reference, c);
    }
  }

  /** The settlement state of a payment: not eligible, eligible, settled out. */
  predicate MovesOn(x: Settlement, y: Settlement)
  {
    y == x || (x == NotEligible && y == Eligible) || (x == Eligible && y == SettledOut)
  }

  ghost predicate DealsKept(b: Book, c: Book)
  {
    && |b.objs| <= |c.objs|
    && forall i :: 0 <= i < |b.objs| ==>
         && c.objs[i].key == b.objs[i].key && c.objs[i].amount == b.objs[i].amount
         && c.objs[i].fee == b.objs[i].fee && c.objs[i].bearer == b.objs[i].bearer
         && MovesOn(b.objs[i].settlement, c.objs[i].settlement)
  }

  lemma SettleDeals(b: Book, cred: Name, reference: Name)
    ensures DealsKept(b, SettleNow(b, cred, reference).book)
  {
    hide SettleNow, Records, DueTotal, DueCount;
    SettleDoes(b, cred, reference);
  }

  /** Paying a run moves its total from the balance to what was settled out. The balance is not negative
      afterwards exactly if it covered the total; nothing checks that. */
  lemma SettlePays(b: Book, cred: Name, reference: Name)
    requires Records(b, cred, reference) && DueTotal(b.objs, cred) > 0
    ensures var c, net := SettleNow(b, cred, reference).book, DueTotal(b.objs, cred);
            && cred in c.wallets && c.wallets == EnsureWallet(b, cred).wallets[cred := c.wallets[cred]]
            && c.wallets[cred].balance == EnsureWallet(b, cred).wallets[cred].balance - net
            && (c.wallets[cred].balance >= 0 <==> EnsureWallet(b, cred).wallets[cred].balance >= net)
            && Paid(c, cred) == Paid(b, cred) + net
  {
    hide SumBy, DueTotal, DueCount, FindRun, RunId, PayOutAll, Move, EnsureWallet;
    var run := SettlementRun(b.serial + 1, reference, cred, DueCount(b.objs, cred), DueTotal(b.objs, cred));
    var d := Draw(b).(objs := PayOutAll(b.objs, cred));
    MoveWallets(d, cred, 0 - run.total, RunId(run.id), SettlementPaid);
    EnsureSame(b, d, cred);
    SumAppend(b.runs, run, PaidFrom(cred));
  }

  lemma MoveWallets(b: Book, id: Name, db: int, ref: Name, kind: EntryKind)
    ensures var c, e := Move(b, id, db, 0, ref, kind), EnsureWallet(b, id);
            && id in c.wallets && c.wallets == e.wallets[id := c.wallets[id]]
            && c.wallets[id].balance == e.wallets[id].balance + db && c.runs == b.runs
  {
  }

  lemma EnsureSame(b: Book, c: Book, id: Name)
    requires c.wallets == b.wallets && c.config == b.config
    ensures EnsureWallet(c, id).wallets == EnsureWallet(b, id).wallets
  {
  }

  lemma SettleSolvent(b: Book, cred: Name, reference: Name)
    requires Solvent(b)
    ensures Solvent(SettleNow(b, cred, reference).book)
  {
    var c := SettleNow(b, cred, reference).book;
    SettleDoes(b, cred, reference);
    SteadyEnsure(b, cred);
    SettleWallets(b, cred, reference);
    hide SumBy, DueTotal, DueCount, SettleNow, Records;
    EnsureRuns(b, cred);
    hide EnsureWallet;
    if Records(b, cred, reference) {
      if DueTotal(b.objs, cred) > 0 { SettlePays(b, cred, reference); }
      forall w ensures SolventAt(c, w) {
        assert SolventAt(EnsureWallet(b, cred), w) && SolventAt(b, w);
        var run := SettlementRun(b.serial + 1, reference, cred, DueCount(b.objs, cred), DueTotal(b.objs, cred));
        SumAppend(b.runs, run, PaidFrom(w));
        assert Paid(c, w) == Paid(b, w) + PaidFrom(w)(run);
        if DueTotal(b.objs, cred) > 0 {} else {}
      }
    }
  }

  lemma SettleWallets(b: Book, cred: Name, reference: Name)
    ensures DueTotal(b.objs, cred) <= 0 ==> SettleNow(b, cred, reference).book.wallets == b.wallets
  {
    hide DueTotal, DueCount, FindRun, RunId, Move, PayOutAll;
  }

  /* Steps */

  predicate Settling(s: State, step: Step)
  {
    && step.PostCall? && GoodKey(step.key) && IdemKey(step.cred, step.key) !in s.idem && !step.crash
    && step.endpoint == Settlements && step.body.SettleBody?
  }

  lemma SegmentSteady(b: Book, c: Call)
    requires Waits(c.phase).Holds? ==> Waits(c.phase).obj < |b.objs|
    ensures Lasting(b, NextSegment(b, c).book)
  {
    hide Lasting, Resume, StartPayout;
    SteadySame(b, b);
    match c.phase
    case Suspended(i) => SteadyResume(b, i);
    case InBatch(_, Holding(i), _) => SteadyResume(b, i);
    case InBatch(results, Have(x), rest) => if c.body.BatchBody? { ItemSteady(b, c.cred, c.body, results + [x], rest); }
    case _ =>
  }

  lemma ItemSteady(b: Book, cred: Name, body: Body, results: seq<ItemResult>, rest: seq<PayoutRequest>)
    requires body.BatchBody?
    ensures Lasting(b, NextItem(b, cred, body, results, rest).book)
    ensures rest != [] ==> NextItem(b, cred, body, results, rest).book.batches == b.batches
  {
    hide Lasting, StartPayout;
    if rest == [] {
      SteadySame(b, BatchFinish(b, cred, body, results).book);
    } else {
      SteadyPayout(b, cred, rest[0]);
    }
  }

  lemma FirstSteady(b: Book, cred: Name, endpoint: Endpoint, body: Body)
    requires !(endpoint == Settlements && body.SettleBody?)
    ensures Lasting(b, FirstSegment(b, cred, endpoint, body).book)
  {
    hide Lasting, CreateCollection, StartPayout, StartUtility, StartTransfer, NextItem, SettleNow;
    SteadySame(b, b);
    match body {
      case CollectionBody(_, _, _, _) => SteadyCollection(b, cred, body);
      case PayoutBody(r) => SteadyPayout(b, cred, r);
      case UtilityBody(_, _, _, _, _, _, _) => SteadyUtility(b, cred, body);
      case TransferBody(_, _, _, _) => SteadyTransfer(b, cred, body);
      case BatchBody(_, items) => ItemSteady(b, cred, body, [], items);
      case PolicyBody(_) => SteadySame(b, PutPolicy(b, body).book);
      case _ =>
    }
  }

  lemma FireSteady(s: State, j: nat, at: nat)
    requires Sturdy(s) && Worthwhile(s.book)
    ensures Steady(s.book, ApplyFire(s, j, at).book)
  {
    SturdyParts(s);
    hide Sturdy, Ground, Balanced, Timed, Steady, RunAct, FixedTx, Ready;
    SteadySame(s.book, s.book);
    if IsNext(s.timers, j) && s.timers[j].epoch == s.epoch {
      TimerReady(s, j);
      SteadyAct(s.book, s.timers[j].act);
    }
  }

  lemma PostSteady(s: State, step: Step)
    requires step.PostCall? && !Settling(s, step)
    ensures Lasting(s.book, Apply(s, step).book)
  {
    hide Lasting, FirstSegment;
    SteadySame(s.book, s.book);
    if !(step.endpoint == Settlements && step.body.SettleBody?) {
      FirstSteady(s.book, step.cred, step.endpoint, step.body);
    }
  }

  /** Every step but a settlement, a reset and a timer is steady. */
  lemma StepSteady(s: State, step: Step)
    requires Ground(s) && !step.Fire? && !step.Reset? && !Settling(s, step)
    ensures Lasting(s.book, Apply(s, step).book)
  {
    GroundParts(s);
    hide Ground, Grounded, CallsOk, Lasting, ApplyPost, NextSegment, SetBalance, EnsureWallet, Settling;
    SteadySame(s.book, s.book);
    match step
    case PostCall(cred, key, endpoint, body, crash, lost) => PostSteady(s, step);
    case Advance(i) =>
      if i < |s.calls| {
        if Waits(s.calls[i].phase).Holds? { WaitingUnregistered(s, i); }
        SegmentSteady(s.book, s.calls[i]);
      }
    case Touch(cred) => SteadyEnsure(s.book, cred);
    case Balance(cred, amount) => SteadySetBalance(s.book, cred, amount);
    case Patch(config) => SteadySame(s.book, s.book.(config := config));
    case DropPolicy => SteadySame(s.book, s.book.(policy := None));
    case _ =>
  }

  lemma SettlingStep(s: State, step: Step)
    requires Settling(s, step)
    ensures Apply(s, step).book == SettleNow(s.book, step.cred, step.body.reference).book
  {
    hide SettleNow;
  }

  /** The accounts of a settlement: the runs, and what is left in the wallets. */
  ghost predicate Accounted(b: Book) { RunsOk(b) && Solvent(b) }

  lemma SteadyRuns(b: Book, c: Book)
    requires RunsOk(b) && Lasting(b, c)
    ensures RunsOk(c)
  {
    hide SumBy, Solvent;
    forall w ensures RunsOkAt(c, w) {
      assert RunsOkAt(b, w);
      OutSame(b.objs, c.objs, OutTotalOf(w));
      OutSame(b.objs, c.objs, OutCountOf(w));
    }
  }

  /** A measure of settled-out payments alone does not see steady changes. */
  lemma {:induction false} OutSame(s: seq<Tx>, t: seq<Tx>, f: Tx -> int)
    requires |s| <= |t|
    requires forall i :: 0 <= i < |s| ==> f(t[i]) == f(s[i])
    requires forall i :: |s| <= i < |t| ==> f(t[i]) == 0
    ensures SumBy(t, f) == SumBy(s, f)
  {
    if |t| == |s| {
      if s != [] { OutSame(s[..|s| - 1], t[..|t| - 1], f); }
    } else {
      OutSame(s, t[..|t| - 1], f);
    }
  }

  lemma SettlingKeeps(s: State, step: Step)
    requires Settling(s, step) && Worthwhile(s.book) && Accounted(s.book)
    ensures Accounted(Apply(s, step).book)
  {
    hide RunsOk, Solvent, SettleNow, DueTotal, DueCount, Records;
    SettlingStep(s, step);
    SettleSolvent(s.book, step.cred, step.body.reference);
    SettleRunsExactly(s.book, step.cred, step.body.reference);
    DueIsPositive(s.book.objs, step.cred);
  }

  /** Every step keeps every payment's terms, and moves its settlement state on at most. */
  lemma StepDeals(s: State, step: Step)
    requires Sturdy(s) && !step.Reset?
    ensures DealsKept(s.book, Apply(s, step).book)
  {
    hide Sturdy, SettleNow, Apply;
    if Settling(s, step) {
      SettlingStep(s, step);
      SettleDeals(s.book, step.cred, step.body.reference);
    } else {
      StepTerms(s, step);
    }
  }

  lemma StepTerms(s: State, step: Step)
    requires Sturdy(s) && !step.Reset? && !Settling(s, step)
    ensures SameDeals(s.book, Apply(s, step).book)
  {
    SturdyParts(s);
    hide Sturdy, Ground, Balanced, Fixed, Timed, Apply, Settling;
    if step.Fire? {
      FireTerms(s, step.timer, step.at);
    } else {
      StepSteady(s, step);
    }
  }

  lemma FireTerms(s: State, j: nat, at: nat)
    requires Sturdy(s)
    ensures var c := Apply(s, Fire(j, at)).book;
            SameDeals(s.book, c) && c.batches == s.book.batches
  {
    FiredTerms(s, j, at);
    hide *;
    FireIsApplied(s, j, at);
  }

  lemma FiredTerms(s: State, j: nat, at: nat)
    requires Sturdy(s)
    ensures SameDeals(s.book, ApplyFire(s, j, at).book) && ApplyFire(s, j, at).book.batches == s.book.batches
  {
    SturdyParts(s);
    FireBook(s, j, at);
    hide Sturdy, Ground, Balanced, Timed, RunAct, ApplyFire, SameDeals, IsNext, FixedTx, Ready;
    SameDealsSame(s.book);
    if ApplyFire(s, j, at).book != s.book {
      NextTimer(s.timers, j);
      TimerReady(s, j);
      ActTerms(s.book, s.timers[j].act);
    }
  }

  lemma NextTimer(timers: seq<Timer>, j: nat)
    requires IsNext(timers, j)
    ensures j < |timers|
  {
  }

  lemma SameDealsSame(b: Book)
    ensures SameDeals(b, b)
  {
  }

  lemma ActTerms(b: Book, act: Act)
    requires act.obj < |b.objs| && FixedTx(b.objs[act.obj]) && Ready(b.objs[act.obj], act)
    ensures SameDeals(b, RunAct(b, act).0) && RunAct(b, act).0.batches == b.batches
  {
    hide Steady, SameDeals, RunFinal;
    var t := b.objs[act.obj];
    if t.key.kind == Collection && act.Final? {
      CollectionTerms(b, act.obj, act.half);
    } else {
      SteadyAct(b, act);
      SteadyTerms(b, RunAct(b, act).0);
    }
  }

  lemma SteadyTerms(b: Book, c: Book)
    requires Steady(b, c)
    ensures SameDeals(b, c) && c.batches == b.batches
  {
  }

  lemma StatusTerms(b: Book, a: Book, i: nat, t: Tx)
    requires i < |b.objs| && a.objs == b.objs && a.runs == b.runs && a.batches == b.batches && Grown(b, a) && SameTerms(b.objs[i], t)
    ensures SameDeals(b, SetStatus(a, i, t)) && SetStatus(a, i, t).batches == b.batches
  {
  }

  lemma CollectionTerms(b: Book, i: nat, half: nat)
    requires i < |b.objs| && FixedTx(b.objs[i]) && Ready(b.objs[i], Final(i, half)) && b.objs[i].key.kind == Collection
    ensures SameDeals(b, RunFinal(b, i, half).0) && RunFinal(b, i, half).0.batches == b.batches
  {
    hide SameDeals, Move, SetStatus;
    var t := b.objs[i];
    var m := Credit(b, t.key.cred, Recipient(t), t.key.reference, CollectionCredit);
    MovePlain(b, t.key.cred, Recipient(t), 0, t.key.reference, CollectionCredit);
    StatusTerms(b, m, i, t.(status := Settled, settlement := Eligible, completed := true));
    var reason := if t.outcome == FailsOnPin then WrongPin else Declined;
    StatusTerms(b, b, i, t.(status := Failed, failure := Some(reason), completed := true));
  }

  /* Runs */

  lemma WorthwhileBack(b: Book, c: Book)
    requires DealsKept(b, c) && Worthwhile(c)
    ensures Worthwhile(b)
  {
    forall i | 0 <= i < |b.objs| && b.objs[i].key.kind == Collection ensures Recipient(b.objs[i]) > 0 {
      assert c.objs[i].key == b.objs[i].key;
    }
  }

  lemma FreshSettled(c: Config)
    ensures Accounted(FreshBook(c))
  {
  }

  lemma StepSettled(s: State, step: Step)
    requires Sturdy(s) && Worthwhile(s.book) && Accounted(s.book)
    ensures Accounted(Apply(s, step).book)
  {
    hide Sturdy, ApplyPost, ApplyAdvance, ApplyFire, Settling;
    if step.Reset? {
      FreshSettled(step.config);
    } else if Settling(s, step) {
      SettlingKeeps(s, step);
    } else {
      if step.Fire? {
        FireSteady(s, step.timer, step.at);
        FireIsApplied(s, step.timer, step.at);
      } else {
        SturdyParts(s);
        hide Ground, Balanced, Fixed, Timed;
        StepSteady(s, step);
      }
      SteadyRuns(s.book, Apply(s, step).book);
    }
  }

  /** In every run that collected nothing but worthwhile amounts: a credential's settlement runs add up to
      its settled-out collections, in total and in number, and no wallet is overspent: its balance and
      everything ever settled out of it are together never negative. */
  lemma {:induction false} RunsAddUp(c: Config, now: nat, steps: seq<Step>)
    requires Worthwhile(Run(Fresh(c, now), steps).book)
    ensures RunsOk(Run(Fresh(c, now), steps).book) && Solvent(Run(Fresh(c, now), steps).book)
  {
    hide Worthwhile, RunsOk, Solvent, Sturdy, Apply;
    if steps == [] {
      FreshSettled(c);
    } else {
      var init, last := steps[..|steps| - 1], steps[|steps| - 1];
      var s := Run(Fresh(c, now), init);
      RunSturdy(c, now, init);
      if last.Reset? {
        ResetSettled(s, last);
        if Idle(s) {} else { RunsAddUp(c, now, init); }
      } else {
        StepDeals(s, last);
        WorthwhileBack(s.book, Apply(s, last).book);
        RunsAddUp(c, now, init);
        StepSettled(s, last);
      }
    }
  }

  lemma ResetSettled(s: State, step: Step)
    requires step.Reset?
    ensures if Idle(s) then Accounted(Apply(s, step).book) else Apply(s, step) == s
  {
    if Idle(s) { FreshSettled(step.config); }
  }

  /** A settlement state never goes back: once eligible never unpayable, once settled out never due. So a
      settled-out collection is in no later run. */
  function Progress(s: Settlement): nat
  {
    match s
    case NoSettlement | NotEligible => 0
    case Eligible => 1
    case SettledOut => 2
  }

  lemma {:induction false} SettlementOnlyAdvances(s: State, steps: seq<Step>, i: nat)
    requires Sturdy(s) && i < |s.book.objs|
    requires forall n :: 0 <= n < |steps| ==> !steps[n].Reset?
    ensures var b := Run(s, steps).book;
            && Sturdy(Run(s, steps)) && i < |b.objs| && b.objs[i].key == s.book.objs[i].key
            && Progress(s.book.objs[i].settlement) <= Progress(b.objs[i].settlement)
            && Recipient(b.objs[i]) == Recipient(s.book.objs[i])
            && (s.book.objs[i].settlement == SettledOut ==> forall c :: !IsDue(b.objs[i], c))
  {
    hide Sturdy, Apply;
    if steps != [] {
      var init, last := steps[..|steps| - 1], steps[|steps| - 1];
      SettlementOnlyAdvances(s, init, i);
      var t := Run(s, init);
      StepDeals(t, last);
      StepSturdy(t, last);
    }
  }

  /* The exact condition over runs */

  function PaidItemsOf(c: Name): SettlementRun -> int
  {
    (r: SettlementRun) => if r.cred == c && r.total > 0 then r.itemCount else 0
  }

  /** The runs that paid something account for the settled-out collections, in every case. */
  predicate PaidOkAt(b: Book, c: Name)
  {
    && SumBy(b.runs, PaidFrom(c)) == SumBy(b.objs, OutTotalOf(c))
    && SumBy(b.runs, PaidItemsOf(c)) == SumBy(b.objs, OutCountOf(c))
  }

  ghost predicate PaidOk(b: Book)
  {
    && (forall c :: PaidOkAt(b, c))
    && (forall i :: 0 <= i < |b.runs| && b.runs[i].itemCount == 0 ==> b.runs[i].total == 0)
  }

  /** A run that paid what it counts: something, or nothing because nothing was due. */
  predicate Honest(r: SettlementRun) { r.total > 0 || r.itemCount == 0 }

  lemma SettlePaidAt(b: Book, cred: Name, reference: Name, c: Name)
    requires PaidOkAt(b, c)
    ensures PaidOkAt(SettleNow(b, cred, reference).book, c)
  {
    hide SumBy, DueTotal, DueCount, PayOutAll, SettleNow, Records;
    SettleDoes(b, cred, reference);
    var run := SettlementRun(b.serial + 1, reference, cred, DueCount(b.objs, cred), DueTotal(b.objs, cred));
    SumAppend(b.runs, run, PaidFrom(c));
    SumAppend(b.runs, run, PaidItemsOf(c));
    PaidOutTotal(b.objs, cred, c);
    PaidOutCount(b.objs, cred, c);
  }

  lemma SettlePaid(b: Book, cred: Name, reference: Name)
    requires PaidOk(b)
    ensures PaidOk(SettleNow(b, cred, reference).book)
  {
    hide PaidOkAt, SettleNow, DueTotal, DueCount, Records;
    forall c ensures PaidOkAt(SettleNow(b, cred, reference).book, c) {
      assert PaidOkAt(b, c);
      SettlePaidAt(b, cred, reference, c);
    }
    SettleDoes(b, cred, reference);
    NothingDue(b.objs, cred);
  }

  lemma DealsPaid(b: Book, c: Book)
    requires PaidOk(b) && SameDeals(b, c)
    ensures PaidOk(c)
  {
    hide SumBy;
    forall w ensures PaidOkAt(c, w) {
      assert PaidOkAt(b, w);
      OutSame(b.objs, c.objs, OutTotalOf(w));
      OutSame(b.objs, c.objs, OutCountOf(w));
    }
  }

  lemma {:induction false} RunPaid(c: Config, now: nat, steps: seq<Step>)
    ensures PaidOk(Run(Fresh(c, now), steps).book)
  {
    hide PaidOk, Sturdy, Apply, SameDeals, SettleNow, Settling;
    if steps == [] {
      FreshPaid(c);
    } else {
      var init, last := steps[..|steps| - 1], steps[|steps| - 1];
      var s := Run(Fresh(c, now), init);
      RunSturdy(c, now, init);
      RunPaid(c, now, init);
      StepPaid(s, last);
    }
  }

  lemma FreshPaid(c: Config)
    ensures PaidOk(FreshBook(c))
  {
  }

  lemma StepPaid(s: State, step: Step)
    requires Sturdy(s) && PaidOk(s.book)
    ensures PaidOk(Apply(s, step).book)
  {
    hide PaidOk, Sturdy, SameDeals, SettleNow, ApplyPost, ApplyAdvance, ApplyFire, ApplyFinish, SetBalance, EnsureWallet;
    if step.Reset? {
      FreshPaid(step.config);
    } else if Settling(s, step) {
      SettlingStep(s, step);
      SettlePaid(s.book, step.cred, step.body.reference);
    } else {
      StepTerms(s, step);
      DealsPaid(s.book, Apply(s, step).book);
    }
  }

  /** Runs and settled-out collections are in step exactly if every run is honest. */
  lemma HonestRunsAddUp(b: Book)
    requires PaidOk(b)
    ensures RunsOk(b) <==> forall i :: 0 <= i < |b.runs| ==> Honest(b.runs[i])
  {
    hide SumBy;
    if forall i :: 0 <= i < |b.runs| ==> Honest(b.runs[i]) {
      forall c ensures RunsOkAt(b, c) {
        assert PaidOkAt(b, c);
        SumEqual(b.runs, TotalOf(c), PaidFrom(c));
        SumEqual(b.runs, ItemsOf(c), PaidItemsOf(c));
      }
    } else {
      var i :| 0 <= i < |b.runs| && !Honest(b.runs[i]);
      var c := b.runs[i].cred;
      assert PaidOkAt(b, c);
      SumMore(b.runs, i, ItemsOf(c), PaidItemsOf(c));
      assert !RunsOkAt(b, c);
    }
  }

  /** A measure that is nowhere less and somewhere more sums to more. */
  lemma {:induction false} SumMore<T>(s: seq<T>, i: nat, f: T -> int, g: T -> int)
    requires i < |s| && f(s[i]) > g(s[i]) && forall j :: 0 <= j < |s| ==> f(s[j]) >= g(s[j])
    ensures SumBy(s, f) > SumBy(s, g)
  {
    if i == |s| - 1 {
      SumNotLess(s[..|s| - 1], f, g);
    } else {
      SumMore(s[..|s| - 1], i, f, g);
    }
  }

  lemma {:induction false} SumNotLess<T>(s: seq<T>, f: T -> int, g: T -> int)
    requires forall j :: 0 <= j < |s| ==> f(s[j]) >= g(s[j])
    ensures SumBy(s, f) >= SumBy(s, g)
  {
    if s != [] { SumNotLess(s[..|s| - 1], f, g); }
  }

  /** In every run: a credential's settlement runs add up to its settled-out collections, in total and in
      number, exactly if no run counted items that netted to nothing or less. */
  lemma RunsAddUpExactly(c: Config, now: nat, steps: seq<Step>)
    ensures var b := Run(Fresh(c, now), steps).book;
            RunsOk(b) <==> forall i :: 0 <= i < |b.runs| ==> Honest(b.runs[i])
  {
    RunPaid(c, now, steps);
    hide *;
    HonestRunsAddUp(Run(Fresh(c, now), steps).book);
  }

  /* Who overspends */

  /** The step credits a collection less than nothing, and the wallet and what was settled out of it do not
      make up for that. */
  predicate Overdraws(s: State, step: Step)
  {
    && step.Fire? && IsNext(s.timers, step.timer) && step.at >= s.now && step.at >= s.timers[step.timer].due
    && s.timers[step.timer].epoch == s.epoch && CreditOverdraws(s.book, s.timers[step.timer].act)
  }

  predicate CreditOverdraws(b: Book, act: Act)
  {
    && act.Final? && act.obj < |b.objs| && b.objs[act.obj].key.kind == Collection
    && b.objs[act.obj].outcome == Succeeds
    && var t := b.objs[act.obj];
       EnsureWallet(b, t.key.cred).wallets[t.key.cred].balance + Paid(b, t.key.cred) + Recipient(t) < 0
  }

  /** Crediting a collection leaves its wallet solvent exactly if balance, what was settled out and the
      recipient amount are together not negative. */
  lemma CreditSolventAt(b: Book, i: nat, half: nat, w: Name)
    requires i < |b.objs| && b.objs[i].key.kind == Collection && b.objs[i].outcome == Succeeds
    requires SolventAt(b, w)
    ensures SolventAt(RunFinal(b, i, half).0, w) <==> !(w == b.objs[i].key.cred && CreditOverdraws(b, Final(i, half)))
  {
    hide SumBy;
    EnsureSolventAt(b, b.objs[i].key.cred, w);
  }

  lemma ActSolvent(b: Book, act: Act)
    requires act.obj < |b.objs| && FixedTx(b.objs[act.obj]) && Ready(b.objs[act.obj], act) && Solvent(b)
    ensures Solvent(RunAct(b, act).0) <==> !CreditOverdraws(b, act)
  {
    var t := b.objs[act.obj];
    if act.Final? && t.key.kind == Collection && t.outcome == Succeeds {
      hide SolventAt, RunFinal, CreditOverdraws;
      forall w ensures SolventAt(RunAct(b, act).0, w) <==> !(w == t.key.cred && CreditOverdraws(b, act)) {
        assert SolventAt(b, w);
        CreditSolventAt(b, act.obj, act.half, w);
      }
      assert SolventAt(RunAct(b, act).0, t.key.cred) <==> !CreditOverdraws(b, act);
    } else {
      ActSteady(b, act);
      SteadySolvent(b, RunAct(b, act).0);
      hide RunAct, Solvent, Steady;
    }
  }

  lemma SteadySolvent(b: Book, c: Book)
    requires Lasting(b, c) && Solvent(b)
    ensures Solvent(c)
  {
  }

  lemma ActSteady(b: Book, act: Act)
    requires act.obj < |b.objs| && FixedTx(b.objs[act.obj]) && Ready(b.objs[act.obj], act)
    requires !(act.Final? && b.objs[act.obj].key.kind == Collection && b.objs[act.obj].outcome == Succeeds)
    ensures Lasting(b, RunAct(b, act).0)
  {
    hide Lasting, SetStatus;
    var t := b.objs[act.obj];
    if act.Final? && t.key.kind == Collection {
      SteadySame(b, b);
      var reason := if t.outcome == FailsOnPin then WrongPin else Declined;
      SteadyStatus(b, b, act.obj, t.(status := Failed, failure := Some(reason), completed := true));
    } else {
      SteadyAct(b, act);
      hide RunAct;
    }
  }

  /** A step of a state in which every wallet is solvent leaves every wallet solvent, exactly if it does not
      credit a collection beyond what its wallet makes up for. Debits and settlements never overspend. */
  lemma SolventExactly(s: State, step: Step)
    requires Sturdy(s) && Solvent(s.book) && !step.Reset?
    ensures Solvent(Apply(s, step).book) <==> !Overdraws(s, step)
  {
    hide Sturdy, SettleNow, ApplyPost, ApplyAdvance, ApplyFinish, ApplyFire, SetBalance, EnsureWallet, Solvent, CreditOverdraws;
    if step.Fire? {
      FireSolvent(s, step.timer, step.at);
    } else if Settling(s, step) {
      SettlingStep(s, step);
      SettleSolvent(s.book, step.cred, step.body.reference);
    } else {
      SturdyParts(s);
      hide Ground, Balanced, Fixed, Timed;
      StepSteady(s, step);
      SteadySolvent(s.book, Apply(s, step).book);
    }
  }

  lemma FireSolvent(s: State, j: nat, at: nat)
    requires Sturdy(s) && Solvent(s.book)
    ensures Solvent(ApplyFire(s, j, at).book) <==> !Overdraws(s, Fire(j, at))
  {
    SturdyParts(s);
    hide Sturdy, Ground, Balanced, Timed, RunAct, Solvent, CreditOverdraws, FixedTx, Ready;
    if IsNext(s.timers, j) && s.timers[j].epoch == s.epoch {
      TimerReady(s, j);
      ActSolvent(s.book, s.timers[j].act);
    }
  }
}
