/** Payout batches: a batch leaves the same books as submitting its items one by one and ignoring the
    refusals, answers one result per item in order, and once finished is answered from memory for good. */
module Batches {
  import opened Money
  import opened Domain
  import opened Operations
  import opened Accounting
  import opened BookInvariants
  import opened Shapes
  import opened Protocol
  import opened Segments
  import opened Groundwork
  import opened Solvency
  import opened Settlements
  import opened Duplicates
  import opened Idempotency
  import opened Paging

  /** What a single payout comes to when nothing else runs in its gap. */
  datatype Bulk = Bulk(book: Book, later: seq<Later>, results: seq<ItemResult>)

  function ResultsOf(item: Item): seq<ItemResult> { if item.Have? then [item.result] else [] }

  function PayoutNow(b: Book, cred: Name, r: PayoutRequest): Bulk
  {
    var start := StartPayout(b, cred, r);
    if start.out.Await? && start.out.obj < |start.book.objs| then
      var end := Resume(start.book, start.out.obj);
      Bulk(end.book, start.later + end.later, ResultsOf(ItemOf(end.book, r.reference, end.out)))
    else Bulk(start.book, start.later, ResultsOf(ItemOf(start.book, r.reference, start.out)))
  }

  /** The payouts one after the other, refusals ignored. */
  function Each(b: Book, cred: Name, items: seq<PayoutRequest>): Bulk
    decreases |items|
  {
    if items == [] then Bulk(b, [], [])
    else
      var one := PayoutNow(b, cred, items[0]);
      var more := Each(one.book, cred, items[1..]);
      Bulk(more.book, one.later + more.later, one.results + more.results)
  }

  lemma PayoutStarts(b: Book, cred: Name, r: PayoutRequest)
    ensures var s := StartPayout(b, cred, r);
            && s.later == []
            && (s.out.Await? ==>
                  && s.out.obj == |b.objs| && s.out.obj < |s.book.objs|
                  && s.book.objs[s.out.obj].key == TxKey(Payout, cred, r.reference)
                  && Resume(s.book, s.out.obj).out.Done? && Resume(s.book, s.out.obj).out.reply.TxReply?)
  {
    hide ParseAmount, Fee, Hold;
    var amount := ParseAmount(r.amount);
    if amount.Some? {
      var t := NewTx(b, TxKey(Payout, cred, r.reference), amount.value, Fee(amount.value, b.config.feeRate),
                     PayoutBody(r), r.party, FromWallet);
      HoldAdds(b, t);
      if Hold(b, t).out.Await? { ResumeReplies(Hold(b, t).book, |b.objs|); }
      hide Resume;
    }
  }

  lemma HoldAdds(b: Book, t: Tx)
    requires t.key.kind != Collection
    ensures var s := Hold(b, t);
            && s.later == [] && (!s.out.Await? ==> s.out.Fail?)
            && (s.out.Await? ==> s.out.obj == |b.objs| && s.book.objs == b.objs + [t])
  {
    hide Debit;
    if CanDebit(Draw(b), t.key.cred, Pays(t)) {
      DebitPlain(Draw(b), t.key.cred, Pays(t), t.key.reference, EntryOut(t.key.kind), t.key.kind != Transfer);
    }
  }

  lemma ResumeReplies(b: Book, i: nat)
    requires i < |b.objs| && b.objs[i].key.kind == Payout
    ensures Resume(b, i).out.Done? && Resume(b, i).out.reply.TxReply?
  {
    hide Record, EmitTx;
  }

  lemma PayoutNowResult(b: Book, cred: Name, r: PayoutRequest)
    ensures |PayoutNow(b, cred, r).results| == 1 && PayoutNow(b, cred, r).results[0].reference == r.reference
  {
    PayoutStarts(b, cred, r);
    hide StartPayout, Resume;
  }

  /** One result per item, in the order of the items. */
  lemma {:induction false} EachInOrder(b: Book, cred: Name, items: seq<PayoutRequest>)
    ensures var e := Each(b, cred, items);
            && |e.results| == |items|
            && forall k :: 0 <= k < |items| ==> e.results[k].reference == items[k].reference
    decreases |items|
  {
    hide PayoutNow;
    if items != [] {
      PayoutNowResult(b, cred, items[0]);
      EachInOrder(PayoutNow(b, cred, items[0]).book, cred, items[1..]);
    }
  }

  /* Schedules */

  lemma {:induction false} ScheduleConcat(now: nat, epoch: nat, a: seq<Later>, b: seq<Later>)
    ensures Schedule(now, epoch, a + b) == Schedule(now, epoch, a) + Schedule(now, epoch, b)
  {
    if b == [] {
      assert a + b == a;
    } else {
      ScheduleConcat(now, epoch, a, b[..|b| - 1]);
      assert (a + b)[..|a + b| - 1] == a + b[..|b| - 1];
    }
  }

  /** The call ran on from here to these books, timers and phase. */
  function Ended(s: State, n: nat, book: Book, later: seq<Later>, phase: Phase): State
    requires n < |s.calls|
  {
    SetPhase(Absorb(s, Segment(book, later, phase)), n, phase)
  }

  lemma EndedThen(s: State, n: nat, b1: Book, l1: seq<Later>, p1: Phase, b2: Book, l2: seq<Later>, p2: Phase)
    requires n < |s.calls|
    ensures Ended(Ended(s, n, b1, l1, p1), n, b2, l2, p2) == Ended(s, n, b2, l1 + l2, p2)
  {
    ScheduleConcat(s.now, s.epoch, l1, l2);
  }

  predicate Advances(steps: seq<Step>, n: nat) { forall k :: 0 <= k < |steps| ==> steps[k] == Advance(n) }

  lemma AdvanceEnds(s: State, n: nat)
    requires n < |s.calls|
    ensures var g := NextSegment(s.book, s.calls[n]);
            Apply(s, Advance(n)) == Ended(s, n, g.book, g.later, g.phase)
  {
    hide NextSegment;
  }

  /** Working through the rest of a batch, from the segment that takes up its next item. */
  lemma {:induction false} BatchRunsOn(s: State, n: nat, results: seq<ItemResult>, rest: seq<PayoutRequest>)
    returns (steps: seq<Step>)
    requires n < |s.calls| && s.calls[n].body.BatchBody?
    ensures Advances(steps, n)
    ensures var c := s.calls[n];
            var g := NextItem(s.book, c.cred, c.body, results, rest);
            var e := Each(s.book, c.cred, rest);
            var f := BatchFinish(e.book, c.cred, c.body, results + e.results);
            Run(Ended(s, n, g.book, g.later, g.phase), steps) == Ended(s, n, f.book, e.later, Returned(f.out.reply))
    decreases |rest|
  {
    hide StartPayout, Resume, Apply, BatchFinish, Ended;
    var c := s.calls[n];
    if rest == [] {
      steps := [];
      FinishDone(s.book, c.cred, c.body, results);
      assert results + [] == results;
    } else {
      var s1, x, to := FirstItem(s, n, results, rest);
      EndedCall(s, n, PayoutNow(s.book, c.cred, rest[0]).book, PayoutNow(s.book, c.cred, rest[0]).later,
                InBatch(results, Have(x), rest[1..]));
      AdvanceEnds(s1, n);
      var on := BatchRunsOn(s1, n, results + [x], rest[1..]);
      steps := to + [Advance(n)] + on;
      var p := PayoutNow(s.book, c.cred, rest[0]);
      var e := Each(p.book, c.cred, rest[1..]);
      FinishDone(e.book, c.cred, c.body, results + [x] + e.results);
      RunFurther(s, n, results, rest, s1, x, to, on);
    }
  }

  lemma FinishDone(b: Book, cred: Name, r: Body, results: seq<ItemResult>)
    requires r.BatchBody?
    ensures BatchFinish(b, cred, r, results).out.Done? && BatchFinish(b, cred, r, results).later == []
  {
  }

  lemma EndedCall(s: State, n: nat, b: Book, later: seq<Later>, phase: Phase)
    requires n < |s.calls|
    ensures var t := Ended(s, n, b, later, phase);
            && |t.calls| == |s.calls| && t.calls[n] == s.calls[n].(phase := phase) && t.book == b
  {
  }

  /** Taking up the next item and bringing it to its result. */
  lemma FirstItem(s: State, n: nat, results: seq<ItemResult>, rest: seq<PayoutRequest>)
    returns (t: State, x: ItemResult, steps: seq<Step>)
    requires n < |s.calls| && s.calls[n].body.BatchBody? && rest != []
    ensures Advances(steps, n)
    ensures var c := s.calls[n];
            var g := NextItem(s.book, c.cred, c.body, results, rest);
            var p := PayoutNow(s.book, c.cred, rest[0]);
            && p.results == [x]
            && t == Ended(s, n, p.book, p.later, InBatch(results, Have(x), rest[1..]))
            && Run(Ended(s, n, g.book, g.later, g.phase), steps) == t
  {
    hide StartPayout, Resume, Apply, Ended, Schedule;
    var c, r := s.calls[n], rest[0];
    var start := StartPayout(s.book, c.cred, r);
    var g := NextItem(s.book, c.cred, c.body, results, rest);
    PayoutStarts(s.book, c.cred, r);
    PayoutNowResult(s.book, c.cred, r);
    x := PayoutNow(s.book, c.cred, r).results[0];
    var t0 := Ended(s, n, g.book, g.later, g.phase);
    EndedCall(s, n, g.book, g.later, g.phase);
    if start.out.Await? {
      steps := [Advance(n)];
      OneStep(t0, Advance(n));
      AdvanceEnds(t0, n);
      var end := Resume(start.book, start.out.obj);
      EndedThen(s, n, g.book, g.later, g.phase, end.book, end.later, InBatch(results, Have(x), rest[1..]));
      t := Apply(t0, Advance(n));
    } else {
      steps := [];
      t := t0;
    }
  }

  lemma RunFurther(s: State, n: nat, results: seq<ItemResult>, rest: seq<PayoutRequest>, s1: State, x: ItemResult,
                   to: seq<Step>, on: seq<Step>)
    requires n < |s.calls| && s.calls[n].body.BatchBody? && rest != []
    requires var c := s.calls[n];
             var g := NextItem(s.book, c.cred, c.body, results, rest);
             var p := PayoutNow(s.book, c.cred, rest[0]);
             && p.results == [x]
             && s1 == Ended(s, n, p.book, p.later, InBatch(results, Have(x), rest[1..]))
             && Run(Ended(s, n, g.book, g.later, g.phase), to) == s1
             && |s1.calls| == |s.calls| && s1.calls[n] == c.(phase := InBatch(results, Have(x), rest[1..])) && s1.book == p.book
    requires var c := s.calls[n];
             var g := NextItem(s1.book, c.cred, c.body, results + [x], rest[1..]);
             var e := Each(s1.book, c.cred, rest[1..]);
             var f := BatchFinish(e.book, c.cred, c.body, results + [x] + e.results);
             && Apply(s1, Advance(n)) == Ended(s1, n, g.book, g.later, g.phase)
             && f.out.Done?
             && Run(Ended(s1, n, g.book, g.later, g.phase), on) == Ended(s1, n, f.book, e.later, Returned(f.out.reply))
    ensures var c := s.calls[n];
            var g := NextItem(s.book, c.cred, c.body, results, rest);
            var e := Each(s.book, c.cred, rest);
            var f := BatchFinish(e.book, c.cred, c.body, results + e.results);
            && f.out.Done?
            && Run(Ended(s, n, g.book, g.later, g.phase), to + [Advance(n)] + on) == Ended(s, n, f.book, e.later, Returned(f.out.reply))
  {
    hide NextItem, PayoutNow, Apply, BatchFinish, Ended, Run;
    var c := s.calls[n];
    var g := NextItem(s.book, c.cred, c.body, results, rest);
    var t0 := Ended(s, n, g.book, g.later, g.phase);
    var p := PayoutNow(s.book, c.cred, rest[0]);
    var more := Each(p.book, c.cred, rest[1..]);
    RunConcat(t0, to + [Advance(n)], on);
    RunStep(t0, to, Advance(n));
    var e := Each(s.book, c.cred, rest);
    assert e == Bulk(more.book, p.later + more.later, [x] + more.results);
    assert results + e.results == results + [x] + more.results;
    var f := BatchFinish(more.book, c.cred, c.body, results + e.results);
    EndedThen(s, n, p.book, p.later, InBatch(results, Have(x), rest[1..]), f.book, more.later, Returned(f.out.reply));
  }

  /* A batch on its own, and its payouts on their own */

  /** The request starts a batch: well-formed, under a new key, with a reference not used before. */
  predicate NewBatch(s: State, cred: Name, key: string, r: Body)
  {
    && GoodKey(key) && IdemKey(cred, key) !in s.idem
    && r.BatchBody? && BatchShape(r) && DistinctReferences(r.items) && (cred, r.reference) !in s.book.batches
  }

  /** Run to its end with nothing in between, a batch comes to each of its items in turn. */
  lemma BatchAlone(s: State, cred: Name, key: string, r: Body, lost: bool) returns (steps: seq<Step>)
    requires NewBatch(s, cred, key, r)
    ensures Advances(steps, |s.calls|)
    ensures var e := Each(s.book, cred, r.items);
            var f := BatchFinish(e.book, cred, r, e.results);
            var t := Run(Apply(s, PostCall(cred, key, PayoutBatches, r, false, lost)), steps);
            && t.book == f.book && t.timers == s.timers + Schedule(s.now, s.epoch, e.later)
            && f.out.Done? && t.calls == s.calls + [Call(cred, key, r, true, Returned(f.out.reply))]
            && t.idem == s.idem[IdemKey(cred, key) := Running(r)]
  {
    hide NextItem, Each, BatchFinish, Run;
    var n := |s.calls|;
    var s0 := Log(s.(idem := s.idem[IdemKey(cred, key) := Running(r)]), Call(cred, key, r, true, Broke));
    var g := NextItem(s.book, cred, r, [], r.items);
    steps := BatchRunsOn(s0, n, [], r.items);
    var e := Each(s.book, cred, r.items);
    assert [] + e.results == e.results;
    FinishDone(e.book, cred, r, e.results);
    assert Apply(s, PostCall(cred, key, PayoutBatches, r, false, lost)) == Ended(s0, n, g.book, g.later, g.phase);
  }

  /** The same payouts posted one by one, each under its own key and run to its end. */
  function Singles(n: nat, cred: Name, items: seq<PayoutRequest>, keys: seq<string>): seq<Step>
    requires |keys| == |items|
    decreases |items|
  {
    if items == [] then []
    else
      [PostCall(cred, keys[0], Payouts, PayoutBody(items[0]), false, false)] + [Advance(n)]
        + Singles(n + 1, cred, items[1..], keys[1..])
  }

  predicate NewKeys(s: State, cred: Name, keys: seq<string>)
  {
    && (forall i :: 0 <= i < |keys| ==> GoodKey(keys[i]) && IdemKey(cred, keys[i]) !in s.idem)
    && (forall i, j :: 0 <= i < j < |keys| ==> keys[i] != keys[j])
  }

  /** One payout posted and run to its end. */
  lemma SingleAlone(s: State, cred: Name, key: string, r: PayoutRequest)
    requires GoodKey(key) && IdemKey(cred, key) !in s.idem
    ensures var t := Apply(Apply(s, PostCall(cred, key, Payouts, PayoutBody(r), false, false)), Advance(|s.calls|));
            var p := PayoutNow(s.book, cred, r);
            && t.book == p.book && t.timers == s.timers + Schedule(s.now, s.epoch, p.later)
            && |t.calls| == |s.calls| + 1 && t.now == s.now && t.epoch == s.epoch
            && t.idem == s.idem[IdemKey(cred, key) := Running(PayoutBody(r))]
  {
    hide *;
    var s1 := Apply(s, PostCall(cred, key, Payouts, PayoutBody(r), false, false));
    SinglePosted(s, cred, key, r);
    SingleAdvanced(s1, |s.calls|);
    PayoutNowSteps(s.book, cred, r);
  }

  lemma PayoutNowSteps(b: Book, cred: Name, r: PayoutRequest)
    ensures var start, p := StartPayout(b, cred, r), PayoutNow(b, cred, r);
            && (start.out.Await? ==>
                  && start.out.obj < |start.book.objs|
                  && p.book == Resume(start.book, start.out.obj).book && p.later == Resume(start.book, start.out.obj).later)
            && (!start.out.Await? ==> p.book == start.book && p.later == [])
  {
    hide StartPayout, Resume;
    PayoutStarts(b, cred, r);
  }

  lemma SinglePosted(s: State, cred: Name, key: string, r: PayoutRequest)
    requires GoodKey(key) && IdemKey(cred, key) !in s.idem
    ensures var t, start := Apply(s, PostCall(cred, key, Payouts, PayoutBody(r), false, false)), StartPayout(s.book, cred, r);
            && t.book == start.book && t.epoch == s.epoch && t.now == s.now && t.timers == s.timers
            && t.idem == s.idem[IdemKey(cred, key) := Running(PayoutBody(r))]
            && |t.calls| == |s.calls| + 1
            && if start.out.Await? then t.calls[|s.calls|].phase == Suspended(start.out.obj)
               else !t.calls[|s.calls|].phase.Suspended? && !t.calls[|s.calls|].phase.InBatch?
  {
    hide StartPayout, Schedule;
    PayoutStarts(s.book, cred, r);
    RunNone(s);
  }

  lemma SingleAdvanced(s: State, i: nat)
    requires i < |s.calls|
    ensures var t, c := Apply(s, Advance(i)), s.calls[i];
            && |t.calls| == |s.calls| && t.now == s.now && t.epoch == s.epoch && t.idem == s.idem
            && (c.phase.Suspended? && c.phase.obj < |s.book.objs| ==>
                  t.book == Resume(s.book, c.phase.obj).book
                  && t.timers == s.timers + Schedule(s.now, s.epoch, Resume(s.book, c.phase.obj).later))
            && (!c.phase.Suspended? && !c.phase.InBatch? ==>
                  t.book == s.book && t.timers == s.timers + Schedule(s.now, s.epoch, []))
  {
    hide Resume, NextItem;
    RunNone(s);
    hide Schedule;
  }

  lemma {:induction false} OneByOne(s: State, cred: Name, items: seq<PayoutRequest>, keys: seq<string>)
    requires |keys| == |items| && NewKeys(s, cred, keys)
    ensures var t, e := Run(s, Singles(|s.calls|, cred, items, keys)), Each(s.book, cred, items);
            t.book == e.book && t.timers == s.timers + Schedule(s.now, s.epoch, e.later)
    decreases |items|
  {
    hide PayoutNow, Apply, NewKeys, Run, Schedule;
    if items == [] {
      RunNone(s);
    } else {
      var t := AfterSingle(s, cred, keys[0], items[0]);
      SingleLeavesKeys(s, cred, items[0], keys);
      OneByOne(t, cred, items[1..], keys[1..]);
      SinglesRun(s, cred, items, keys);
      ScheduleConcat(s.now, s.epoch, PayoutNow(s.book, cred, items[0]).later, Each(t.book, cred, items[1..]).later);
    }
  }

  function AfterSingle(s: State, cred: Name, key: string, r: PayoutRequest): State
  {
    Apply(Apply(s, PostCall(cred, key, Payouts, PayoutBody(r), false, false)), Advance(|s.calls|))
  }

  lemma SingleLeavesKeys(s: State, cred: Name, r: PayoutRequest, keys: seq<string>)
    requires keys != [] && NewKeys(s, cred, keys)
    ensures var t, p := AfterSingle(s, cred, keys[0], r), PayoutNow(s.book, cred, r);
            && NewKeys(t, cred, keys[1..]) && t.book == p.book && t.timers == s.timers + Schedule(s.now, s.epoch, p.later)
            && |t.calls| == |s.calls| + 1 && t.now == s.now && t.epoch == s.epoch
  {
    hide PayoutNow, Apply, IdemKey, Schedule;
    SingleAlone(s, cred, keys[0], r);
    var t := AfterSingle(s, cred, keys[0], r);
    forall i | 0 <= i < |keys[1..]| ensures GoodKey(keys[1..][i]) && IdemKey(cred, keys[1..][i]) !in t.idem {
      KeysDiffer(cred, keys[0], keys[1..][i]);
    }
  }

  lemma SinglesRun(s: State, cred: Name, items: seq<PayoutRequest>, keys: seq<string>)
    requires |keys| == |items| && items != []
    ensures Run(s, Singles(|s.calls|, cred, items, keys)) ==
            Run(AfterSingle(s, cred, keys[0], items[0]), Singles(|s.calls| + 1, cred, items[1..], keys[1..]))
  {
    hide Apply, Run;
    var post := PostCall(cred, keys[0], Payouts, PayoutBody(items[0]), false, false);
    RunConcat(s, [post] + [Advance(|s.calls|)], Singles(|s.calls| + 1, cred, items[1..], keys[1..]));
    RunStep(s, [post], Advance(|s.calls|));
    OneStep(s, post);
  }

  lemma RunNone(s: State)
    ensures Run(s, []) == s && s.timers + Schedule(s.now, s.epoch, []) == s.timers
  {
  }

  /** From any state: a batch run to its end and its items submitted one by one leave the same wallets,
      payments, ledger, events, volumes and timers; the batch only draws its own number and is remembered.
      Its reply has one result per item, in order. */
  lemma BatchIsItsItems(s: State, cred: Name, key: string, r: Body, lost: bool, keys: seq<string>)
    returns (steps: seq<Step>)
    requires NewBatch(s, cred, key, r) && |keys| == |r.items| && NewKeys(s, cred, keys)
    ensures Advances(steps, |s.calls|)
    ensures var t := Run(Apply(s, PostCall(cred, key, PayoutBatches, r, false, lost)), steps);
            var u := Run(s, Singles(|s.calls|, cred, r.items, keys));
            && t.book == u.book.(serial := u.book.serial + 1, batches := t.book.batches)
            && t.timers == u.timers
            && |t.calls| == |s.calls| + 1 && t.calls[|s.calls|].phase.Returned?
            && var reply := t.calls[|s.calls|].phase.reply;
               && t.book.batches == u.book.batches[(cred, r.reference) := Batch(r, reply)]
               && reply.BatchReply? && |reply.items| == |r.items|
               && forall k :: 0 <= k < |r.items| ==> reply.items[k].reference == r.items[k].reference
  {
    hide Apply, Run, Each;
    steps := BatchAlone(s, cred, key, r, lost);
    OneByOne(s, cred, r.items, keys);
    EachInOrder(s.book, cred, r.items);
  }

  /* Which steps remember a batch */

  /** The batch a step closes: the call has the result of its last item. */
  function Closes(s: State, step: Step): Option<(Name, Name)>
  {
    if step.Advance? && step.call < |s.calls| then CallCloses(s.calls[step.call]) else None
  }

  function CallCloses(c: Call): Option<(Name, Name)>
  {
    if c.phase.InBatch? && c.phase.item.Have? && c.phase.rest == [] && c.body.BatchBody?
    then Some((c.cred, c.body.reference))
    else None
  }

  /** The batch was given the next serial number and is remembered under its credential and reference. */
  predicate Remembers(b: Book, c: Book, k: (Name, Name))
  {
    && k in c.batches && c.batches[k].reply.BatchReply? && c.batches[k].reply.batchId == b.serial + 1
    && c.serial == b.serial + 1 && c.batches == b.batches[k := c.batches[k]]
  }

  lemma StartBatches(b: Book, cred: Name, endpoint: Endpoint, body: Body)
    ensures Start(b, cred, endpoint, body).book.batches == b.batches
  {
    hide Steady, CreateCollection, StartPayout, StartUtility, StartTransfer, SettleNow;
    match body {
      case CollectionBody(_, _, _, _) =>
        SteadyCollection(b, cred, body);
        SteadyBatches(b, CreateCollection(b, cred, body).book);
      case PayoutBody(r) =>
        SteadyPayout(b, cred, r);
        SteadyBatches(b, StartPayout(b, cred, r).book);
      case UtilityBody(_, _, _, _, _, _, _) =>
        SteadyUtility(b, cred, body);
        SteadyBatches(b, StartUtility(b, cred, body).book);
      case TransferBody(_, _, _, _) =>
        SteadyTransfer(b, cred, body);
        SteadyBatches(b, StartTransfer(b, cred, body).book);
      case SettleBody(reference) => SettleDoes(b, cred, reference);
      case _ =>
    }
  }

  lemma SteadyBatches(b: Book, c: Book)
    requires Steady(b, c)
    ensures c.batches == b.batches
  {
  }

  lemma FirstBatches(b: Book, cred: Name, endpoint: Endpoint, body: Body)
    ensures FirstSegment(b, cred, endpoint, body).book.batches == b.batches
  {
    hide Start, Lasting, StartPayout, BatchFinish;
    if endpoint == PayoutBatches && body.BatchBody? {
      ItemSteady(b, cred, body, [], body.items);
    } else {
      StartBatches(b, cred, endpoint, body);
    }
  }

  lemma ResumeBatches(b: Book, i: nat)
    requires i < |b.objs|
    ensures Resume(b, i).book.batches == b.batches
  {
    SteadyResume(b, i);
    hide Resume, Steady;
    SteadyBatches(b, Resume(b, i).book);
  }

  lemma NextBatches(b: Book, c: Call)
    requires Waits(c.phase).Holds? ==> Waits(c.phase).obj < |b.objs|
    ensures var d, k := NextSegment(b, c).book, CallCloses(c);
            if k.Some? then Remembers(b, d, k.value) else d.batches == b.batches
  {
    hide Resume, StartPayout, Lasting;
    match c.phase
    case Suspended(obj) => ResumeBatches(b, obj);
    case InBatch(_, Holding(obj), _) => ResumeBatches(b, obj);
    case InBatch(results, Have(x), rest) =>
      if c.body.BatchBody? { ItemSteady(b, c.cred, c.body, results + [x], rest); }
    case _ =>
  }

  lemma AdvanceBatches(s: State, i: nat)
    requires Ground(s)
    ensures var b, c, k := s.book, Apply(s, Advance(i)).book, Closes(s, Advance(i));
            if k.Some? then Remembers(b, c, k.value) else c.batches == b.batches
  {
    AdvanceIsApplied(s, i);
    GroundParts(s);
    hide Ground, CallsOk, Grounded, Apply, NextSegment, Remembers, CallCloses;
    if i < |s.calls| {
      if Waits(s.calls[i].phase).Holds? { WaitingUnregistered(s, i); }
      NextBatches(s.book, s.calls[i]);
    }
  }

  /** A step remembers the batch it closes, and no step changes the memory otherwise. */
  lemma StepBatches(s: State, step: Step)
    requires Ground(s) && !step.Reset?
    ensures var b, c, k := s.book, Apply(s, step).book, Closes(s, step);
            if k.Some? then Remembers(b, c, k.value) else c.batches == b.batches
  {
    hide Ground, Remembers, FirstSegment, SetBalance, EnsureWallet, ApplyFire, ApplyAdvance, IdemKey, Steady;
    match step
    case PostCall(cred, key, endpoint, body, crash, lost) => FirstBatches(s.book, cred, endpoint, body);
    case Advance(i) => AdvanceBatches(s, i);
    case Fire(j, at) => FireKeepsBatches(s, j, at);
    case Touch(cred) => EnsureRuns(s.book, cred);
    case Balance(cred, amount) =>
      SteadySetBalance(s.book, cred, amount);
      SteadyBatches(s.book, SetBalance(s.book, cred, amount));
    case _ =>
  }

  lemma FireKeepsBatches(s: State, j: nat, at: nat)
    ensures ApplyFire(s, j, at).book.batches == s.book.batches
  {
    hide RunAct;
    if IsNext(s.timers, j) { ActKept(s.book, s.timers[j].act); }
  }

  /* When a remembered reply is replaced */

  /** Remembered batches carry numbers already given out. */
  predicate BatchIdsOk(b: Book)
  {
    forall k :: k in b.batches ==> b.batches[k].reply.BatchReply? && b.batches[k].reply.batchId <= b.serial
  }

  lemma StepBatchIds(s: State, step: Step)
    requires Ground(s) && BatchIdsOk(s.book)
    ensures BatchIdsOk(Apply(s, step).book)
  {
    if !step.Reset? {
      hide Ground, Apply, Closes;
      StepBatches(s, step);
      SerialOnlyGrows(s, step);
    }
  }

  lemma SerialOnlyGrows(s: State, step: Step)
    requires Ground(s) && !step.Reset?
    ensures Apply(s, step).book.serial >= s.book.serial
  {
    hide Ground, Apply;
    StepGrows(s, step);
  }

  lemma {:induction false} RunBatchIds(c: Config, now: nat, steps: seq<Step>)
    ensures BatchIdsOk(Run(Fresh(c, now), steps).book)
  {
    hide Ground, Apply;
    if steps != [] {
      RunBatchIds(c, now, steps[..|steps| - 1]);
      RunKeepsGround(c, now, steps[..|steps| - 1]);
      StepBatchIds(Run(Fresh(c, now), steps[..|steps| - 1]), steps[|steps| - 1]);
    }
  }

  /** A step replaces a remembered reply exactly if it closes a batch of the same credential and reference. */
  lemma ReplacedExactly(s: State, step: Step, k: (Name, Name))
    requires Ground(s) && BatchIdsOk(s.book) && k in s.book.batches && !step.Reset?
    ensures k in Apply(s, step).book.batches
    ensures Apply(s, step).book.batches[k] == s.book.batches[k] <==> Closes(s, step) != Some(k)
  {
    StepBatches(s, step);
    hide Ground, Apply, Closes;
  }

  /** No call is still working on a batch of this credential and reference. */
  ghost predicate NoneInProgress(s: State, k: (Name, Name))
  {
    forall i :: 0 <= i < |s.calls| && s.calls[i].phase.InBatch? && s.calls[i].body.BatchBody? ==>
      (s.calls[i].cred, s.calls[i].body.reference) != k
  }

  ghost predicate Remembered(s: State, k: (Name, Name), batch: Batch)
  {
    k in s.book.batches && s.book.batches[k] == batch && NoneInProgress(s, k)
  }

  lemma NothingBegins(b: Book, cred: Name, endpoint: Endpoint, body: Body, k: (Name, Name))
    requires k in b.batches
    ensures var g := FirstSegment(b, cred, endpoint, body);
            g.phase.InBatch? && body.BatchBody? ==> (cred, body.reference) != k
  {
    hide Start, StartPayout;
  }

  lemma StepRemembers(s: State, step: Step, k: (Name, Name), batch: Batch)
    requires Ground(s) && !step.Reset? && Remembered(s, k, batch)
    ensures Remembered(Apply(s, step), k, batch)
  {
    StepBatches(s, step);
    StepProgress(s, step, k);
    hide Ground, Apply, Remembers;
  }

  lemma StepProgress(s: State, step: Step, k: (Name, Name))
    requires k in s.book.batches && NoneInProgress(s, k) && !step.Reset?
    ensures NoneInProgress(Apply(s, step), k)
  {
    hide FirstSegment, Resume, StartPayout, BatchFinish, SetBalance, EnsureWallet, ApplyFire, IdemKey;
    match step
    case PostCall(cred, key, endpoint, body, crash, lost) => NothingBegins(s.book, cred, endpoint, body, k);
    case Advance(i) =>
    case Fire(j, at) => FireCalls(s, j, at);
    case _ =>
  }

  lemma FireCalls(s: State, j: nat, at: nat)
    ensures ApplyFire(s, j, at).calls == s.calls
  {
    hide RunAct;
  }

  lemma {:induction false} StaysRemembered(s: State, steps: seq<Step>, k: (Name, Name), batch: Batch)
    requires Ground(s) && NoReset(steps) && Remembered(s, k, batch)
    ensures Ground(Run(s, steps)) && Remembered(Run(s, steps), k, batch)
  {
    hide Ground, Apply, Remembered;
    if steps != [] {
      StaysRemembered(s, steps[..|steps| - 1], k, batch);
      StepRemembers(Run(s, steps[..|steps| - 1]), steps[|steps| - 1], k, batch);
      StepKeepsGround(Run(s, steps[..|steps| - 1]), steps[|steps| - 1]);
    }
  }

  lemma {:induction false} EachGrows(b: Book, cred: Name, items: seq<PayoutRequest>)
    ensures Grown(b, Each(b, cred, items).book)
    decreases |items|
  {
    if items != [] {
      PayoutNowGrows(b, cred, items[0]);
      EachGrows(PayoutNow(b, cred, items[0]).book, cred, items[1..]);
      hide PayoutNow;
    }
  }

  lemma PayoutNowGrows(b: Book, cred: Name, r: PayoutRequest)
    ensures Grown(b, PayoutNow(b, cred, r).book)
  {
    var start := StartPayout(b, cred, r);
    SteadyPayout(b, cred, r);
    if start.out.Await? && start.out.obj < |start.book.objs| { SteadyResume(start.book, start.out.obj); }
    hide StartPayout, Resume, Solvent;
  }

  /** A call at work on a batch can be run to its end, and then its batch is remembered with a fresh number. */
  lemma BatchCloses(s: State, n: nat) returns (steps: seq<Step>)
    requires Ground(s) && n < |s.calls| && s.calls[n].phase.InBatch? && s.calls[n].body.BatchBody?
    ensures Advances(steps, n)
    ensures var c, k := Run(s, steps).book, (s.calls[n].cred, s.calls[n].body.reference);
            && k in c.batches && c.batches[k].reply.BatchReply? && c.batches[k].reply.batchId > s.book.serial
  {
    hide Ground, Run, Apply;
    if s.calls[n].phase.item.Have? {
      steps := BatchClosesFrom(s, n);
    } else {
      HeldItemEnds(s, n);
      steps := BatchClosesFrom(Apply(s, Advance(n)), n);
      RunFirst(s, Advance(n), steps);
      steps := [Advance(n)] + steps;
    }
  }

  lemma HeldItemEnds(s: State, n: nat)
    requires Ground(s) && n < |s.calls| && s.calls[n].phase.InBatch? && s.calls[n].phase.item.Holding?
    ensures var t := Apply(s, Advance(n));
            && n < |t.calls| && t.calls[n].phase.InBatch? && t.calls[n].phase.item.Have?
            && t.calls[n].body == s.calls[n].body && t.calls[n].cred == s.calls[n].cred && t.book.serial >= s.book.serial
  {
    GroundParts(s);
    WaitingUnregistered(s, n);
    AdvanceEnds(s, n);
    var obj := s.calls[n].phase.item.obj;
    SteadyResume(s.book, obj);
    ResumeRepliesAt(s.book, obj);
    var g := NextSegment(s.book, s.calls[n]);
    hide Ground, CallsOk, Grounded, Apply, Resume, Solvent, Ended;
    EndedCall(s, n, g.book, g.later, g.phase);
  }

  lemma ResumeRepliesAt(b: Book, i: nat)
    requires i < |b.objs|
    ensures Resume(b, i).out.Done? && Resume(b, i).out.reply.TxReply?
  {
    hide Record, EmitTx, Credit, EnsureWallet;
  }

  lemma BatchClosesFrom(s: State, n: nat) returns (steps: seq<Step>)
    requires n < |s.calls| && s.calls[n].phase.InBatch? && s.calls[n].phase.item.Have? && s.calls[n].body.BatchBody?
    ensures Advances(steps, n)
    ensures var c, k := Run(s, steps).book, (s.calls[n].cred, s.calls[n].body.reference);
            && k in c.batches && c.batches[k].reply.BatchReply? && c.batches[k].reply.batchId > s.book.serial
  {
    hide NextItem, Each, Apply, Ended, Run;
    var c := s.calls[n];
    var results := c.phase.results + [c.phase.item.result];
    var on := BatchRunsOn(s, n, results, c.phase.rest);
    AdvanceEnds(s, n);
    steps := [Advance(n)] + on;
    RunFirst(s, Advance(n), on);
    var e := Each(s.book, c.cred, c.phase.rest);
    EachGrows(s.book, c.cred, c.phase.rest);
    FinishDone(e.book, c.cred, c.body, results + e.results);
    var f := BatchFinish(e.book, c.cred, c.body, results + e.results);
    EndedCall(s, n, f.book, e.later, Returned(f.out.reply));
  }

  /** A remembered reply stands whatever follows, until a reset, exactly if no other call is at work on a batch
      of the same credential and reference. */
  lemma StandsForeverExactly(s: State, k: (Name, Name))
    requires Ground(s) && BatchIdsOk(s.book) && k in s.book.batches
    ensures NoneInProgress(s, k) <==> forall steps :: NoReset(steps) ==> HoldsReply(Run(s, steps), k, s.book.batches[k])
  {
    if NoneInProgress(s, k) {
      forall steps | NoReset(steps) ensures HoldsReply(Run(s, steps), k, s.book.batches[k]) {
        StaysRemembered(s, steps, k, s.book.batches[k]);
        hide Run, Ground;
      }
    } else {
      var n :| 0 <= n < |s.calls| && s.calls[n].phase.InBatch? && s.calls[n].body.BatchBody?
               && (s.calls[n].cred, s.calls[n].body.reference) == k;
      var steps := BatchCloses(s, n);
      hide Run, Ground;
      assert NoReset(steps);
      assert !HoldsReply(Run(s, steps), k, s.book.batches[k]);
    }
  }

  predicate HoldsReply(s: State, k: (Name, Name), batch: Batch)
  {
    k in s.book.batches && s.book.batches[k] == batch
  }

  /* Resending */

  /** Whoever else is at work on it: sending a remembered batch again under a new key changes neither the books
      nor the timers, and is answered with the reply remembered at that moment, or refused if its body differs. */
  lemma ResentForNothing(s: State, cred: Name, r: Body, key: string, lost: bool)
    requires r.BatchBody? && BatchShape(r) && DistinctReferences(r.items) && (cred, r.reference) in s.book.batches
    requires GoodKey(key) && IdemKey(cred, key) !in s.idem
    ensures var batch := s.book.batches[(cred, r.reference)];
            var u := Apply(s, PostCall(cred, key, PayoutBatches, r, false, lost));
            && u.book == s.book && u.timers == s.timers
            && u.calls == s.calls + [Call(cred, key, r, true,
                 if batch.hash == r then Returned(batch.reply) else Threw(DuplicateReference))]
  {
    hide NextItem;
    assert s.timers + Schedule(s.now, s.epoch, []) == s.timers;
  }

  /** However many calls are at work on a batch at once: in runs that start no payment in its gap, each of its
      payouts takes effect at most once. */
  lemma ItemsPaidOnce(c: Config, now: nat, steps: seq<Step>, cred: Name, items: seq<PayoutRequest>)
    requires NeverDoubles(c, now, steps)
    ensures forall i :: 0 <= i < |items| ==>
      Count(Run(Fresh(c, now), steps).book.effects, TxKey(Payout, cred, items[i].reference)) <= 1
  {
    forall i | 0 <= i < |items|
      ensures Count(Run(Fresh(c, now), steps).book.effects, TxKey(Payout, cred, items[i].reference)) <= 1
    {
      NeverAppliedTwice(c, now, steps, TxKey(Payout, cred, items[i].reference));
      hide Run, NeverDoubles;
    }
  }

  /* The same batch twice at once */

  const OddItem := PayoutRequest(Name("item"), "1.00", "nobody", Name("0"))
  const OddBatch := BatchBody(Name("batch"), [OddItem])

  function Twins(cred: Name): seq<Step>
  {
    [PostCall(cred, "a", PayoutBatches, OddBatch, false, false)] + [PostCall(cred, "b", PayoutBatches, OddBatch, false, false)]
      + [Advance(0)] + [Advance(1)]
  }

  /** One batch sent under two keys, the second before the first is finished: each call is answered with a reply
      of its own, and the second reply replaces the first in memory. No payment is involved. */
  lemma TwoReplies(cred: Name, now: nat)
    ensures var t := Run(Fresh(PlainConfig, now), Twins(cred));
            && |t.calls| == 2 && t.calls[0].phase.Returned? && t.calls[1].phase.Returned?
            && t.calls[0].phase.reply.BatchReply? && t.calls[1].phase.reply.BatchReply?
            && t.calls[0].phase.reply.batchId == 1 && t.calls[1].phase.reply.batchId == 2
            && (cred, Name("batch")) in t.book.batches
            && t.book.batches[(cred, Name("batch"))].reply == t.calls[1].phase.reply
            && t.book.objs == []
  {
    hide Run, Apply, IdemKey;
    var s0 := Fresh(PlainConfig, now);
    var p1 := PostCall(cred, "a", PayoutBatches, OddBatch, false, false);
    var p2 := PostCall(cred, "b", PayoutBatches, OddBatch, false, false);
    OneStep(s0, p1);
    RunStep(s0, [p1], p2);
    RunStep(s0, [p1] + [p2], Advance(0));
    RunStep(s0, [p1] + [p2] + [Advance(0)], Advance(1));
    KeysDiffer(cred, "a", "b");
    TwinStarts(s0, cred, "a");
    var s1 := Apply(s0, p1);
    TwinStarts(s1, cred, "b");
    var s2 := Apply(s1, p2);
    TwinEnds(s2, 0);
    TwinEnds(Apply(s2, Advance(0)), 1);
  }

  /** The odd batch's only item is refused at once, and the call is at its end but one. */
  lemma TwinStarts(s: State, cred: Name, key: string)
    requires GoodKey(key) && IdemKey(cred, key) !in s.idem && (cred, Name("batch")) !in s.book.batches
    ensures var t := Apply(s, PostCall(cred, key, PayoutBatches, OddBatch, false, false));
            && t.book == s.book && t.idem == s.idem[IdemKey(cred, key) := Running(OddBatch)]
            && t.calls == s.calls + [Call(cred, key, OddBatch, true, InBatch([], Have(ItemRefused(Name("item"), InvalidInput)), []))]
  {
    hide ParseAmount, IdemKey;
    assert OddBatch.items == [OddItem] && OddBatch.items[1..] == [];
  }

  lemma TwinEnds(s: State, n: nat)
    requires n < |s.calls| && s.calls[n].body == OddBatch
    requires s.calls[n].phase == InBatch([], Have(ItemRefused(Name("item"), InvalidInput)), [])
    ensures var t, c := Apply(s, Advance(n)), s.calls[n];
            var reply := BatchReply(s.book.serial + 1, Name("batch"), [ItemRefused(Name("item"), InvalidInput)]);
            && t.calls == s.calls[n := c.(phase := Returned(reply))]
            && t.book == s.book.(serial := s.book.serial + 1,
                                 batches := s.book.batches[(c.cred, Name("batch")) := Batch(OddBatch, reply)])
  {
    assert [] + [ItemRefused(Name("item"), InvalidInput)] == [ItemRefused(Name("item"), InvalidInput)];
  }
}
