/** The resolve delays for which the simulator's statuses can be trusted. The clamp on timers lets a payment's
    final timer fire before its half-way one exactly for the delays of which only the half fits it; each promise
    about statuses holds in every run exactly for the other delays. */
module Delays {
  import opened Money
  import opened Domain
  import opened Operations
  import opened BookInvariants
  import opened Shapes
  import opened Protocol
  import opened Groundwork
  import opened Reachability
  import opened Duplicates
  import opened Lifecycle
  import opened Webhooks
  import opened SmallRuns

  datatype Promise = CompletionWhenFinal | EdgesFollowed | QueueLeavesRest | ReceiversAgree

  /** A run keeps a promise. */
  ghost predicate Met(p: Promise, c: Config, now: nat, steps: seq<Step>)
  {
    match p
    case CompletionWhenFinal =>
      var b := Run(Fresh(c, now), steps).book;
      forall i :: 0 <= i < |b.objs| && b.objs[i].registered ==> (b.objs[i].completed <==> IsFinal(b.objs[i]))
    case EdgesFollowed => forall n :: 0 <= n < |steps| ==> EdgesAt(c, now, steps, n)
    case QueueLeavesRest => RestsWhenDrained(Run(Fresh(c, now), steps))
    case ReceiversAgree =>
      forall i: nat, ds, last: nat :: Complete(Run(Fresh(c, now), steps).book, i, ds, last) ==>
        Chosen(Run(Fresh(c, now), steps).book, i, ds)
  }

  /** A step of a run moves every payment along one edge of its status machine at most. */
  ghost predicate EdgesAt(c: Config, now: nat, steps: seq<Step>, n: nat)
    requires n < |steps|
  {
    !steps[n].Reset? ==> AllMove(Run(Fresh(c, now), steps[..n]).book, Run(Fresh(c, now), steps[..n + 1]).book)
  }

  predicate RestsWhenDrained(s: State)
  {
    (forall j :: 0 <= j < |s.timers| ==> s.timers[j].epoch != s.epoch) ==>
      forall i :: 0 <= i < |s.book.objs| && s.book.objs[i].registered ==> AtRest(s.book.objs[i])
  }

  /** Deliveries of a registered collection or payout, its last event among them. */
  ghost predicate Complete(b: Book, i: nat, ds: seq<Delivery>, last: nat)
  {
    && i < |b.objs| && b.objs[i].registered && b.objs[i].key.kind in {Collection, Payout}
    && Signed(ds, b.events) && OnlyAbout(ds, b.events, i, b.objs[i].key.reference)
    && LastAbout(b.events, last, i) && Seen(ds, last)
  }

  /** The receiver chooses the status the API reports. */
  predicate Chosen(b: Book, i: nat, ds: seq<Delivery>)
    requires i < |b.objs|
  {
    Best(Statuses(Unique(ds), b.objs[i].key.reference)) == Some(b.objs[i].status)
  }

  /** A configuration the schema accepts, with this resolve delay. */
  predicate WithDelay(c: Config, ms: nat) { c.resolveDelayMs == ms && 0.0 <= c.feeRate <= 0.5 }

  /** Every configuration of the run has this resolve delay. */
  predicate AllWithDelay(c: Config, steps: seq<Step>, ms: nat)
  {
    && WithDelay(c, ms)
    && forall n :: 0 <= n < |steps| && (steps[n].Patch? || steps[n].Reset?) ==> WithDelay(steps[n].config, ms)
  }

  ghost predicate InEveryRun(ms: nat, p: Promise)
  {
    forall c, now, steps :: AllWithDelay(c, steps, ms) ==> Met(p, c, now, steps)
  }

  /* Delays that keep the two timers in order */

  lemma OrderedMeets(ms: nat, p: Promise, c: Config, now: nat, steps: seq<Step>)
    requires DelaysOrdered(ms) && AllWithDelay(c, steps, ms)
    ensures Met(p, c, now, steps)
  {
    assert WellFormed(c) && StepsWellFormed(steps);
    hide Run, IsFinal, AllWithDelay, StepsWellFormed, WellFormed, EdgesAt, RestsWhenDrained, Complete, Chosen;
    var s := Run(Fresh(c, now), steps);
    match p
    case CompletionWhenFinal =>
      forall i | 0 <= i < |s.book.objs| && s.book.objs[i].registered
        ensures s.book.objs[i].completed <==> IsFinal(s.book.objs[i])
      {
        CompletedExactlyWhenFinal(c, now, steps, i);
      }
    case EdgesFollowed => forall n | 0 <= n < |steps| ensures EdgesAt(c, now, steps, n) { OrderedEdges(c, now, steps, n); }
    case QueueLeavesRest => OrderedRests(c, now, steps);
    case ReceiversAgree =>
      forall i: nat, ds, last: nat | Complete(s.book, i, ds, last) ensures Chosen(s.book, i, ds) {
        OrderedAgrees(c, now, steps, i, ds, last);
      }
  }

  lemma OrderedEdges(c: Config, now: nat, steps: seq<Step>, n: nat)
    requires WellFormed(c) && StepsWellFormed(steps) && n < |steps|
    ensures EdgesAt(c, now, steps, n)
  {
    hide Run, Inv, AllMove, Apply, WellFormed, StepWellFormed;
    assert forall k :: 0 <= k < n ==> steps[..n][k] == steps[k];
    assert steps[..n + 1] == steps[..n] + [steps[n]];
    RunStep(Fresh(c, now), steps[..n], steps[n]);
    RunKeeps(c, now, steps[..n]);
    if !steps[n].Reset? { StepMoves(Run(Fresh(c, now), steps[..n]), steps[n]); }
  }

  lemma OrderedRests(c: Config, now: nat, steps: seq<Step>)
    requires WellFormed(c) && StepsWellFormed(steps)
    ensures RestsWhenDrained(Run(Fresh(c, now), steps))
  {
    RunKeeps(c, now, steps);
    hide Run, Inv, AtRest;
    var s := Run(Fresh(c, now), steps);
    if forall j :: 0 <= j < |s.timers| ==> s.timers[j].epoch != s.epoch {
      forall i | 0 <= i < |s.book.objs| && s.book.objs[i].registered ensures AtRest(s.book.objs[i]) { DrainedAtRest(s, i); }
    }
  }

  lemma OrderedAgrees(c: Config, now: nat, steps: seq<Step>, i: nat, ds: seq<Delivery>, last: nat)
    requires WellFormed(c) && StepsWellFormed(steps) && Complete(Run(Fresh(c, now), steps).book, i, ds, last)
    ensures Chosen(Run(Fresh(c, now), steps).book, i, ds)
  {
    hide Run, Signed, OnlyAbout, LastAbout, Seen, Best, Statuses, Unique;
    WebhooksConverge(c, now, steps, i, ds, last);
  }

  /* Delays that swap them */

  /** Every event, delivered once and in order. */
  function AllDelivered(events: seq<Event>): (ds: seq<Delivery>)
    ensures |ds| == |events|
    ensures forall n :: 0 <= n < |ds| ==> ds[n] == Delivery(events[n].id, true, Some(events[n]), 1, 200)
  {
    seq(|events|, n requires 0 <= n < |events| => Delivery(events[n].id, true, Some(events[n]), 1, 200))
  }

  lemma DeliveredSigned(events: seq<Event>)
    requires forall n :: 0 <= n < |events| ==> events[n].id == n
    ensures Signed(AllDelivered(events), events) && forall e: nat :: e < |events| ==> Seen(AllDelivered(events), e)
  {
    forall e: nat | e < |events| ensures Seen(AllDelivered(events), e) { assert Usable(AllDelivered(events)[e]); }
  }

  /** A collection that was settled before it was dispatched. */
  predicate Swapped(b: Book, cred: Name)
  {
    && |b.objs| == 1 && b.objs[0].registered && b.objs[0].completed && b.objs[0].status == Dispatched
    && b.objs[0].key == CollectionKey(cred) && ToldInTurn(b.events, CollectionKey(cred), [Accepted, Settled, Dispatched])
  }

  lemma SwappedMisleads(b: Book, cred: Name)
    requires Swapped(b, cred)
    ensures var ds := AllDelivered(b.events);
            Complete(b, 0, ds, 2) && !Chosen(b, 0, ds)
  {
    var ds := AllDelivered(b.events);
    DeliveredSigned(b.events);
    hide Signed, Seen, Best, Statuses, Unique;
    assert b.events[2].data.tx.status == Dispatched && b.events[1].data.tx.status == Settled;
    ReceiverChoosesExactly(ds, b.events, Name("collection"), Dispatched);
    assert Under(ds[1], Name("collection"));
    assert !HeardFirst(ds, Name("collection"), Dispatched);
  }

  /** The run of one collection under swapped timers, and what it passes through. */
  lemma SwappedRun(ms: nat, cred: Name)
    requires !DelaysOrdered(ms)
    ensures var c := PlainConfig.(resolveDelayMs := ms);
            var steps := CollectionRun(c, 0, cred, "1.00");
            && AllWithDelay(c, steps, ms) && |steps| == 3 && !steps[1].Reset?
            && Swapped(Run(Fresh(c, 0), steps).book, cred) && Run(Fresh(c, 0), steps).timers == []
            && !AllMove(Run(Fresh(c, 0), steps[..1]).book, Run(Fresh(c, 0), steps[..2]).book)
  {
    hide *;
    var c := PlainConfig.(resolveDelayMs := ms);
    SmallChangeParses();
    PlainDelay(ms, cred);
    CollectionRuns(c, 0, cred, "1.00", 100);
    PostedTerms(c, cred);
    SwappedBook(Run(Fresh(c, 0), CollectionRun(c, 0, cred, "1.00")).book, c, cred, PostedTx(c, cred, "1.00", 100));
    SwappedEdge(c, cred);
  }

  lemma PlainDelay(ms: nat, cred: Name)
    requires !DelaysOrdered(ms)
    ensures var c := PlainConfig.(resolveDelayMs := ms);
            var steps := CollectionRun(c, 0, cred, "1.00");
            Unlimited(c) && c.othersSucceed && c.resolveDelayMs == ms && c.feeBearer == Initiator
            && AllWithDelay(c, steps, ms) && |steps| == 3 && !steps[1].Reset?
  {
  }

  lemma SwappedBook(b: Book, c: Config, cred: Name, t: Tx)
    requires CollectedBook(b, c, cred, t, true) && t.registered && t.key == CollectionKey(cred)
    ensures Swapped(b, cred)
  {
    assert [Accepted] + [Settled, Dispatched] == [Accepted, Settled, Dispatched];
  }

  lemma SwappedEdge(c: Config, cred: Name)
    requires Unlimited(c) && c.othersSucceed && !DelaysOrdered(c.resolveDelayMs) && ParseAmount("1.00") == Some(100)
    ensures var steps := CollectionRun(c, 0, cred, "1.00");
            |steps| == 3 && !AllMove(Run(Fresh(c, 0), steps[..1]).book, Run(Fresh(c, 0), steps[..2]).book)
  {
    var half, full := 0 + Timeout(c.resolveDelayMs / 2), 0 + Timeout(c.resolveDelayMs);
    var s0, p := Fresh(c, 0), PostCollection(cred, "1.00");
    SwappedMeans(c.resolveDelayMs, 0);
    CollectionRunSteps(c, 0, cred, "1.00");
    PostedIsTwoTimers(c, 0, cred, "1.00", 100);
    OutcomeSucceeds(c, cred, "1.00", 100);
    PostedRegistered(c, cred, "1.00", 100);
    hide Apply, Run, PostCollection, CollectionRun, PostedTx, ParseAmount, TwoTimers, CollectedBook, IdemKey, Timeout;
    FinalThenHalf(Apply(s0, p), c, cred, full, half);
    var steps := CollectionRun(c, 0, cred, "1.00");
    assert steps[..1] == [p] && steps[..2] == [p] + [Fire(1, full)];
    OneStep(s0, p);
    RunStep(s0, [p], Fire(1, full));
    SettledAtOnce(Apply(s0, p).book, Apply(Apply(s0, p), Fire(1, full)).book);
  }

  lemma SettledAtOnce(b: Book, c: Book)
    requires |b.objs| == 1 && |c.objs| == 1 && b.objs[0].registered && b.objs[0].status == Accepted
    requires c.objs[0].status == Settled && c.objs[0].key.kind == Collection
    ensures !AllMove(b, c)
  {
    assert !Moves(b.objs[0], c.objs[0]);
  }

  lemma SwappedFails(ms: nat, p: Promise)
    requires !DelaysOrdered(ms)
    ensures !InEveryRun(ms, p)
  {
    hide *;
    var c, cred := PlainConfig.(resolveDelayMs := ms), Name("acme");
    SwappedRun(ms, cred);
    SwappedBreaks(p, c, 0, CollectionRun(c, 0, cred, "1.00"), cred);
    FailsOnce(ms, p, c, 0, CollectionRun(c, 0, cred, "1.00"));
  }

  lemma FailsOnce(ms: nat, p: Promise, c: Config, now: nat, steps: seq<Step>)
    requires AllWithDelay(c, steps, ms) && !Met(p, c, now, steps)
    ensures !InEveryRun(ms, p)
  {
    hide AllWithDelay, Met;
  }

  lemma SwappedBreaks(p: Promise, c: Config, now: nat, steps: seq<Step>, cred: Name)
    requires |steps| == 3 && !steps[1].Reset? && Run(Fresh(c, now), steps).timers == []
    requires Swapped(Run(Fresh(c, now), steps).book, cred)
    requires !AllMove(Run(Fresh(c, now), steps[..1]).book, Run(Fresh(c, now), steps[..2]).book)
    ensures !Met(p, c, now, steps)
  {
    var s := Run(Fresh(c, now), steps);
    hide Run, AllMove, Complete, Chosen;
    match p
    case CompletionWhenFinal => assert s.book.objs[0].completed && !IsFinal(s.book.objs[0]);
    case EdgesFollowed => assert !EdgesAt(c, now, steps, 1);
    case QueueLeavesRest => assert !AtRest(s.book.objs[0]);
    case ReceiversAgree => SwappedMisleads(s.book, cred);
  }

  /** Completion exactly in final statuses, statuses that follow their edges, an emptied queue that leaves
      everything at rest, and receivers that agree with the API: each holds in every run exactly if the resolve
      delay keeps the two timers of a payment in order. */
  lemma PromisesExactly(ms: nat, p: Promise)
    ensures InEveryRun(ms, p) <==> DelaysOrdered(ms)
  {
    if DelaysOrdered(ms) {
      forall c, now, steps | AllWithDelay(c, steps, ms) ensures Met(p, c, now, steps) {
        OrderedMeets(ms, p, c, now, steps);
      }
      hide Met, AllWithDelay;
    } else {
      SwappedFails(ms, p);
      hide InEveryRun;
    }
  }
}
