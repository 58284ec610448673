/** The receiving side of webhooks: a receiver that records every delivery and de-duplicates by id, the
    choice of the highest-ranked status, and why that choice agrees with the API whatever is lost,
    repeated or reordered on the way, as long as the last event arrives once. */
module Webhooks {
  import opened Money
  import opened Domain
  import opened Operations
  import opened BookInvariants
  import opened Shapes
  import opened Protocol
  import opened Segments
  import opened Groundwork
  import opened Reachability

  /** One delivery as the receiver stored it. `genuine` is the verdict on signature and timestamp. */
  datatype Delivery = Delivery(id: nat, genuine: bool, envelope: Option<Event>, attempt: nat, respondedWith: nat)

  predicate Usable(d: Delivery) { d.genuine && d.envelope.Some? }

  function CountOf(ds: seq<Delivery>, id: nat): nat
  {
    if ds == [] then 0 else CountOf(ds[..|ds| - 1], id) + if ds[|ds| - 1].id == id then 1 else 0
  }

  predicate Seen(ds: seq<Delivery>, id: nat) { exists k :: 0 <= k < |ds| && Usable(ds[k]) && ds[k].id == id }

  /** The first usable delivery of each id, in order of arrival. */
  function Unique(ds: seq<Delivery>): seq<Event>
  {
    if ds == [] then []
    else
      var init, d := ds[..|ds| - 1], ds[|ds| - 1];
      Unique(init) + if Usable(d) && !Seen(init, d.id) then [d.envelope.value] else []
  }

  /** The attempt counters agree with the deliveries on record, and each delivery with those before it. */
  ghost predicate Consistent(ds: seq<Delivery>, attempts: map<nat, nat>)
  {
    && (forall id: nat :: (if id in attempts then attempts[id] else 0) == CountOf(ds, id))
    && (forall k :: 0 <= k < |ds| ==> Numbered(ds, k))
  }

  predicate Numbered(ds: seq<Delivery>, k: nat)
    requires k < |ds|
  {
    ds[k].attempt == CountOf(ds[..k], ds[k].id) + 1 && (!ds[k].genuine ==> ds[k].respondedWith == 401)
  }

  lemma ConsistentNext(ds: seq<Delivery>, attempts: map<nat, nat>, d: Delivery)
    requires Consistent(ds, attempts)
    requires d.attempt == CountOf(ds, d.id) + 1 && (!d.genuine ==> d.respondedWith == 401)
    ensures Consistent(ds + [d], attempts[d.id := d.attempt])
  {
    var es := ds + [d];
    assert es[..|ds|] == ds;
    forall k | 0 <= k < |es| ensures Numbered(es, k) {
      if k < |ds| {
        assert es[..k] == ds[..k] && Numbered(ds, k);
      }
    }
  }

  class WebhookReceiver {
    var deliveries: seq<Delivery>
    var attempts: map<nat, nat>
    const failWith: (nat, nat) -> Option<nat>

    ghost predicate Valid()
      reads this
    {
      Consistent(deliveries, attempts)
    }

    constructor (failWith: (nat, nat) -> Option<nat>)
      ensures Valid() && deliveries == [] && this.failWith == failWith
    {
      this.failWith := failWith;
      deliveries, attempts := [], map[];
    }

    /** One request at the endpoint: it is recorded whatever the verdict, numbered among the deliveries of
        its id, and answered 401 unless genuine. */
    method Receive(id: nat, genuine: bool, envelope: Option<Event>) returns (status: nat)
      requires Valid()
      modifies this
      ensures Valid()
      ensures deliveries == old(deliveries) +
                [Delivery(id, genuine, envelope, CountOf(old(deliveries), id) + 1, status)]
      ensures status ==
                if !genuine then 401
                else if failWith(id, CountOf(old(deliveries), id) + 1).Some?
                then failWith(id, CountOf(old(deliveries), id) + 1).value
                else 200
    {
      var attempt := (if id in attempts then attempts[id] else 0) + 1;
      attempts := attempts[id := attempt];
      var forced := if genuine then failWith(id, attempt) else None;
      status := if !genuine then 401 else if forced.Some? then forced.value else 200;
      deliveries := deliveries + [Delivery(id, genuine, envelope, attempt, status)];
      ConsistentNext(old(deliveries), old(attempts), deliveries[|old(deliveries)|]);
    }

    /** Distinct events by id. */
    method UniqueEvents() returns (events: seq<Event>)
      ensures events == Unique(deliveries)
    {
      var seen: set<nat> := {};
      events := [];
      for k := 0 to |deliveries|
        invariant events == Unique(deliveries[..k])
        invariant forall id: nat :: id in seen <==> Seen(deliveries[..k], id)
      {
        var d := deliveries[k];
        assert deliveries[..k + 1][..k] == deliveries[..k];
        SeenNext(deliveries, k);
        if d.genuine && d.envelope.Some? && d.id !in seen {
          seen := seen + {d.id};
          events := events + [d.envelope.value];
        }
      }
      assert deliveries[..|deliveries|] == deliveries;
    }
  }

  lemma SeenNext(ds: seq<Delivery>, k: nat)
    requires k < |ds|
    ensures forall id: nat :: Seen(ds[..k + 1], id) <==> Seen(ds[..k], id) || (Usable(ds[k]) && ds[k].id == id)
  {
    forall id: nat ensures Seen(ds[..k + 1], id) <==> Seen(ds[..k], id) || (Usable(ds[k]) && ds[k].id == id) {
      if Seen(ds[..k], id) {
        var j :| 0 <= j < k && Usable(ds[..k][j]) && ds[..k][j].id == id;
        assert Usable(ds[..k + 1][j]);
      }
      if Usable(ds[k]) && ds[k].id == id { assert Usable(ds[..k + 1][k]); }
      if Seen(ds[..k + 1], id) {
        var j :| 0 <= j < k + 1 && Usable(ds[..k + 1][j]) && ds[..k + 1][j].id == id;
        if j < k { assert Usable(ds[..k][j]); }
      }
    }
  }

  /* What the sender signs */

  /** The signature covers id and body, so a usable delivery carries the event of its id. */
  predicate Signed(ds: seq<Delivery>, events: seq<Event>)
  {
    forall k :: 0 <= k < |ds| && Usable(ds[k]) ==> ds[k].id < |events| && ds[k].envelope == Some(events[ds[k].id])
  }

  /** De-duplication loses no event and repeats none. */
  lemma {:induction false} UniqueIsSeen(ds: seq<Delivery>, events: seq<Event>, e: nat)
    requires Signed(ds, events) && e < |events|
    requires forall f :: 0 <= f < |events| ==> events[f].id == f
    ensures Seen(ds, e) <==> events[e] in Unique(ds)
  {
    if ds != [] {
      var n := |ds| - 1;
      UniqueIsSeen(ds[..n], events, e);
      SeenNext(ds, n);
      assert ds[..n + 1] == ds;
    }
  }

  lemma {:induction false} UniqueDistinct(ds: seq<Delivery>, events: seq<Event>)
    requires Signed(ds, events) && forall f :: 0 <= f < |events| ==> events[f].id == f
    ensures forall i, j :: 0 <= i < j < |Unique(ds)| ==> Unique(ds)[i].id != Unique(ds)[j].id
    ensures forall i :: 0 <= i < |Unique(ds)| ==> Unique(ds)[i].id < |events| && Unique(ds)[i] == events[Unique(ds)[i].id]
  {
    if ds != [] {
      var n := |ds| - 1;
      UniqueDistinct(ds[..n], events);
      if Usable(ds[n]) && !Seen(ds[..n], ds[n].id) {
        UniqueIsSeen(ds[..n], events, ds[n].id);
      }
    }
  }

  /* The choice of a status */

  /** Higher is later in the lifecycle; statuses without a rank count as in progress. */
  function Rank(s: Status): nat
  {
    match s
    case Accepted => 1
    case Dispatched | Dispatching => 2
    case InReview => 3
    case Settled | Failed | Delivered => 9
    case Refunded => 10
    case Pending | Vending | AwaitingPayment | Completed => 0
  }

  function ReferenceOf(e: Event): Name
  {
    match e.data
    case OfTx(_, tx) => tx.key.reference
    case OfRun(run) => run.reference
  }

  function StatusOf(e: Event): Status
  {
    match e.data
    case OfTx(_, tx) => tx.status
    case OfRun(_) => Completed
  }

  /** The statuses told under a reference, in order of arrival. */
  function Statuses(events: seq<Event>, reference: Name): seq<Status>
  {
    if events == [] then []
    else
      var last := events[|events| - 1];
      Statuses(events[..|events| - 1], reference) + if ReferenceOf(last) == reference then [StatusOf(last)] else []
  }

  /** The head of a stable sort by descending rank: the first of the highest-ranked. */
  function Best(statuses: seq<Status>): Option<Status>
  {
    if statuses == [] then None
    else
      var best, last := Best(statuses[..|statuses| - 1]), statuses[|statuses| - 1];
      if best.None? || Rank(last) > Rank(best.value) then Some(last) else best
  }

  lemma {:induction false} BestIsHighest(statuses: seq<Status>)
    ensures statuses == [] <==> Best(statuses).None?
    ensures statuses != [] ==>
      && Best(statuses).value in statuses
      && forall s :: s in statuses ==> Rank(s) <= Rank(Best(statuses).value)
  {
    if statuses != [] { BestIsHighest(statuses[..|statuses| - 1]); }
  }

  lemma {:induction false} StatusesOf(events: seq<Event>, reference: Name, s: Status)
    ensures s in Statuses(events, reference) <==>
            exists k :: 0 <= k < |events| && ReferenceOf(events[k]) == reference && StatusOf(events[k]) == s
  {
    if events != [] {
      var n := |events| - 1;
      StatusesOf(events[..n], reference, s);
      if s in Statuses(events[..n], reference) {
        var k :| 0 <= k < n && ReferenceOf(events[..n][k]) == reference && StatusOf(events[..n][k]) == s;
        assert ReferenceOf(events[k]) == reference;
      }
      if k: nat :| k < n && ReferenceOf(events[k]) == reference && StatusOf(events[k]) == s {
        assert ReferenceOf(events[..n][k]) == reference && StatusOf(events[..n][k]) == s;
      }
    }
  }

  /* Agreement with the API */

  /** The statuses that have no rank of their own although a ranked one precedes them. */
  predicate Unranked(s: Status) { s in {Vending, AwaitingPayment} }

  /** What outranks an unranked status is the acceptance before it; any other status outranks those before
      it. A choice among a payment's current status and earlier ones is decided accordingly. */
  lemma BestDecides(told: seq<Status>, t: Tx)
    requires TxOk(t) && t.registered && t.status in told
    requires forall s :: s in told ==> (s == t.status || Stage(s) < Stage(t.status)) && Tellable(t.key.kind, s)
    ensures Best(told) == Some(t.status) <==> !(Unranked(t.status) && Accepted in told)
  {
    BestIsHighest(told);
    var best := Best(told).value;
    assert best == t.status || Stage(best) < Stage(t.status);
    assert Unranked(t.status) || best == t.status || Rank(best) < Rank(t.status);
  }

  /** Every event told about a registered payment, and its last. */
  lemma ToldAt(b: Book, i: nat, e: nat)
    requires EventsOk(b) && i < |b.objs| && e < |b.events| && About(b.events[e], i)
    ensures ReferenceOf(b.events[e]) == b.objs[i].key.reference
    ensures StatusOf(b.events[e]) == b.objs[i].status || Stage(StatusOf(b.events[e])) < Stage(b.objs[i].status)
    ensures Tellable(b.objs[i].key.kind, StatusOf(b.events[e]))
  {
  }

  lemma LastToldAt(b: Book, i: nat, e: nat)
    requires EventsOk(b) && i < |b.objs| && b.objs[i].registered && LastAbout(b.events, e, i)
    ensures StatusOf(b.events[e]) == b.objs[i].status
  {
    var f :| LastAbout(b.events, f, i) && b.events[f].data.tx.status == b.objs[i].status;
    assert e == f;
  }

  /** Every delivered event that carries the reference is about the one payment. */
  ghost predicate OnlyAbout(ds: seq<Delivery>, events: seq<Event>, i: nat, reference: Name)
  {
    forall e :: 0 <= e < |events| && Seen(ds, e) && ReferenceOf(events[e]) == reference ==> About(events[e], i)
  }

  /** A delivered event under the reference, as the receiver stores it. */
  predicate Heard(ds: seq<Delivery>, events: seq<Event>, reference: Name, s: Status)
  {
    exists e :: 0 <= e < |events| && Seen(ds, e) && ReferenceOf(events[e]) == reference && StatusOf(events[e]) == s
  }

  lemma HeardIsTold(ds: seq<Delivery>, events: seq<Event>, reference: Name, s: Status)
    requires Signed(ds, events) && forall f :: 0 <= f < |events| ==> events[f].id == f
    ensures Heard(ds, events, reference, s) <==> s in Statuses(Unique(ds), reference)
  {
    hide Unique, Statuses, ReferenceOf, StatusOf;
    var u := Unique(ds);
    StatusesOf(u, reference, s);
    UniqueDistinct(ds, events);
    if k: nat :| k < |u| && ReferenceOf(u[k]) == reference && StatusOf(u[k]) == s {
      UniqueIsSeen(ds, events, u[k].id);
      assert events[u[k].id] in u;
      assert Heard(ds, events, reference, s);
    }
    if e: nat :| e < |events| && Seen(ds, e) && ReferenceOf(events[e]) == reference && StatusOf(events[e]) == s {
      UniqueIsSeen(ds, events, e);
      var k :| 0 <= k < |u| && u[k] == events[e];
      assert ReferenceOf(u[k]) == reference && StatusOf(u[k]) == s;
    }
  }

  /** The statuses heard of one payment: its current one, and otherwise only earlier ones. */
  lemma HeardOfOne(b: Book, i: nat, ds: seq<Delivery>, last: nat, s: Status)
    requires EventsOk(b) && i < |b.objs| && b.objs[i].registered && Signed(ds, b.events)
    requires OnlyAbout(ds, b.events, i, b.objs[i].key.reference)
    requires LastAbout(b.events, last, i) && Seen(ds, last)
    ensures Heard(ds, b.events, b.objs[i].key.reference, b.objs[i].status)
    ensures Heard(ds, b.events, b.objs[i].key.reference, s) ==>
      (s == b.objs[i].status || Stage(s) < Stage(b.objs[i].status)) && Tellable(b.objs[i].key.kind, s)
  {
    var r := b.objs[i].key.reference;
    LastToldAt(b, i, last);
    ToldAt(b, i, last);
    if Heard(ds, b.events, r, s) {
      var e :| 0 <= e < |b.events| && Seen(ds, e) && ReferenceOf(b.events[e]) == r && StatusOf(b.events[e]) == s;
      ToldAt(b, i, e);
    }
  }

  /** For any deliveries of a payment's events, in any order and with any repetitions and losses, that
      include its last event at least once: the highest-ranked distinct status is exactly the status the
      API reports, unless the payment is in one of the two unranked statuses and its acceptance was heard. */
  lemma ReceiverAgrees(b: Book, i: nat, ds: seq<Delivery>, last: nat)
    requires Shape(b) && i < |b.objs| && b.objs[i].registered && Signed(ds, b.events)
    requires OnlyAbout(ds, b.events, i, b.objs[i].key.reference)
    requires LastAbout(b.events, last, i) && Seen(ds, last)
    ensures Best(Statuses(Unique(ds), b.objs[i].key.reference)) == Some(b.objs[i].status) <==>
            !(Unranked(b.objs[i].status) && Heard(ds, b.events, b.objs[i].key.reference, Accepted))
  {
    TypedAt(b, i);
    ShapeEvents(b);
    hide Shape, EventsOk, Signed, OnlyAbout, LastAbout, Seen, Heard, TxOk, Best, Statuses, Unique, Stage;
    var t := b.objs[i];
    var told := Statuses(Unique(ds), t.key.reference);
    HeardOfOne(b, i, ds, last, t.status);
    HeardIsTold(ds, b.events, t.key.reference, t.status);
    HeardIsTold(ds, b.events, t.key.reference, Accepted);
    forall s | s in told ensures (s == t.status || Stage(s) < Stage(t.status)) && Tellable(t.key.kind, s) {
      HeardIsTold(ds, b.events, t.key.reference, s);
      HeardOfOne(b, i, ds, last, s);
    }
    BestDecides(told, t);
  }

  lemma ShapeEvents(b: Book)
    requires Shape(b)
    ensures EventsOk(b) && forall f :: 0 <= f < |b.events| ==> b.events[f].id == f
  {
  }

  lemma RankedKinds(b: Book, i: nat)
    requires Shape(b) && i < |b.objs| && b.objs[i].registered && b.objs[i].key.kind in {Collection, Payout}
    ensures !Unranked(b.objs[i].status)
  {
    hide Shape;
    TypedAt(b, i);
  }

  lemma RunShape(c: Config, now: nat, steps: seq<Step>)
    requires WellFormed(c) && StepsWellFormed(steps)
    ensures Shape(Run(Fresh(c, now), steps).book)
  {
    RunKeeps(c, now, steps);
    hide Run;
    InvSound(Run(Fresh(c, now), steps));
    hide Inv;
    SoundShape(Run(Fresh(c, now), steps).book);
  }

  /** For collections and payouts in every run: de-duplicating and keeping the highest-ranked status gives
      the status the API reports. */
  lemma WebhooksConverge(c: Config, now: nat, steps: seq<Step>, i: nat, ds: seq<Delivery>, last: nat)
    requires WellFormed(c) && StepsWellFormed(steps)
    requires var b := Run(Fresh(c, now), steps).book;
             && i < |b.objs| && b.objs[i].registered && b.objs[i].key.kind in {Collection, Payout}
             && Signed(ds, b.events) && OnlyAbout(ds, b.events, i, b.objs[i].key.reference)
             && LastAbout(b.events, last, i) && Seen(ds, last)
    ensures var b := Run(Fresh(c, now), steps).book;
            Best(Statuses(Unique(ds), b.objs[i].key.reference)) == Some(b.objs[i].status)
  {
    RunShape(c, now, steps);
    hide Run, Shape, Signed, OnlyAbout, LastAbout, Seen, Unranked, Best, Statuses, Unique;
    var b := Run(Fresh(c, now), steps).book;
    ReceiverAgrees(b, i, ds, last);
    RankedKinds(b, i);
  }

  /* Whatever is delivered under a reference */

  /** The delivery is usable and goes by this reference. */
  predicate Under(d: Delivery, reference: Name) { Usable(d) && ReferenceOf(d.envelope.value) == reference }

  /** A delivery of this status comes before every other of its rank, and none under the reference ranks
      higher. */
  predicate HeardFirst(ds: seq<Delivery>, reference: Name, s: Status)
  {
    exists k :: 0 <= k < |ds| && LeadsAt(ds, reference, s, k)
  }

  predicate LeadsAt(ds: seq<Delivery>, reference: Name, s: Status, k: nat)
    requires k < |ds|
  {
    && Under(ds[k], reference) && StatusOf(ds[k].envelope.value) == s
    && forall j :: 0 <= j < |ds| && Under(ds[j], reference) ==>
         if j < k then Rank(StatusOf(ds[j].envelope.value)) < Rank(s) else Rank(StatusOf(ds[j].envelope.value)) <= Rank(s)
  }

  /** The choice over one more delivery, told whether it is new and goes by the reference. */
  lemma BestNext(ds: seq<Delivery>, reference: Name)
    requires ds != []
    ensures var init, d := ds[..|ds| - 1], ds[|ds| - 1];
            var before, now := Best(Statuses(Unique(init), reference)), Best(Statuses(Unique(ds), reference));
            if Usable(d) && !Seen(init, d.id) && Under(d, reference) && (before.None? || Rank(StatusOf(d.envelope.value)) > Rank(before.value))
            then now == Some(StatusOf(d.envelope.value))
            else now == before
  {
    var u := Unique(ds[..|ds| - 1]);
    var d := ds[|ds| - 1];
    if Usable(d) && !Seen(ds[..|ds| - 1], d.id) {
      assert (u + [d.envelope.value])[..|u|] == u;
      var told := Statuses(u, reference);
      assert (told + [StatusOf(d.envelope.value)])[..|told|] == told;
      assert told + [] == told;
    } else {
      assert u + [] == u;
    }
  }

  /** What the receiver chooses was heard first among the highest-ranked; it chooses nothing exactly if nothing
      goes by the reference. */
  lemma {:induction false} BestHeardFirst(ds: seq<Delivery>, events: seq<Event>, reference: Name)
    requires Signed(ds, events)
    ensures var best := Best(Statuses(Unique(ds), reference));
            if best.Some? then HeardFirst(ds, reference, best.value)
            else forall j :: 0 <= j < |ds| ==> !Under(ds[j], reference)
  {
    if ds != [] {
      var n := |ds| - 1;
      BestHeardFirst(ds[..n], events, reference);
      BestNext(ds, reference);
      hide Best, Statuses, Unique, ReferenceOf, StatusOf, Rank;
      ChoiceExtends(ds, events, reference, Best(Statuses(Unique(ds[..n]), reference)), Best(Statuses(Unique(ds), reference)));
    }
  }

  lemma ChoiceExtends(ds: seq<Delivery>, events: seq<Event>, reference: Name, before: Option<Status>, now: Option<Status>)
    requires ds != [] && Signed(ds, events)
    requires var init, d := ds[..|ds| - 1], ds[|ds| - 1];
             && (if before.Some? then HeardFirst(init, reference, before.value)
                 else forall j :: 0 <= j < |init| ==> !Under(init[j], reference))
             && (if Usable(d) && !Seen(init, d.id) && Under(d, reference)
                    && (before.None? || Rank(StatusOf(d.envelope.value)) > Rank(before.value))
                 then now == Some(StatusOf(d.envelope.value)) else now == before)
    ensures if now.Some? then HeardFirst(ds, reference, now.value) else forall j :: 0 <= j < |ds| ==> !Under(ds[j], reference)
  {
    hide ReferenceOf, StatusOf, Rank;
    var n := |ds| - 1;
    var init, d := ds[..n], ds[n];
    assert forall j :: 0 <= j < n ==> init[j] == ds[j];
    if Under(d, reference) && Seen(init, d.id) {
      var j :| 0 <= j < n && Usable(init[j]) && init[j].id == d.id;
      assert init[j].envelope == d.envelope;
      assert Under(init[j], reference);
    }
    if before.Some? {
      var k :| 0 <= k < |init| && LeadsAt(init, reference, before.value, k);
      if now == before {
        assert LeadsAt(ds, reference, before.value, k);
      } else {
        assert LeadsAt(ds, reference, now.value, n);
      }
    } else if now.Some? {
      assert LeadsAt(ds, reference, now.value, n);
    }
  }

  lemma HeardFirstOnce(ds: seq<Delivery>, reference: Name, s: Status, t: Status)
    requires HeardFirst(ds, reference, s) && HeardFirst(ds, reference, t)
    ensures s == t
  {
    hide Rank, StatusOf, ReferenceOf;
    var k :| 0 <= k < |ds| && LeadsAt(ds, reference, s, k);
    var l :| 0 <= l < |ds| && LeadsAt(ds, reference, t, l);
  }

  /** The receiver goes by reference alone, whatever else goes by it: for any deliveries, in any order and with
      any repetitions, it chooses a status exactly if that was heard before every other of its rank, and
      nothing heard under the reference ranks higher. */
  lemma ReceiverChoosesExactly(ds: seq<Delivery>, events: seq<Event>, reference: Name, s: Status)
    requires Signed(ds, events)
    ensures Best(Statuses(Unique(ds), reference)) == Some(s) <==> HeardFirst(ds, reference, s)
  {
    BestHeardFirst(ds, events, reference);
    hide Signed, Best, Statuses, Unique, Under;
    var best := Best(Statuses(Unique(ds), reference));
    if HeardFirst(ds, reference, s) {
      var k :| 0 <= k < |ds| && LeadsAt(ds, reference, s, k);
      assert Under(ds[k], reference);
      HeardFirstOnce(ds, reference, s, best.value);
    }
  }
}
