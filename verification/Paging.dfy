/** The two paged listings. A client that follows the cursor of the transactions, or the last id of the
    events, to the end sees every entry of its own exactly once, in creation order, even while new ones arrive. */
module Paging {
  import opened Money
  import opened Domain
  import opened Operations
  import opened Accounting
  import opened Shapes
  import opened Protocol
  import opened Segments
  import opened Groundwork
  import opened Reachability
  import opened Idempotency
  import opened Solvency
  import opened Settlements

  datatype Page<T> = Page(items: seq<T>, next: Option<nat>)

  function Slice<T>(all: seq<T>, start: nat, limit: nat): seq<T>
  {
    if start >= |all| then [] else if start + limit < |all| then all[start..start + limit] else all[start..]
  }

  /* Transactions */

  predicate KindMatches(query: string, k: Kind)
  {
    query == "" || (if query == "utility" then k == Utility else query == KindText(k))
  }

  predicate Shown(b: Book, k: TxKey, cred: Name, query: string, status: Option<Status>)
  {
    && k.cred == cred && KindMatches(query, k.kind)
    && (status.Some? ==> k in b.txs && b.txs[k] < |b.objs| && b.objs[b.txs[k]].status == status.value)
  }

  function Filtered(b: Book, order: seq<TxKey>, cred: Name, query: string, status: Option<Status>): seq<TxKey>
  {
    if order == [] then []
    else
      var last := order[|order| - 1];
      Filtered(b, order[..|order| - 1], cred, query, status) + if Shown(b, last, cred, query, status) then [last] else []
  }

  function Listing(b: Book, cred: Name, query: string, status: Option<Status>): seq<TxKey>
  {
    Filtered(b, b.order, cred, query, status)
  }

  /** A decoded cursor; one that does not decode to a number is None. */
  function Transactions(b: Book, cred: Name, query: string, status: Option<Status>, limit: nat,
                        cursor: Option<Option<int>>): Option<Page<TxKey>>
  {
    if cursor.Some? && (cursor.value.None? || cursor.value.value < 0) then None
    else
      var start: nat := if cursor.Some? then cursor.value.value else 0;
      var all := Listing(b, cred, query, status);
      Some(Page(Slice(all, start, limit), if start + limit < |all| then Some(start + limit) else None))
  }

  lemma {:induction false} FilteredPrefix(b: Book, c: Book, p: seq<TxKey>, q: seq<TxKey>, cred: Name, query: string)
    requires p <= q
    ensures Filtered(b, p, cred, query, None) <= Filtered(c, q, cred, query, None)
  {
    if |q| == |p| {
      assert p == q;
      if p != [] { FilteredPrefix(b, c, p[..|p| - 1], q[..|q| - 1], cred, query); }
      FilteredSame(b, c, q, cred, query);
    } else {
      FilteredPrefix(b, c, p, q[..|q| - 1], cred, query);
    }
  }

  lemma {:induction false} FilteredSame(b: Book, c: Book, q: seq<TxKey>, cred: Name, query: string)
    ensures Filtered(b, q, cred, query, None) == Filtered(c, q, cred, query, None)
  {
    if q != [] { FilteredSame(b, c, q[..|q| - 1], cred, query); }
  }

  /** A caller's listing holds each of its transactions of the asked kind exactly once. */
  lemma {:induction false} FilteredExactly(b: Book, order: seq<TxKey>, keys: set<TxKey>, cred: Name, query: string)
    requires Listed(order, keys)
    ensures var f := Filtered(b, order, cred, query, None);
            && (forall i, j :: 0 <= i < j < |f| ==> f[i] != f[j])
            && (forall k :: k in f <==> k in keys && k.cred == cred && KindMatches(query, k.kind))
  {
    if order != [] {
      FilteredExactly(b, order[..|order| - 1], keys - {order[|order| - 1]}, cred, query);
    }
  }

  lemma ListingExactly(b: Book, cred: Name, query: string)
    requires Indexed(b)
    ensures var f := Listing(b, cred, query, None);
            && (forall i, j :: 0 <= i < j < |f| ==> f[i] != f[j])
            && (forall k :: k in f <==> k in b.txs && k.cred == cred && KindMatches(query, k.kind))
  {
    hide Listed;
    FilteredExactly(b, b.order, b.txs.Keys, cred, query);
  }

  /** Two of the kinds a caller may ask for match no stored kind: transfers are listed without a filter only. */
  lemma {:induction false} TransfersHaveNoFilter(b: Book, order: seq<TxKey>, cred: Name, query: string, status: Option<Status>)
    requires query in {"wallet_transfer", "settlement"}
    ensures Filtered(b, order, cred, query, status) == []
  {
    if order != [] {
      TransfersHaveNoFilter(b, order[..|order| - 1], cred, query, status);
      var kind := order[|order| - 1].kind;
      assert KindText(kind)[0] == 'c' || KindText(kind)[0] == 'p' || KindText(kind)[0] == 'u' || KindText(kind)[0] == 't';
    }
  }

  /* Events */

  function Mine(events: seq<Event>, cred: Name): seq<Event>
  {
    if events == [] then []
    else
      var last := events[|events| - 1];
      Mine(events[..|events| - 1], cred) + if last.cred == cred then [last] else []
  }

  /** The position of the first event with an id. */
  function IndexOf(mine: seq<Event>, id: nat): (r: Option<nat>)
    ensures r.Some? ==> r.value < |mine| && mine[r.value].id == id && forall j :: 0 <= j < r.value ==> mine[j].id != id
    ensures r.None? ==> forall j :: 0 <= j < |mine| ==> mine[j].id != id
  {
    if mine == [] then None
    else
      var init := IndexOf(mine[..|mine| - 1], id);
      if init.Some? then init
      else if mine[|mine| - 1].id == id then Some(|mine| - 1)
      else None
  }

  /** A page of events after an id, or None when the id is not one of the caller's. */
  function ListEvents(b: Book, cred: Name, after: Option<nat>, limit: nat): Option<Page<Event>>
    requires limit > 0
  {
    var mine := Mine(b.events, cred);
    var at := if after.Some? then IndexOf(mine, after.value) else None;
    if after.Some? && at.None? then None
    else
      var from := if after.Some? then at.value + 1 else 0;
      var page := Slice(mine, from, limit);
      Some(Page(page, if from + limit < |mine| then Some(page[|page| - 1].id) else None))
  }

  lemma {:induction false} MinePrefix(p: seq<Event>, q: seq<Event>, cred: Name)
    requires p <= q
    ensures Mine(p, cred) <= Mine(q, cred)
  {
    if |q| == |p| {
      assert p == q;
    } else {
      MinePrefix(p, q[..|q| - 1], cred);
    }
  }

  predicate Numbered(events: seq<Event>) { forall e :: 0 <= e < |events| ==> events[e].id == e }

  /** A caller's feed holds each of its events exactly once, in order. */
  lemma {:induction false} MineExactly(events: seq<Event>, cred: Name)
    requires Numbered(events)
    ensures forall i :: 0 <= i < |Mine(events, cred)| ==>
      var e := Mine(events, cred)[i]; e.id < |events| && e == events[e.id] && e.cred == cred
    ensures forall i, j :: 0 <= i < j < |Mine(events, cred)| ==> Mine(events, cred)[i].id < Mine(events, cred)[j].id
    ensures forall e :: 0 <= e < |events| && events[e].cred == cred ==> events[e] in Mine(events, cred)
  {
    if events != [] {
      var n := |events| - 1;
      MineExactly(events[..n], cred);
      var m := Mine(events[..n], cred);
      assert forall i :: 0 <= i < |m| ==> m[i].id < n;
    }
  }

  lemma IndexUnique(all: seq<Event>, p: nat)
    requires p < |all| && forall i, j :: 0 <= i < j < |all| ==> all[i].id < all[j].id
    ensures IndexOf(all, all[p].id) == Some(p)
  {
  }

  function FromAfter(mine: seq<Event>, after: Option<nat>): nat
  {
    if after.Some? && IndexOf(mine, after.value).Some? then IndexOf(mine, after.value).value + 1 else 0
  }

  lemma EventPage(b: Book, cred: Name, after: Option<nat>, limit: nat)
    requires limit > 0
    ensures var r, mine := ListEvents(b, cred, after, limit), Mine(b.events, cred);
            var from := FromAfter(mine, after);
            && (r.None? <==> after.Some? && IndexOf(mine, after.value).None?)
            && (r.Some? ==>
                  && r.value.items == Slice(mine, from, limit)
                  && r.value.next == if from + limit < |mine| then Some(mine[from + limit - 1].id) else None)
  {
  }

  /** The id a page hands out leads to the page that starts right behind it, also in a longer feed. */
  lemma AfterContinues(b: Book, c: Book, cred: Name, after: Option<nat>, limit: nat)
    requires limit > 0 && b.events <= c.events && Numbered(c.events)
    requires var r := ListEvents(b, cred, after, limit); r.Some? && r.value.next.Some?
    ensures var next := ListEvents(b, cred, after, limit).value.next;
            var from := FromAfter(Mine(b.events, cred), after);
            && FromAfter(Mine(c.events, cred), next) == from + limit
            && ListEvents(c, cred, next, limit).Some?
            && ListEvents(c, cred, next, limit).value.items == Slice(Mine(c.events, cred), from + limit, limit)
  {
    hide ListEvents, Mine, Slice;
    MinePrefix(b.events, c.events, cred);
    MineExactly(c.events, cred);
    EventPage(b, cred, after, limit);
    var next := ListEvents(b, cred, after, limit).value.next;
    var mine, all := Mine(b.events, cred), Mine(c.events, cred);
    var p := FromAfter(mine, after) + limit - 1;
    assert mine[p] == all[p];
    IndexUnique(all, p);
    EventPage(c, cred, next, limit);
  }

  /* Following to the end */

  /** Each snapshot of a listing extends the one before. */
  predicate Growing<T(==)>(lists: seq<seq<T>>) { forall i, j :: 0 <= i < j < |lists| ==> lists[i] <= lists[j] }

  /** What a client gathers that asks one snapshot after the other, each time from where the last page ended. */
  function Gathered<T>(lists: seq<seq<T>>, start: nat, limit: nat): seq<T>
  {
    if lists == [] then []
    else
      Slice(lists[0], start, limit) + if start + limit < |lists[0]| then Gathered(lists[1..], start + limit, limit) else []
  }

  /** The client reaches a page without a continuation exactly at the last snapshot. */
  predicate EndsAtLast<T>(lists: seq<seq<T>>, start: nat, limit: nat)
  {
    if lists == [] then false
    else if |lists| == 1 then start + limit >= |lists[0]|
    else start + limit < |lists[0]| && EndsAtLast(lists[1..], start + limit, limit)
  }

  lemma SliceOfPrefix<T>(p: seq<T>, q: seq<T>, start: nat, limit: nat)
    requires p <= q && start + limit < |p|
    ensures Slice(p, start, limit) + q[start + limit..] == q[start..]
  {
    assert q[start..] == q[start..start + limit] + q[start + limit..];
  }

  lemma {:induction false} GathersTheRest<T>(lists: seq<seq<T>>, start: nat, limit: nat)
    requires Growing(lists) && EndsAtLast(lists, start, limit) && start <= |lists[0]|
    ensures Gathered(lists, start, limit) == lists[|lists| - 1][start..]
  {
    if |lists| > 1 {
      var first, final := lists[0], lists[|lists| - 1];
      assert first <= lists[1] && first <= final;
      GathersTheRest(lists[1..], start + limit, limit);
      assert lists[1..][|lists[1..]| - 1] == final;
      SliceOfPrefix(first, final, start, limit);
      hide Growing, EndsAtLast, Slice;
    }
  }

  /* The clients */

  function Listings(states: seq<State>, cred: Name, query: string): (r: seq<seq<TxKey>>)
    ensures |r| == |states|
    ensures forall i :: 0 <= i < |states| ==> r[i] == Listing(states[i].book, cred, query, None)
  {
    if states == [] then []
    else Listings(states[..|states| - 1], cred, query) + [Listing(states[|states| - 1].book, cred, query, None)]
  }

  function Feeds(states: seq<State>, cred: Name): (r: seq<seq<Event>>)
    ensures |r| == |states|
    ensures forall i :: 0 <= i < |states| ==> r[i] == Mine(states[i].book.events, cred)
  {
    if states == [] then [] else Feeds(states[..|states| - 1], cred) + [Mine(states[|states| - 1].book.events, cred)]
  }

  /** The page of the transactions a client gets that sends a cursor it was handed, or none. */
  function CursorPage(b: Book, cred: Name, query: string, limit: nat, cursor: Option<nat>): Option<Page<TxKey>>
  {
    Transactions(b, cred, query, None, limit, if cursor.Some? then Some(Some(cursor.value)) else None)
  }

  /** What a client sees that asks one state after the other, each time with the cursor it was handed. */
  function FollowCursor(states: seq<State>, cred: Name, query: string, limit: nat, cursor: Option<nat>): seq<TxKey>
  {
    if states == [] then []
    else
      match CursorPage(states[0].book, cred, query, limit, cursor)
      case None => []
      case Some(page) =>
        page.items + if page.next.Some? then FollowCursor(states[1..], cred, query, limit, page.next) else []
  }

  /** The client is handed no further cursor exactly in the last state. */
  predicate CursorEnds(states: seq<State>, cred: Name, query: string, limit: nat, cursor: Option<nat>)
  {
    if states == [] then false
    else
      match CursorPage(states[0].book, cred, query, limit, cursor)
      case None => false
      case Some(page) =>
        if |states| == 1 then page.next.None?
        else page.next.Some? && CursorEnds(states[1..], cred, query, limit, page.next)
  }

  function StartOf(cursor: Option<nat>): nat { if cursor.Some? then cursor.value else 0 }

  /** Following the cursor gathers slice after slice of the listings. */
  lemma {:induction false} CursorGathers(states: seq<State>, cred: Name, query: string, limit: nat, cursor: Option<nat>)
    ensures FollowCursor(states, cred, query, limit, cursor) == Gathered(Listings(states, cred, query), StartOf(cursor), limit)
    ensures CursorEnds(states, cred, query, limit, cursor) <==>
            EndsAtLast(Listings(states, cred, query), StartOf(cursor), limit)
  {
    hide Listing, Slice, Listings;
    if states != [] {
      var all, start := Listing(states[0].book, cred, query, None), StartOf(cursor);
      assert Listings(states[1..], cred, query) == Listings(states, cred, query)[1..];
      if start + limit < |all| { CursorGathers(states[1..], cred, query, limit, Some(start + limit)); }
    }
  }

  /** What a client hears that asks one state after the other, each time for what follows the id it was handed. */
  function FollowFeed(states: seq<State>, cred: Name, limit: nat, after: Option<nat>): seq<Event>
    requires limit > 0
  {
    if states == [] then []
    else
      match ListEvents(states[0].book, cred, after, limit)
      case None => []
      case Some(page) => page.items + if page.next.Some? then FollowFeed(states[1..], cred, limit, page.next) else []
  }

  predicate FeedEnds(states: seq<State>, cred: Name, limit: nat, after: Option<nat>)
    requires limit > 0
  {
    if states == [] then false
    else
      match ListEvents(states[0].book, cred, after, limit)
      case None => false
      case Some(page) =>
        if |states| == 1 then page.next.None?
        else page.next.Some? && FeedEnds(states[1..], cred, limit, page.next)
  }

  predicate AllGrown(states: seq<State>)
  {
    forall i, j :: 0 <= i < j < |states| ==> Grown(states[i].book, states[j].book)
  }

  predicate AllNumbered(states: seq<State>) { forall i :: 0 <= i < |states| ==> Numbered(states[i].book.events) }

  /** The client's first id, if it sends one, is in its feed. */
  predicate Known(b: Book, cred: Name, after: Option<nat>)
  {
    after.Some? ==> IndexOf(Mine(b.events, cred), after.value).Some?
  }

  /** Following the feed by event ids is gathering slice after slice of the feeds, and ends where that ends. */
  predicate FeedAgrees(states: seq<State>, cred: Name, limit: nat, after: Option<nat>)
    requires limit > 0
  {
    var from := if states == [] then 0 else FromAfter(Mine(states[0].book.events, cred), after);
    && FollowFeed(states, cred, limit, after) == Gathered(Feeds(states, cred), from, limit)
    && (FeedEnds(states, cred, limit, after) <==> EndsAtLast(Feeds(states, cred), from, limit))
  }

  lemma {:induction false} FeedGathers(states: seq<State>, cred: Name, limit: nat, after: Option<nat>)
    requires limit > 0 && AllGrown(states) && AllNumbered(states) && (states != [] ==> Known(states[0].book, cred, after))
    ensures FeedAgrees(states, cred, limit, after)
  {
    if states != [] {
      EventPage(states[0].book, cred, after, limit);
      hide ListEvents, Mine, Slice, Feeds, FeedAgrees, FromAfter;
      var r := ListEvents(states[0].book, cred, after, limit);
      if r.value.next.Some? && |states| > 1 {
        NextKnown(states, cred, limit, after);
        GrownTail(states);
        hide AllGrown, AllNumbered;
        FeedGathers(states[1..], cred, limit, r.value.next);
        FeedGoesOn(states, cred, limit, after);
      } else {
        FeedStops(states, cred, limit, after);
      }
    }
  }

  /** The id handed out in one state is known in the next, and stands right before what follows. */
  lemma NextKnown(states: seq<State>, cred: Name, limit: nat, after: Option<nat>)
    requires limit > 0 && |states| > 1 && AllGrown(states) && AllNumbered(states)
    requires var r := ListEvents(states[0].book, cred, after, limit); r.Some? && r.value.next.Some?
    ensures var next := ListEvents(states[0].book, cred, after, limit).value.next;
            && Known(states[1].book, cred, next)
            && FromAfter(Mine(states[1].book.events, cred), next) == FromAfter(Mine(states[0].book.events, cred), after) + limit
  {
    assert Grown(states[0].book, states[1].book) && Numbered(states[1].book.events);
    hide AllGrown, AllNumbered, ListEvents, Mine, FromAfter;
    AfterContinues(states[0].book, states[1].book, cred, after, limit);
    EventPage(states[1].book, cred, ListEvents(states[0].book, cred, after, limit).value.next, limit);
  }

  /** One page, and the rest as gathered from the next state on. */
  lemma FeedGoesOn(states: seq<State>, cred: Name, limit: nat, after: Option<nat>)
    requires limit > 0 && |states| > 1 && Known(states[0].book, cred, after)
    requires var r := ListEvents(states[0].book, cred, after, limit);
             && r.Some? && r.value.next.Some? && FeedAgrees(states[1..], cred, limit, r.value.next)
             && FromAfter(Mine(states[1].book.events, cred), r.value.next)
                  == FromAfter(Mine(states[0].book.events, cred), after) + limit
    ensures FeedAgrees(states, cred, limit, after)
  {
    hide ListEvents, Mine, FromAfter, Slice, Feeds, FollowFeed, FeedEnds, Gathered, EndsAtLast;
    var next := ListEvents(states[0].book, cred, after, limit).value.next;
    var from := FromAfter(Mine(states[0].book.events, cred), after);
    EventPage(states[0].book, cred, after, limit);
    FollowOnce(states, cred, limit, after);
    GatherOnce(Feeds(states, cred), from, limit);
    assert Feeds(states[1..], cred) == Feeds(states, cred)[1..];
  }

  lemma FollowOnce(states: seq<State>, cred: Name, limit: nat, after: Option<nat>)
    requires limit > 0 && states != [] && ListEvents(states[0].book, cred, after, limit).Some?
    ensures var page := ListEvents(states[0].book, cred, after, limit).value;
            && FollowFeed(states, cred, limit, after) ==
                 page.items + (if page.next.Some? then FollowFeed(states[1..], cred, limit, page.next) else [])
            && (FeedEnds(states, cred, limit, after) <==>
                  if |states| == 1 then page.next.None?
                  else page.next.Some? && FeedEnds(states[1..], cred, limit, page.next))
  {
    hide ListEvents;
  }

  lemma GatherOnce<T>(lists: seq<seq<T>>, start: nat, limit: nat)
    requires lists != []
    ensures Gathered(lists, start, limit) ==
              Slice(lists[0], start, limit) +
              (if start + limit < |lists[0]| then Gathered(lists[1..], start + limit, limit) else [])
    ensures EndsAtLast(lists, start, limit) <==>
              if |lists| == 1 then start + limit >= |lists[0]|
              else start + limit < |lists[0]| && EndsAtLast(lists[1..], start + limit, limit)
  {
    hide Slice;
  }

  /** With one state, or without a further id, the client stops here. */
  lemma FeedStops(states: seq<State>, cred: Name, limit: nat, after: Option<nat>)
    requires limit > 0 && states != [] && Known(states[0].book, cred, after)
    requires |states| == 1 || ListEvents(states[0].book, cred, after, limit).value.next.None?
    ensures FeedAgrees(states, cred, limit, after)
  {
    EventPage(states[0].book, cred, after, limit);
    FollowOnce(states, cred, limit, after);
    GatherOnce(Feeds(states, cred), FromAfter(Mine(states[0].book.events, cred), after), limit);
    NothingLeft(states, cred, limit);
    hide ListEvents, Mine, Slice, Feeds, FromAfter, FollowFeed, FeedEnds, Gathered, EndsAtLast;
  }

  lemma NothingLeft(states: seq<State>, cred: Name, limit: nat)
    requires limit > 0 && states != []
    ensures |states| == 1 ==>
      && (forall next :: FollowFeed(states[1..], cred, limit, next) == [])
      && (forall start: nat :: Gathered(Feeds(states, cred)[1..], start, limit) == [])
  {
    if |states| == 1 { assert states[1..] == [] && Feeds(states, cred)[1..] == []; }
  }

  lemma GrownTail(states: seq<State>)
    requires states != [] && AllGrown(states) && AllNumbered(states)
    ensures AllGrown(states[1..]) && AllNumbered(states[1..])
  {
  }

  /* The simulator's listings only grow */

  lemma StepGrows(s: State, step: Step)
    requires Ground(s) && !step.Reset?
    ensures Grown(s.book, Apply(s, step).book)
  {
    hide Ground, SettleNow, ApplyPost, ApplyAdvance, ApplyFinish, ApplyFire, SetBalance, EnsureWallet;
    if step.Fire? {
      FireKept(s, step.timer, step.at);
    } else if Settling(s, step) {
      SettlingStep(s, step);
      SettleDoes(s.book, step.cred, step.body.reference);
    } else {
      StepSteady(s, step);
    }
  }

  lemma FireKept(s: State, j: nat, at: nat)
    ensures Kept(s.book, ApplyFire(s, j, at).book)
  {
    hide RunAct;
    if IsNext(s.timers, j) { ActKept(s.book, s.timers[j].act); }
  }

  lemma {:induction false} RunGrows(s: State, steps: seq<Step>)
    requires Ground(s) && NoReset(steps)
    ensures Ground(Run(s, steps)) && Grown(s.book, Run(s, steps).book)
  {
    hide Ground, Apply;
    if steps != [] {
      var init, last := steps[..|steps| - 1], steps[|steps| - 1];
      RunGrows(s, init);
      StepGrows(Run(s, init), last);
      StepKeepsGround(Run(s, init), last);
    }
  }

  /** The states a client meets: each reached from the one before by steps without a reset. */
  function States(s: State, legs: seq<seq<Step>>): (r: seq<State>)
    ensures |r| == |legs|
  {
    if legs == [] then []
    else
      var init := States(s, legs[..|legs| - 1]);
      init + [Run(if init == [] then s else init[|init| - 1], legs[|legs| - 1])]
  }

  predicate LegsOk(legs: seq<seq<Step>>) { forall n :: 0 <= n < |legs| ==> NoReset(legs[n]) }

  lemma {:induction false} StatesGrow(s: State, legs: seq<seq<Step>>)
    requires Ground(s) && LegsOk(legs)
    ensures forall i :: 0 <= i < |legs| ==> Ground(States(s, legs)[i])
    ensures AllGrown(States(s, legs))
  {
    hide Ground, Run;
    if legs != [] {
      var n := |legs| - 1;
      StatesGrow(s, legs[..n]);
      var before := if n == 0 then s else States(s, legs[..n])[n - 1];
      RunGrows(before, legs[n]);
    }
  }

  lemma StatesNumbered(states: seq<State>)
    requires forall i :: 0 <= i < |states| ==> Ground(states[i])
    ensures AllNumbered(states)
  {
    hide Tallied, IndexedBut, CallsOk;
  }

  lemma ListingsGrow(states: seq<State>, cred: Name, query: string)
    requires AllGrown(states)
    ensures Growing(Listings(states, cred, query))
  {
    hide Filtered;
    var lists := Listings(states, cred, query);
    forall i, j | 0 <= i < j < |lists| ensures lists[i] <= lists[j] {
      FilteredPrefix(states[i].book, states[j].book, states[i].book.order, states[j].book.order, cred, query);
    }
  }

  lemma FeedsGrow(states: seq<State>, cred: Name)
    requires AllGrown(states)
    ensures Growing(Feeds(states, cred))
  {
    hide Mine;
    var lists := Feeds(states, cred);
    forall i, j | 0 <= i < j < |lists| ensures lists[i] <= lists[j] {
      MinePrefix(states[i].book.events, states[j].book.events, cred);
    }
  }

  lemma NonEmpty<T>(lists: seq<seq<T>>, limit: nat)
    requires EndsAtLast(lists, 0, limit)
    ensures lists != []
  {
  }

  lemma GroundLists(s: State)
    requires Ground(s)
    ensures Indexed(s.book) && Numbered(s.book.events)
  {
    hide Tallied, CallsOk, IndexedBut;
  }

  /** A client that follows the cursor without a status filter, whatever happens between its requests: when
      it is handed no further cursor, it has seen each of its transactions of the asked kind exactly once, in
      creation order. */
  lemma FollowingSeesAll(s: State, legs: seq<seq<Step>>, cred: Name, query: string, limit: nat)
    requires Ground(s) && LegsOk(legs) && CursorEnds(States(s, legs), cred, query, limit, None)
    ensures var states := States(s, legs);
            var seen := FollowCursor(states, cred, query, limit, None);
            && states != []
            && var b := states[|states| - 1].book;
               && seen == Listing(b, cred, query, None)
               && (forall i, j :: 0 <= i < j < |seen| ==> seen[i] != seen[j])
               && (forall k :: k in seen <==> k in b.txs && k.cred == cred && KindMatches(query, k.kind))
  {
    StatesGrow(s, legs);
    hide *;
    var states := States(s, legs);
    ClientSeesAll(states, cred, query, limit);
    GroundLists(states[|states| - 1]);
    ListingExactly(states[|states| - 1].book, cred, query);
  }

  /** From growing listings a client that reaches the end sees the last listing whole. */
  lemma ClientSeesAll(states: seq<State>, cred: Name, query: string, limit: nat)
    requires AllGrown(states) && CursorEnds(states, cred, query, limit, None)
    ensures states != []
    ensures FollowCursor(states, cred, query, limit, None) == Listing(states[|states| - 1].book, cred, query, None)
  {
    hide *;
    CursorGathers(states, cred, query, limit, None);
    StartOfNone();
    ListingsGrow(states, cred, query);
    NonEmpty(Listings(states, cred, query), limit);
    GathersTheRest(Listings(states, cred, query), 0, limit);
  }

  lemma StartOfNone()
    ensures StartOf(None) == 0
  {
  }

  /** The same for a client that follows the feed by event id. */
  lemma FollowingHearsAll(s: State, legs: seq<seq<Step>>, cred: Name, limit: nat)
    requires limit > 0 && Ground(s) && LegsOk(legs) && FeedEnds(States(s, legs), cred, limit, None)
    ensures var states := States(s, legs);
            var heard := FollowFeed(states, cred, limit, None);
            && states != []
            && var b := states[|states| - 1].book;
               && heard == Mine(b.events, cred)
               && (forall i, j :: 0 <= i < j < |heard| ==> heard[i].id < heard[j].id)
               && (forall e :: 0 <= e < |b.events| && b.events[e].cred == cred ==> b.events[e] in heard)
  {
    StatesGrow(s, legs);
    hide *;
    var states := States(s, legs);
    StatesNumbered(states);
    ClientHearsAll(states, cred, limit);
    GroundLists(states[|states| - 1]);
    MineExactly(states[|states| - 1].book.events, cred);
  }

  /** From growing, numbered feeds a client that reaches the end hears the last feed whole. */
  lemma ClientHearsAll(states: seq<State>, cred: Name, limit: nat)
    requires limit > 0 && AllGrown(states) && AllNumbered(states) && FeedEnds(states, cred, limit, None)
    ensures states != [] && FollowFeed(states, cred, limit, None) == Mine(states[|states| - 1].book.events, cred)
  {
    hide *;
    KnownAtFirst(states, cred);
    FeedGathers(states, cred, limit, None);
    FeedStarts(states, cred, limit);
    FeedsGrow(states, cred);
    NonEmpty(Feeds(states, cred), limit);
    GathersTheRest(Feeds(states, cred), 0, limit);
  }

  lemma KnownAtFirst(states: seq<State>, cred: Name)
    ensures states != [] ==> Known(states[0].book, cred, None)
  {
  }

  lemma FeedStarts(states: seq<State>, cred: Name, limit: nat)
    requires limit > 0 && FeedAgrees(states, cred, limit, None)
    ensures FollowFeed(states, cred, limit, None) == Gathered(Feeds(states, cred), 0, limit)
    ensures FeedEnds(states, cred, limit, None) <==> EndsAtLast(Feeds(states, cred), 0, limit)
  {
    hide FollowFeed, FeedEnds, Gathered, EndsAtLast, Mine;
  }
}
