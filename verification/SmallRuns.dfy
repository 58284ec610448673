/** Small runs of a fresh simulator, step by step: one collection from its request to its last timer, with its
    two timers in either order. */
module SmallRuns {
  import opened Money
  import opened Domain
  import opened Operations
  import opened Protocol
  import opened Duplicates
  import opened Sums

  /* Steps of small runs */

  /** A simulator with no limits and no review. */
  predicate Unlimited(c: Config) { c.perTransaction.None? && c.daily.None? && c.reviewThreshold.None? }

  function CollectionOf(text: string): Body { CollectionBody(Name("collection"), text, "mtn", Name("0")) }

  function CollectionKey(cred: Name): TxKey { TxKey(Collection, cred, Name("collection")) }

  /** The collection as its registration leaves it. */
  function PostedTx(c: Config, cred: Name, text: string, amount: nat): Tx
  {
    Enrolled(c, NewTx(FreshBook(c), CollectionKey(cred), amount, Fee(amount, c.feeRate), CollectionOf(text), Name("0"), FromPayer),
             false)
  }

  function PostCollection(cred: Name, text: string): Step
  {
    PostCall(cred, "a", Collections, CollectionOf(text), false, false)
  }

  /** One collection on a fresh simulator: a registered payment, its two timers, and no money moved yet. */
  lemma CollectionPosted(c: Config, now: nat, cred: Name, text: string, amount: nat)
    requires Unlimited(c) && ParseAmount(text) == Some(amount)
    ensures var s, half := Apply(Fresh(c, now), PostCollection(cred, text)), c.resolveDelayMs / 2;
            && s.book.objs == [PostedTx(c, cred, text, amount)] && s.book.config == c
            && s.book.wallets == map[] && s.book.walletOrder == [] && s.book.ledger == [] && s.book.runs == []
            && s.book.policy == None && s.book.txs == map[CollectionKey(cred) := 0]
            && s.book.events == [Event(0, cred, CollectionAccepted, OfTx(0, PostedTx(c, cred, text, amount)))]
            && s.timers == [Timer(now + Timeout(half), 0, Half(0)), Timer(now + Timeout(c.resolveDelayMs), 0, Final(0, half))]
            && s.epoch == 0 && s.now == now && |s.calls| == 1
            && s.idem == map[IdemKey(cred, "a") := Running(CollectionOf(text))]
  {
    hide ParseAmount, CreateCollection, IdemKey, PostedTx;
    CollectionMade(c, cred, text, amount);
    var half, full := c.resolveDelayMs / 2, c.resolveDelayMs;
    TwoScheduled(now, Later(half, Half(0)), Later(full, Final(0, half)));
    hide Schedule;
  }

  lemma CollectionMade(c: Config, cred: Name, text: string, amount: nat)
    requires Unlimited(c) && ParseAmount(text) == Some(amount)
    ensures var r, half := CreateCollection(FreshBook(c), cred, CollectionOf(text)), c.resolveDelayMs / 2;
            && r.book.objs == [PostedTx(c, cred, text, amount)] && r.book.config == c
            && r.book.wallets == map[] && r.book.walletOrder == [] && r.book.ledger == [] && r.book.runs == []
            && r.book.policy == None && r.book.txs == map[CollectionKey(cred) := 0]
            && r.book.events == [Event(0, cred, CollectionAccepted, OfTx(0, PostedTx(c, cred, text, amount)))]
            && r.later == [Later(half, Half(0)), Later(c.resolveDelayMs, Final(0, half))]
            && r.out == Done(TxReply(202, PostedTx(c, cred, text, amount)))
  {
    hide ParseAmount, Fee, OutcomeFor;
  }

  lemma TwoScheduled(now: nat, x: Later, y: Later)
    ensures [] + Schedule(now, 0, [x, y]) == [Timer(now + Timeout(x.delay), 0, x.act), Timer(now + Timeout(y.delay), 0, y.act)]
  {
  }

  /** A live timer fires: its act runs on the books, and the rest of the queue stays. */
  lemma Fired(s: State, j: nat, at: nat)
    requires IsNext(s.timers, j) && at >= s.now && at >= s.timers[j].due && s.timers[j].epoch == s.epoch
    ensures var t, (b, later) := Apply(s, Fire(j, at)), RunAct(s.book, s.timers[j].act);
            && t.book == b && t.timers == Without(s.timers, j) + Schedule(at, s.epoch, later)
            && t.now == at && t.epoch == s.epoch && t.idem == s.idem && t.calls == s.calls
  {
    hide RunAct;
  }

  /** The books with one more event, telling that payment i is now t. */
  function Telling(b: Book, i: nat, t: Tx): Book
  {
    b.(events := b.events + [Event(|b.events|, t.key.cred, ChangedType(t.key.kind), OfTx(i, t))])
  }

  lemma HalfDoes(b: Book, i: nat)
    requires i < |b.objs|
    ensures var u := b.objs[i].(status := HalfStatus(b.objs[i]));
            RunAct(b, Half(i)) == (Telling(b.(objs := b.objs[i := u]), i, u), [])
  {
  }

  /** The wallet a successful collection leaves, when it is the first movement of its credential. */
  function FirstCredit(c: Config, r: int): Wallet
  {
    var o: nat := if c.openingBalance.Some? then c.openingBalance.value else 0;
    Wallet(o + r, 0, o)
  }

  lemma CreditDoes(b: Book, i: nat, half: nat)
    requires i < |b.objs| && b.objs[i].key.kind == Collection && b.objs[i].outcome == Succeeds
    requires b.objs[i].key.cred !in b.wallets
    ensures var t := b.objs[i];
            var u := t.(status := Settled, settlement := Eligible, completed := true);
            RunAct(b, Final(i, half)) ==
              (Telling(b.(objs := b.objs[i := u],
                          wallets := b.wallets[t.key.cred := FirstCredit(b.config, Recipient(t))],
                          walletOrder := b.walletOrder + [t.key.cred],
                          serial := b.serial + 1,
                          ledger := b.ledger + [Entry(b.serial + 1, t.key.cred, Recipient(t), t.key.reference, CollectionCredit)]),
                       i, u),
               [])
  {
    hide Recipient;
    var cred, credited := b.objs[i].key.cred, FirstCredit(b.config, Recipient(b.objs[i]));
    assert b.wallets[cred := Wallet(credited.opening, 0, credited.opening)][cred := credited] == b.wallets[cred := credited];
  }

  /** The events tell one payment in these statuses, one after the other. */
  predicate ToldInTurn(events: seq<Event>, key: TxKey, statuses: seq<Status>)
  {
    && |events| == |statuses|
    && forall n :: 0 <= n < |events| ==>
         && events[n].id == n && events[n].cred == key.cred && events[n].data.OfTx? && events[n].data.obj == 0
         && events[n].data.tx.key == key && events[n].data.tx.status == statuses[n]
  }

  /** A collection whose two timers have fired, the final one first or last. */
  predicate CollectedBook(b: Book, c: Config, cred: Name, t: Tx, swapped: bool)
  {
    var r := Recipient(t);
    && b.config == c && b.runs == [] && b.policy == None && b.walletOrder == [cred]
    && b.wallets == map[cred := FirstCredit(c, r)]
    && b.ledger == [Entry(b.serial, cred, r, t.key.reference, CollectionCredit)]
    && b.objs == [t.(status := if swapped then Dispatched else Settled, settlement := Eligible, completed := true)]
    && ToldInTurn(b.events, t.key, [Accepted] + if swapped then [Settled, Dispatched] else [Dispatched, Settled])
    && b.txs == map[t.key := 0]
  }

  /** The first timer to fire is the earlier one: the half-way timer, unless the clamp swaps the two. */
  function CollectionRun(c: Config, now: nat, cred: Name, text: string): seq<Step>
  {
    var half, full := now + Timeout(c.resolveDelayMs / 2), now + Timeout(c.resolveDelayMs);
    if full < half then [PostCollection(cred, text)] + [Fire(1, full)] + [Fire(0, half)]
    else [PostCollection(cred, text)] + [Fire(0, half)] + [Fire(0, full)]
  }

  lemma ThreeSteps(s: State, a: Step, b: Step, c: Step)
    ensures Run(s, [a] + [b] + [c]) == Apply(Apply(Apply(s, a), b), c)
  {
    hide Apply;
    OneStep(s, a);
    RunStep(s, [a], b);
    RunStep(s, [a] + [b], c);
  }

  lemma CollectionRuns(c: Config, now: nat, cred: Name, text: string, amount: nat)
    requires Unlimited(c) && c.othersSucceed && ParseAmount(text) == Some(amount)
    ensures var s := Run(Fresh(c, now), CollectionRun(c, now, cred, text));
            && CollectedBook(s.book, c, cred, PostedTx(c, cred, text, amount), !DelaysOrdered(c.resolveDelayMs))
            && s.timers == [] && s.epoch == 0 && s.idem == map[IdemKey(cred, "a") := Running(CollectionOf(text))]
            && |s.calls| == 1
  {
    hide *;
    var half, full := now + Timeout(c.resolveDelayMs / 2), now + Timeout(c.resolveDelayMs);
    PostedIsTwoTimers(c, now, cred, text, amount);
    CollectionRunIs(c, now, cred, text);
    if full < half {
      FinalThenHalf(Apply(Fresh(c, now), PostCollection(cred, text)), c, cred, full, half);
    } else {
      HalfThenFinal(Apply(Fresh(c, now), PostCollection(cred, text)), c, cred, half, full);
    }
  }

  lemma CollectionRunIs(c: Config, now: nat, cred: Name, text: string)
    ensures var s1 := Apply(Fresh(c, now), PostCollection(cred, text));
            var half, full := now + Timeout(c.resolveDelayMs / 2), now + Timeout(c.resolveDelayMs);
            && (DelaysOrdered(c.resolveDelayMs) <==> half <= full)
            && (full < half ==> Run(Fresh(c, now), CollectionRun(c, now, cred, text)) == Apply(Apply(s1, Fire(1, full)), Fire(0, half)))
            && (half <= full ==> Run(Fresh(c, now), CollectionRun(c, now, cred, text)) == Apply(Apply(s1, Fire(0, half)), Fire(0, full)))
  {
    hide *;
    var s0, p := Fresh(c, now), PostCollection(cred, text);
    var half, full := now + Timeout(c.resolveDelayMs / 2), now + Timeout(c.resolveDelayMs);
    SwappedMeans(c.resolveDelayMs, now);
    CollectionRunSteps(c, now, cred, text);
    if full < half {
      ThreeSteps(s0, p, Fire(1, full), Fire(0, half));
    } else {
      ThreeSteps(s0, p, Fire(0, half), Fire(0, full));
    }
  }

  lemma CollectionRunSteps(c: Config, now: nat, cred: Name, text: string)
    ensures var p, half, full := PostCollection(cred, text), now + Timeout(c.resolveDelayMs / 2), now + Timeout(c.resolveDelayMs);
            CollectionRun(c, now, cred, text) ==
            if full < half then [p] + [Fire(1, full)] + [Fire(0, half)] else [p] + [Fire(0, half)] + [Fire(0, full)]
  {
    hide Timeout, PostCollection;
  }

  /** The books after one successful collection was posted on a fresh simulator. */
  predicate JustPosted(b: Book, c: Config, cred: Name)
  {
    && b.config == c && b.runs == [] && b.policy == None && b.walletOrder == [] && b.ledger == [] && b.wallets == map[]
    && |b.objs| == 1 && b.objs[0].key == CollectionKey(cred) && b.objs[0].outcome == Succeeds
    && ToldInTurn(b.events, CollectionKey(cred), [Accepted]) && b.txs == map[CollectionKey(cred) := 0]
  }

  /** That state, with the two timers. */
  predicate TwoTimers(s: State, c: Config, cred: Name, first: nat, final: nat)
  {
    && s.epoch == 0 && s.now <= first && s.now <= final && JustPosted(s.book, c, cred)
    && |s.timers| == 2 && s.timers[0] == Timer(first, 0, Half(0))
    && s.timers[1].due == final && s.timers[1].epoch == 0 && s.timers[1].act.Final? && s.timers[1].act.obj == 0
  }

  lemma PostedIsTwoTimers(c: Config, now: nat, cred: Name, text: string, amount: nat)
    requires Unlimited(c) && c.othersSucceed && ParseAmount(text) == Some(amount)
    ensures var s := Apply(Fresh(c, now), PostCollection(cred, text));
            && TwoTimers(s, c, cred, now + Timeout(c.resolveDelayMs / 2), now + Timeout(c.resolveDelayMs))
            && s.book.objs == [PostedTx(c, cred, text, amount)] && |s.calls| == 1
            && s.idem == map[IdemKey(cred, "a") := Running(CollectionOf(text))]
  {
    CollectionPosted(c, now, cred, text, amount);
    OutcomeSucceeds(c, cred, text, amount);
    hide Apply, ParseAmount, PostedTx, IdemKey;
  }

  lemma OutcomeSucceeds(c: Config, cred: Name, text: string, amount: nat)
    requires c.othersSucceed
    ensures PostedTx(c, cred, text, amount).outcome == Succeeds && PostedTx(c, cred, text, amount).key == CollectionKey(cred)
    ensures PostedTx(c, cred, text, amount).status == Accepted
  {
    hide Fee;
  }

  lemma PostedRegistered(c: Config, cred: Name, text: string, amount: nat)
    ensures PostedTx(c, cred, text, amount).registered
  {
    hide Fee;
  }

  /** What both timers do to those books, the final one first or last. */
  lemma CollectedSwapped(b: Book, c: Config, cred: Name, half: nat)
    requires JustPosted(b, c, cred)
    ensures var (b1, later1) := RunAct(b, Final(0, half));
            var (b2, later2) := RunAct(b1, Half(0));
            && later1 == later2 == []
            && b1.objs == [b.objs[0].(status := Settled, settlement := Eligible, completed := true)]
            && CollectedBook(b2, c, cred, b.objs[0], true)
  {
    CreditDoes(b, 0, half);
    HalfDoes(RunAct(b, Final(0, half)).0, 0);
    hide RunAct, Recipient;
  }

  lemma CollectedInOrder(b: Book, c: Config, cred: Name, half: nat)
    requires JustPosted(b, c, cred)
    ensures var (b1, later1) := RunAct(b, Half(0));
            var (b2, later2) := RunAct(b1, Final(0, half));
            later1 == later2 == [] && CollectedBook(b2, c, cred, b.objs[0], false)
  {
    HalfDoes(b, 0);
    CreditDoes(RunAct(b, Half(0)).0, 0, half);
    hide RunAct, Recipient;
  }

  lemma FinalThenHalf(s: State, c: Config, cred: Name, final: nat, first: nat)
    requires TwoTimers(s, c, cred, first, final) && final < first
    ensures Apply(s, Fire(1, final)).book.objs ==
              [s.book.objs[0].(status := Settled, settlement := Eligible, completed := true)]
    ensures var t := Apply(Apply(s, Fire(1, final)), Fire(0, first));
            && CollectedBook(t.book, c, cred, s.book.objs[0], true)
            && t.timers == [] && t.epoch == 0 && t.idem == s.idem && t.calls == s.calls
  {
    hide Apply, RunAct, Recipient, CollectedBook, JustPosted;
    CollectedSwapped(s.book, c, cred, s.timers[1].act.half);
    Fired(s, 1, final);
    var s1 := Apply(s, Fire(1, final));
    assert s1.timers == [s.timers[0]];
    Fired(s1, 0, first);
  }

  lemma HalfThenFinal(s: State, c: Config, cred: Name, first: nat, final: nat)
    requires TwoTimers(s, c, cred, first, final) && first <= final
    ensures var t := Apply(Apply(s, Fire(0, first)), Fire(0, final));
            && CollectedBook(t.book, c, cred, s.book.objs[0], false)
            && t.timers == [] && t.epoch == 0 && t.idem == s.idem && t.calls == s.calls
  {
    hide Apply, RunAct, CollectedBook, JustPosted;
    CollectedInOrder(s.book, c, cred, s.timers[1].act.half);
    Fired(s, 0, first);
    var s1 := Apply(s, Fire(0, first));
    assert s1.timers == [s.timers[1]];
    Fired(s1, 0, final);
  }

  lemma SwappedMeans(ms: nat, now: nat)
    ensures !DelaysOrdered(ms) <==> now + Timeout(ms) < now + Timeout(ms / 2)
  {
  }

  lemma SumOne<T>(s: seq<T>, f: T -> int)
    requires |s| == 1
    ensures SumBy(s, f) == f(s[0])
  {
    assert s[..0] == [];
  }

  lemma PostedTerms(c: Config, cred: Name)
    requires c.feeBearer == Initiator
    ensures var t := PostedTx(c, cred, "1.00", 100);
            t.registered && t.key == CollectionKey(cred) && Recipient(t) == 100
  {
    hide Fee;
  }

  /* Requests under few keys */

  function PostPayout(cred: Name, key: string, r: PayoutRequest): Step
  {
    PostCall(cred, key, Payouts, PayoutBody(r), false, false)
  }

  /** The keys of these runs name different entries. */
  lemma FewKeys(cred: Name)
    ensures forall k, l :: k in {"a", "b", "c", "d"} && l in {"a", "b", "c", "d"} && k != l ==> IdemKey(cred, k) != IdemKey(cred, l)
  {
    forall k, l | k in {"a", "b", "c", "d"} && l in {"a", "b", "c", "d"} && k != l ensures IdemKey(cred, k) != IdemKey(cred, l) {
      KeysDiffer(cred, k, l);
    }
  }

  lemma ThenTwo(s: State, run: seq<Step>, a: Step, b: Step)
    ensures Run(s, run + [a] + [b]) == Apply(Apply(Run(s, run), a), b)
  {
    hide *;
    RunStep(s, run, a);
    RunStep(s, run + [a], b);
  }

  /** A request under a new key that does not await anything runs to its end at once. */
  lemma PostRuns(s: State, cred: Name, key: string, endpoint: Endpoint, body: Body)
    requires GoodKey(key) && IdemKey(cred, key) !in s.idem && !body.BatchBody?
    ensures var t, r := Apply(s, PostCall(cred, key, endpoint, body, false, false)), Start(s.book, cred, endpoint, body);
            && t.book == r.book && t.timers == s.timers + Schedule(s.now, s.epoch, r.later)
            && t.calls == s.calls + [Call(cred, key, body, true, PhaseOf(r.out))]
            && t.epoch == s.epoch && t.now == s.now && t.idem == s.idem[IdemKey(cred, key) := Running(body)]
  {
    hide Start, IdemKey;
  }
}
