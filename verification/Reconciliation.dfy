/** What the reconciliation view reports in every reachable state, and why: no drift, reserves equal to
    what is unresolved, ledger entries that explain every payment, and conservation of money. All of it holds
    under any configurations and in any order of the timers. */
module Reconciliation {
  import opened Money
  import opened Domain
  import opened Operations
  import opened Accounting
  import opened BookInvariants
  import opened Shapes
  import opened Protocol
  import opened Segments
  import opened Groundwork
  import opened Bookkeeping
  import opened Sums

  function Abs(x: int): nat { if x < 0 then 0 - x else x }

  function DriftOf(b: Book): Name -> int { (w: Name) => Abs(Drift(b, w)) }

  /** The total drift that state() reports. */
  function LedgerDrift(b: Book): int { SumBy(b.walletOrder, DriftOf(b)) }

  /** In every run, whatever the interleaving, the configurations and the order of the timers: the reported
      drift is zero, and every balance is its opening plus its ledger entries. */
  lemma NoDrift(c: Config, now: nat, steps: seq<Step>, w: Name)
    ensures var b := Run(Fresh(c, now), steps).book;
            && LedgerDrift(b) == 0
            && (w in b.wallets ==> b.wallets[w].balance == b.wallets[w].opening + SumBy(b.ledger, DeltaOf(w)))
  {
    RunKeepsGround(c, now, steps);
    hide SumBy, Run, CallsOk, IndexedBut;
    TalliedDrift(Run(Fresh(c, now), steps).book);
  }

  lemma TalliedDrift(b: Book)
    requires Tallied(b)
    ensures LedgerDrift(b) == 0 && forall w :: Drift(b, w) == 0
  {
    hide SumBy;
    var anyKey := TxKey(Collection, Name(""), Name(""));
    forall w ensures Drift(b, w) == 0 { assert CountsAt(b, w, anyKey); }
    SumZero(b.walletOrder, DriftOf(b));
  }

  /** In every run: every wallet's reserve is what its uncompleted payouts and wallet-funded purchases hold, so
      it is never negative. */
  lemma NoStrayReserve(c: Config, now: nat, steps: seq<Step>, w: Name)
    ensures var b := Run(Fresh(c, now), steps).book;
            Reserved(b, w) == SumBy(b.objs, HoldOf(w)) >= 0
  {
    hide SumBy, Run, Balanced;
    RunBalanced(c, now, steps);
    BalancedReserve(Run(Fresh(c, now), steps).book, w);
  }

  lemma RunBalanced(c: Config, now: nat, steps: seq<Step>)
    ensures Balanced(Run(Fresh(c, now), steps).book)
  {
    RunSturdy(c, now, steps);
    SturdyParts(Run(Fresh(c, now), steps));
    hide *;
  }

  lemma BalancedReserve(b: Book, w: Name)
    requires Balanced(b)
    ensures Reserved(b, w) == SumBy(b.objs, HoldOf(w)) >= 0
  {
    hide SumBy, Listed;
    assert BalancedAt(b, w, TxKey(Collection, Name(""), Name("")));
    SumNonNegative(b.objs, HoldOf(w));
  }

  /** The ledger explains every payment key: its entries sum to the net effect of its payments. */
  lemma LedgerExplains(c: Config, now: nat, steps: seq<Step>, k: TxKey)
    ensures var b := Run(Fresh(c, now), steps).book;
            SumBy(b.ledger, DeltaFor(k)) == SumBy(b.objs, NetOf(k))
  {
    hide SumBy, Run, Listed;
    RunBalanced(c, now, steps);
    assert BalancedAt(Run(Fresh(c, now), steps).book, k.cred, k);
  }

  /** In every run the day's volumes of a credential are the amounts of its registered payments, in and out. */
  lemma VolumesMatch(c: Config, now: nat, steps: seq<Step>, w: Name)
    ensures var b := Run(Fresh(c, now), steps).book;
            Volume(b.dailyIn, w) == SumBy(b.objs, InwardOf(w)) && Volume(b.dailyOut, w) == SumBy(b.objs, OutwardOf(w))
  {
    RunKeepsGround(c, now, steps);
    hide SumBy, Run, CallsOk, IndexedBut;
    assert CountsAt(Run(Fresh(c, now), steps).book, w, TxKey(Collection, w, w));
  }

  /** A payment key whose every payment was refunded has ledger entries that cancel exactly. */
  lemma RefundsCancel(c: Config, now: nat, steps: seq<Step>, k: TxKey)
    requires k.kind in {Payout, Utility}
    requires var b := Run(Fresh(c, now), steps).book;
             forall i :: 0 <= i < |b.objs| && b.objs[i].key == k ==> b.objs[i].status == Refunded || Reversed(b.objs[i])
    ensures SumBy(Run(Fresh(c, now), steps).book.ledger, DeltaFor(k)) == 0
  {
    RunSturdy(c, now, steps);
    SturdyParts(Run(Fresh(c, now), steps));
    hide Run, Sturdy, Ground, Balanced, Timed;
    LedgerExplains(c, now, steps, k);
    var b := Run(Fresh(c, now), steps).book;
    forall i | 0 <= i < |b.objs| ensures NetOf(k)(b.objs[i]) == 0 { assert FixedTx(b.objs[i]); }
    SumZero(b.objs, NetOf(k));
  }

  /* The report */

  datatype WalletRow = WalletRow(id: Name, balance: int, reserved: int, ledgerBalance: int, drift: int)

  /** What state() answers. Of the counts only those that are not zero are entered. */
  datatype Report = Report(
    wallets: seq<WalletRow>, total: nat, byKind: map<(Kind, Status), int>, duplicates: int, negative: seq<Name>,
    drift: int)

  function RowOf(b: Book, id: Name): WalletRow
  {
    var w := WalletOf(b.wallets, id);
    var sum := SumBy(b.ledger, DeltaOf(id));
    WalletRow(id, w.balance, w.reserved, w.opening + sum, w.balance - (w.opening + sum))
  }

  function WalletOf(m: map<Name, Wallet>, id: Name): Wallet { if id in m then m[id] else Wallet(0, 0, 0) }

  /** Whether the payment recorded under a key is of this kind and stands at this status. */
  predicate StandsAt(b: Book, k: TxKey, at: (Kind, Status))
  {
    k in b.txs && b.txs[k] < |b.objs| && b.objs[b.txs[k]].key.kind == at.0 && b.objs[b.txs[k]].status == at.1
  }

  function Flag<T>(p: T -> bool): T -> int { (x: T) => if p(x) then 1 else 0 }

  function StandingAt(b: Book, at: (Kind, Status)): TxKey -> bool { (k: TxKey) => StandsAt(b, k, at) }

  function Tally(b: Book, at: (Kind, Status)): int { SumBy(b.order, Flag(StandingAt(b, at))) }

  function Negative(ids: seq<Name>, m: map<Name, Wallet>): seq<Name>
  {
    if ids == [] then []
    else
      var id := ids[|ids| - 1];
      Negative(ids[..|ids| - 1], m) + if WalletOf(m, id).balance < 0 then [id] else []
  }

  lemma {:induction false} NegativeExactly(ids: seq<Name>, m: map<Name, Wallet>, id: Name)
    ensures id in Negative(ids, m) <==> id in ids && WalletOf(m, id).balance < 0
  {
    if ids != [] {
      NegativeExactly(ids[..|ids| - 1], m, id);
      assert ids == ids[..|ids| - 1] + [ids[|ids| - 1]];
    }
  }

  lemma {:induction false} ListedMembers<T>(order: seq<T>, keys: set<T>)
    requires Listed(order, keys)
    ensures |order| == |keys| && forall x :: x in order <==> x in keys
  {
    if order != [] {
      var init, last := order[..|order| - 1], order[|order| - 1];
      ListedMembers(init, keys - {last});
      assert order == init + [last];
      assert keys == keys - {last} + {last};
    }
  }

  /** Flags counted along a list count the members they stand for. */
  lemma {:induction false} ListedCount<T>(order: seq<T>, keys: set<T>, p: T -> bool, members: set<T>)
    requires Listed(order, keys) && forall x :: x in members <==> x in keys && p(x)
    ensures SumBy(order, Flag(p)) == |members|
  {
    if order == [] {
      assert members == {};
    } else {
      var last := order[|order| - 1];
      ListedCount(order[..|order| - 1], keys - {last}, p, members - {last});
    }
  }

  /** The counts of the payments of the first keys. */
  ghost predicate CountedSoFar(b: Book, ks: seq<TxKey>, m: map<(Kind, Status), int>)
  {
    forall at :: CountedAt(b, ks, m, at)
  }

  predicate CountedAt(b: Book, ks: seq<TxKey>, m: map<(Kind, Status), int>, at: (Kind, Status))
  {
    var n := SumBy(ks, Flag(StandingAt(b, at)));
    n >= 0 && (at in m <==> n != 0) && (at in m ==> m[at] == n)
  }

  lemma CountNext(b: Book, ks: seq<TxKey>, k: TxKey, m: map<(Kind, Status), int>)
    requires CountedSoFar(b, ks, m)
    ensures k in b.txs && b.txs[k] < |b.objs| ==>
              var at := (b.objs[b.txs[k]].key.kind, b.objs[b.txs[k]].status);
              CountedSoFar(b, ks + [k], m[at := (if at in m then m[at] else 0) + 1])
    ensures !(k in b.txs && b.txs[k] < |b.objs|) ==> CountedSoFar(b, ks + [k], m)
  {
    hide SumBy;
    var known := k in b.txs && b.txs[k] < |b.objs|;
    var here := if known then (b.objs[b.txs[k]].key.kind, b.objs[b.txs[k]].status) else (Collection, Pending);
    var n := if known then m[here := (if here in m then m[here] else 0) + 1] else m;
    forall at ensures CountedAt(b, ks + [k], n, at) {
      assert CountedAt(b, ks, m, at);
      SumAppend(ks, k, Flag(StandingAt(b, at)));
    }
  }

  lemma CountedAll(b: Book, m: map<(Kind, Status), int>)
    requires CountedSoFar(b, b.order, m)
    ensures forall at :: (at in m <==> Tally(b, at) != 0) && (at in m ==> m[at] == Tally(b, at))
  {
    hide SumBy;
    forall at ensures (at in m <==> Tally(b, at) != 0) && (at in m ==> m[at] == Tally(b, at)) {
      assert CountedAt(b, b.order, m, at);
    }
  }

  /** In every run every row of the report shows a balance that equals its ledger. */
  lemma NoRowDrifts(c: Config, now: nat, steps: seq<Step>)
    ensures var b := Run(Fresh(c, now), steps).book;
            forall i :: 0 <= i < |b.walletOrder| ==> RowOf(b, b.walletOrder[i]).drift == 0
  {
    RunKeepsGround(c, now, steps);
    hide SumBy, Run, CallsOk, IndexedBut;
    TalliedDrift(Run(Fresh(c, now), steps).book);
  }

  /** In every run the report lists exactly the wallets that are negative, counts as many payments as there
      are keys, and counts each under its own kind and status once. */
  lemma ReportCounts(c: Config, now: nat, steps: seq<Step>, id: Name, at: (Kind, Status))
    ensures var b := Run(Fresh(c, now), steps).book;
            && (id in Negative(b.walletOrder, b.wallets) <==> id in b.wallets && b.wallets[id].balance < 0)
            && |b.order| == |b.txs|
            && Tally(b, at) == |set k | k in b.txs && StandsAt(b, k, at)|
  {
    var b := Run(Fresh(c, now), steps).book;
    RunKeepsGround(c, now, steps);
    GroundLists(Run(Fresh(c, now), steps));
    hide Listed, Run, Negative, SumBy, StandsAt;
    CountsFollow(b, id, at);
  }

  lemma GroundLists(s: State)
    requires Ground(s)
    ensures Listed(s.book.walletOrder, s.book.wallets.Keys) && Listed(s.book.order, s.book.txs.Keys)
  {
    hide Listed, CountsAt, CallsOk;
  }

  lemma CountsFollow(b: Book, id: Name, at: (Kind, Status))
    requires Listed(b.walletOrder, b.wallets.Keys) && Listed(b.order, b.txs.Keys)
    ensures (id in Negative(b.walletOrder, b.wallets) <==> id in b.wallets && b.wallets[id].balance < 0)
    ensures |b.order| == |b.txs|
    ensures Tally(b, at) == |set k | k in b.txs && StandsAt(b, k, at)|
  {
    hide Listed, SumBy, Negative, StandsAt;
    NegativeExactly(b.walletOrder, b.wallets, id);
    ListedMembers(b.walletOrder, b.wallets.Keys);
    ListedMembers(b.order, b.txs.Keys);
    ListedCount(b.order, b.txs.Keys, StandingAt(b, at), set k | k in b.txs && StandsAt(b, k, at));
    assert |b.txs| == |b.txs.Keys|;
  }

  /* Conservation */

  function BalanceAndReserve(m: map<Name, Wallet>): Name -> int
  {
    (w: Name) => if w in m then m[w].balance + m[w].reserved else 0
  }
  function OpeningOf(m: map<Name, Wallet>): Name -> int { (w: Name) => if w in m then m[w].opening else 0 }

  function Collected(): Tx -> int { (t: Tx) => if t.key.kind == Collection && Fulfilled(t) then Recipient(t) else 0 }
  function PaidAway(): Tx -> int
  {
    (t: Tx) =>
      if Fulfilled(t) && (t.key.kind == Payout || (t.key.kind == Utility && t.funding == FromWallet))
      then Pays(t) else 0
  }
  function InTransit(): Tx -> int { (t: Tx) => if t.key.kind == Transfer && !t.registered then Pays(t) else 0 }

  lemma {:induction false} SumPlus<T>(s: seq<T>, f: T -> int, g: T -> int, h: T -> int)
    requires forall x: T :: f(x) == g(x) - h(x)
    ensures SumBy(s, f) == SumBy(s, g) - SumBy(s, h)
  {
    if s != [] { SumPlus(s[..|s| - 1], f, g, h); }
  }

  lemma {:induction false} FundsSplit(s: seq<Tx>)
    ensures SumBy(s, FundsOf()) == SumBy(s, Collected()) - SumBy(s, PaidAway()) - SumBy(s, InTransit())
  {
    if s != [] { FundsSplit(s[..|s| - 1]); }
  }

  /** All balances and reserves are the openings plus collected payments and control adjustments, less delivered
      payouts and purchases and paid settlements. The amount of a transfer between its debit and its credit is
      in transit; refunds cancel. */
  predicate Conserved(b: Book)
  {
    SumBy(b.walletOrder, BalanceAndReserve(b.wallets)) ==
      SumBy(b.walletOrder, OpeningOf(b.wallets)) + SumBy(b.objs, Collected()) + SumBy(b.ledger, AdjustmentOf())
      - SumBy(b.objs, PaidAway()) - SumBy(b.objs, InTransit()) - SumBy(b.runs, PaidOf())
  }

  /** Over a whole run no money is made or lost. */
  lemma MoneyConserved(c: Config, now: nat, steps: seq<Step>)
    ensures Conserved(Run(Fresh(c, now), steps).book)
  {
    hide SumBy, Run, Listed, BalancedAt;
    RunBalanced(c, now, steps);
    var b := Run(Fresh(c, now), steps).book;
    SumPlus(b.walletOrder, WalletFunds(b.wallets), BalanceAndReserve(b.wallets), OpeningOf(b.wallets));
    FundsSplit(b.objs);
    assert FundsGap(b) == 0;
  }

  /** With no call waiting, nothing is in transit: every transfer has cancelled. */
  lemma TransfersCancel(s: State)
    requires Ground(s) && Idle(s)
    ensures SumBy(s.book.objs, InTransit()) == 0
  {
    GroundParts(s);
    hide Ground, Grounded, SumBy, CallsOk;
    forall i | 0 <= i < |s.book.objs| ensures InTransit()(s.book.objs[i]) == 0 { IdleRegistered(s, i); }
    SumZero(s.book.objs, InTransit());
  }

  lemma IdleRegistered(s: State, i: nat)
    requires CallsOk(s) && Idle(s) && i < |s.book.objs|
    ensures s.book.objs[i].registered
  {
    assert Waiting(s, i) == Unregistered(s.book, i);
    SumZero(s.calls, WaitingOn(i));
  }
}
