/** The accounting identities of the books, each as a gap that must be zero, and how every primitive
    change of the books moves each gap. */
module Accounting {
  import opened Money
  import opened Domain
  import opened Operations
  import opened Sums

  /* Measures of one record */

  /** How a payment came out, which its completion and its reason for failure tell whatever its status says. */
  predicate Fulfilled(t: Tx) { t.completed && t.failure.None? }
  predicate Reversed(t: Tx) { t.completed && t.failure.Some? }

  /** A payout is unresolved until it is done or refunded; so is a wallet-funded purchase. Until then its
      payer amount stays in the wallet's reserve. */
  function HoldAmount(t: Tx): nat
  {
    match t.key.kind
    case Payout => if t.completed then 0 else Pays(t)
    case Utility => if t.funding == FromWallet && !t.completed then Pays(t) else 0
    case Collection | Transfer => 0
  }

  /** What the ledger must show in total for one payment. */
  function NetEffect(t: Tx): int
  {
    match t.key.kind
    case Collection => if Fulfilled(t) then Recipient(t) else 0
    case Payout => if Reversed(t) then 0 else 0 - Pays(t)
    case Utility => if t.funding == FromPayer || Reversed(t) then 0 else 0 - Pays(t)
    case Transfer => 0 - Pays(t)
  }

  /** What one payment has brought into (or taken out of) all wallets together. */
  function FundsEffect(t: Tx): int
  {
    match t.key.kind
    case Collection => if Fulfilled(t) then Recipient(t) else 0
    case Payout => if Fulfilled(t) then 0 - Pays(t) else 0
    case Utility => if t.funding == FromWallet && Fulfilled(t) then 0 - Pays(t) else 0
    case Transfer => if t.registered then 0 else 0 - Pays(t)
  }

  function EntryKindOf(e: EntryKind): Option<Kind>
  {
    match e
    case CollectionCredit => Some(Collection)
    case PayoutReserve | PayoutRefund => Some(Payout)
    case UtilityReserve | UtilityRefund => Some(Utility)
    case TransferOut => Some(Transfer)
    case TransferIn | SettlementPaid | Adjustment => None
  }

  predicate Concerns(e: Entry, k: TxKey)
  {
    e.wallet == k.cred && e.ref == k.reference && EntryKindOf(e.kind) == Some(k.kind)
  }

  function DeltaOf(w: Name): Entry -> int { (e: Entry) => if e.wallet == w then e.delta else 0 }
  function DeltaFor(k: TxKey): Entry -> int { (e: Entry) => if Concerns(e, k) then e.delta else 0 }
  function AdjustmentOf(): Entry -> int { (e: Entry) => if e.kind == EntryKind.Adjustment then e.delta else 0 }

  function HoldOf(w: Name): Tx -> int { (t: Tx) => if t.key.cred == w then HoldAmount(t) else 0 }
  function NetOf(k: TxKey): Tx -> int { (t: Tx) => if t.key == k then NetEffect(t) else 0 }
  function EffectOf(k: TxKey): Tx -> int { (t: Tx) => if t.key == k && t.registered then 1 else 0 }
  function InwardOf(w: Name): Tx -> int
  {
    (t: Tx) => if t.registered && t.key.cred == w && t.key.kind == Collection then t.amount else 0
  }
  function OutwardOf(w: Name): Tx -> int
  {
    (t: Tx) => if t.registered && t.key.cred == w && t.key.kind != Collection then t.amount else 0
  }
  function FundsOf(): Tx -> int { (t: Tx) => FundsEffect(t) }

  function PaidBy(r: SettlementRun): int { if r.total > 0 then r.total else 0 }
  function PaidOf(): SettlementRun -> int { (r: SettlementRun) => PaidBy(r) }

  function WalletFunds(m: map<Name, Wallet>): Name -> int
  {
    (w: Name) => if w in m then m[w].balance + m[w].reserved - m[w].opening else 0
  }

  /* The quantities and their gaps */

  function NetBalance(b: Book, w: Name): int { if w in b.wallets then b.wallets[w].balance - b.wallets[w].opening else 0 }
  function Reserved(b: Book, w: Name): int { if w in b.wallets then b.wallets[w].reserved else 0 }
  function Funds(b: Book): int { SumBy(b.walletOrder, WalletFunds(b.wallets)) }

  /** state() reports this difference as a wallet's drift. */
  function Drift(b: Book, w: Name): int { NetBalance(b, w) - SumBy(b.ledger, DeltaOf(w)) }
  function ReserveGap(b: Book, w: Name): int { Reserved(b, w) - SumBy(b.objs, HoldOf(w)) }
  function TxGap(b: Book, k: TxKey): int { SumBy(b.ledger, DeltaFor(k)) - SumBy(b.objs, NetOf(k)) }
  function EffectGap(b: Book, k: TxKey): int { Count(b.effects, k) - SumBy(b.objs, EffectOf(k)) }
  function InwardGap(b: Book, w: Name): int { Volume(b.dailyIn, w) - SumBy(b.objs, InwardOf(w)) }
  function OutwardGap(b: Book, w: Name): int { Volume(b.dailyOut, w) - SumBy(b.objs, OutwardOf(w)) }
  function FundsGap(b: Book): int
  {
    Funds(b) - SumBy(b.objs, FundsOf()) - SumBy(b.ledger, AdjustmentOf()) + SumBy(b.runs, PaidOf())
  }

  /** A list names every member of a set exactly once. */
  predicate Listed<T(==)>(order: seq<T>, keys: set<T>)
  {
    if order == [] then keys == {}
    else order[|order| - 1] in keys && Listed(order[..|order| - 1], keys - {order[|order| - 1]})
  }

  predicate WalletsOk(b: Book) { Listed(b.walletOrder, b.wallets.Keys) }

  /** The identities of one wallet and one payment key that no status enters: drift, effects and volumes. */
  predicate CountsAt(b: Book, w: Name, k: TxKey)
  {
    && Drift(b, w) == 0
    && EffectGap(b, k) == 0
    && InwardGap(b, w) == 0
    && OutwardGap(b, w) == 0
  }

  /** All identities of one wallet and one payment key. */
  predicate BalancedAt(b: Book, w: Name, k: TxKey)
  {
    && CountsAt(b, w, k)
    && ReserveGap(b, w) == 0
    && TxGap(b, k) == 0
  }

  ghost predicate Balanced(b: Book)
  {
    && WalletsOk(b)
    && FundsGap(b) == 0
    && (forall w, k :: BalancedAt(b, w, k))
  }

  /* How the primitives move the gaps */

  lemma {:induction false} FundsSame(order: seq<Name>, keys: set<Name>, m: map<Name, Wallet>, n: map<Name, Wallet>)
    requires Listed(order, keys)
    requires forall w :: w in keys ==> WalletFunds(m)(w) == WalletFunds(n)(w)
    ensures SumBy(order, WalletFunds(m)) == SumBy(order, WalletFunds(n))
  {
    if order != [] {
      var last := order[|order| - 1];
      FundsSame(order[..|order| - 1], keys - {last}, m, n);
    }
  }

  lemma {:induction false} FundsUpdate(order: seq<Name>, keys: set<Name>, m: map<Name, Wallet>, id: Name, w: Wallet)
    requires Listed(order, keys) && id in keys && id in m
    ensures SumBy(order, WalletFunds(m[id := w])) ==
            SumBy(order, WalletFunds(m)) - WalletFunds(m)(id) + WalletFunds(m[id := w])(id)
  {
    var init, last := order[..|order| - 1], order[|order| - 1];
    if last == id {
      FundsSame(init, keys - {last}, m, m[id := w]);
    } else {
      FundsUpdate(init, keys - {last}, m, id, w);
      assert WalletFunds(m)(last) == WalletFunds(m[id := w])(last);
    }
  }

  lemma ListedAppend<T>(order: seq<T>, keys: set<T>, id: T)
    requires Listed(order, keys) && id !in keys
    ensures Listed(order + [id], keys + {id})
  {
    assert keys + {id} - {id} == keys;
  }

  lemma EnsureKeepsOrder(b: Book, id: Name)
    requires WalletsOk(b)
    ensures WalletsOk(EnsureWallet(b, id))
  {
    hide Listed;
    if id !in b.wallets {
      ListedAppend(b.walletOrder, b.wallets.Keys, id);
      assert EnsureWallet(b, id).wallets.Keys == b.wallets.Keys + {id};
    }
  }

  lemma EnsureKeepsFunds(b: Book, id: Name)
    requires WalletsOk(b)
    ensures Funds(EnsureWallet(b, id)) == Funds(b)
  {
    hide Listed, SumBy;
    if id !in b.wallets {
      var m := EnsureWallet(b, id).wallets;
      FundsSame(b.walletOrder, b.wallets.Keys, b.wallets, m);
      SumAppend(b.walletOrder, id, WalletFunds(m));
    }
  }

  lemma EnsureAt(b: Book, id: Name, w: Name)
    ensures id in EnsureWallet(b, id).wallets
    ensures Drift(EnsureWallet(b, id), w) == Drift(b, w)
    ensures ReserveGap(EnsureWallet(b, id), w) == ReserveGap(b, w)
  {
    hide SumBy;
    if id in b.wallets {} else {}
  }

  lemma AdjustAt(b: Book, id: Name, db: int, dr: int, w: Name)
    requires id in b.wallets
    ensures Drift(Adjust(b, id, db, dr), w) == Drift(b, w) + if w == id then db else 0
    ensures ReserveGap(Adjust(b, id, db, dr), w) == ReserveGap(b, w) + if w == id then dr else 0
  {
    hide SumBy;
  }

  lemma AdjustFunds(b: Book, id: Name, db: int, dr: int)
    requires WalletsOk(b) && id in b.wallets
    ensures WalletsOk(Adjust(b, id, db, dr))
    ensures Funds(Adjust(b, id, db, dr)) == Funds(b) + db + dr
  {
    hide SumBy, Listed;
    var c := Adjust(b, id, db, dr);
    assert c.wallets.Keys == b.wallets.Keys;
    FundsUpdate(b.walletOrder, b.wallets.Keys, b.wallets, id, c.wallets[id]);
  }

  lemma PostAt(b: Book, id: Name, delta: int, ref: Name, kind: EntryKind, w: Name, k: TxKey)
    ensures var c := Post(b, id, delta, ref, kind);
            && Drift(c, w) == Drift(b, w) - (if w == id then delta else 0)
            && ReserveGap(c, w) == ReserveGap(b, w)
            && TxGap(c, k) == TxGap(b, k) + (if Concerns(Entry(b.serial + 1, id, delta, ref, kind), k) then delta else 0)
  {
    hide SumBy;
    var e := Entry(b.serial + 1, id, delta, ref, kind);
    SumAppend(b.ledger, e, DeltaOf(w));
    SumAppend(b.ledger, e, DeltaFor(k));
  }

  lemma MoveAt(b: Book, id: Name, db: int, dr: int, ref: Name, kind: EntryKind, w: Name, k: TxKey)
    ensures var c := Move(b, id, db, dr, ref, kind);
            && Drift(c, w) == Drift(b, w)
            && ReserveGap(c, w) == ReserveGap(b, w) + (if w == id then dr else 0)
            && TxGap(c, k) == TxGap(b, k) + (if Concerns(Entry(b.serial + 1, id, db, ref, kind), k) then db else 0)
  {
    hide SumBy;
    var e := EnsureWallet(b, id);
    EnsureAt(b, id, w);
    AdjustAt(e, id, db, dr, w);
    PostAt(Adjust(e, id, db, dr), id, db, ref, kind, w, k);
  }

  lemma MoveFunds(b: Book, id: Name, db: int, dr: int, ref: Name, kind: EntryKind)
    requires WalletsOk(b)
    ensures var c := Move(b, id, db, dr, ref, kind);
            && WalletsOk(c)
            && FundsGap(c) == FundsGap(b) + db + dr - (if kind == EntryKind.Adjustment then db else 0)
  {
    hide SumBy, Listed;
    var e := EnsureWallet(b, id);
    EnsureKeepsOrder(b, id);
    EnsureKeepsFunds(b, id);
    AdjustFunds(e, id, db, dr);
    SumAppend(b.ledger, Entry(b.serial + 1, id, db, ref, kind), AdjustmentOf());
  }

  lemma AddAt(b: Book, t: Tx, w: Name, k: TxKey)
    ensures var c := AddObj(b, t);
            && Drift(c, w) == Drift(b, w)
            && ReserveGap(c, w) == ReserveGap(b, w) - HoldOf(w)(t)
            && TxGap(c, k) == TxGap(b, k) - NetOf(k)(t)
            && EffectGap(c, k) == EffectGap(b, k) - EffectOf(k)(t)
            && InwardGap(c, w) == InwardGap(b, w) - InwardOf(w)(t)
            && OutwardGap(c, w) == OutwardGap(b, w) - OutwardOf(w)(t)
  {
    hide SumBy;
    SumAppend(b.objs, t, HoldOf(w));
    SumAppend(b.objs, t, NetOf(k));
    SumAppend(b.objs, t, EffectOf(k));
    SumAppend(b.objs, t, InwardOf(w));
    SumAppend(b.objs, t, OutwardOf(w));
  }

  lemma AddFunds(b: Book, t: Tx)
    ensures FundsGap(AddObj(b, t)) == FundsGap(b) - FundsEffect(t)
  {
    hide SumBy;
    SumAppend(b.objs, t, FundsOf());
  }

  lemma SetAt(b: Book, i: nat, t: Tx, w: Name, k: TxKey)
    requires i < |b.objs|
    ensures var c, o := SetObj(b, i, t), b.objs[i];
            && Drift(c, w) == Drift(b, w)
            && ReserveGap(c, w) == ReserveGap(b, w) + HoldOf(w)(o) - HoldOf(w)(t)
            && TxGap(c, k) == TxGap(b, k) + NetOf(k)(o) - NetOf(k)(t)
            && EffectGap(c, k) == EffectGap(b, k) + EffectOf(k)(o) - EffectOf(k)(t)
            && InwardGap(c, w) == InwardGap(b, w) + InwardOf(w)(o) - InwardOf(w)(t)
            && OutwardGap(c, w) == OutwardGap(b, w) + OutwardOf(w)(o) - OutwardOf(w)(t)
  {
    hide SumBy;
    SumUpdate(b.objs, i, t, HoldOf(w));
    SumUpdate(b.objs, i, t, NetOf(k));
    SumUpdate(b.objs, i, t, EffectOf(k));
    SumUpdate(b.objs, i, t, InwardOf(w));
    SumUpdate(b.objs, i, t, OutwardOf(w));
  }

  lemma SetFunds(b: Book, i: nat, t: Tx)
    requires i < |b.objs|
    ensures FundsGap(SetObj(b, i, t)) == FundsGap(b) + FundsEffect(b.objs[i]) - FundsEffect(t)
  {
    hide SumBy;
    SumUpdate(b.objs, i, t, FundsOf());
  }
}
