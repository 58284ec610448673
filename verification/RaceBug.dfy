/** The switch that plants a lost update: the debit reads the balance, waits, and writes back what it read
    less its amount. Two such debits of one wallet that overlap leave the wallet and its ledger apart. */
module RaceBug {
  import opened Money
  import opened Domain
  import opened Operations
  import opened Accounting
  import opened Sums

  /** The write half: the balance becomes what was seen less the amount, whatever happened since. */
  function StaleWrite(b: Book, cred: Name, seen: int, amount: nat, ref: Name, kind: EntryKind): Book
    requires cred in b.wallets
  {
    var w := b.wallets[cred];
    Post(b.(wallets := b.wallets[cred := Wallet(seen - amount, w.reserved, w.opening)]), cred, 0 - amount, ref, kind)
  }

  lemma StaleWriteDrift(b: Book, cred: Name, seen: int, amount: nat, ref: Name, kind: EntryKind)
    requires cred in b.wallets
    ensures var c := StaleWrite(b, cred, seen, amount, ref, kind);
            && cred in c.wallets && c.wallets[cred].balance == seen - amount
            && Drift(c, cred) == Drift(b, cred) + seen - b.wallets[cred].balance
  {
    hide SumBy;
    SumAppend(b.ledger, Entry(b.serial + 1, cred, 0 - amount, ref, kind), DeltaOf(cred));
  }

  /** With nothing in between, reading and writing keep the wallet and its ledger together. */
  lemma UndisturbedDebitIsExact(b: Book, cred: Name, amount: nat, ref: Name, kind: EntryKind)
    requires cred in b.wallets
    ensures Drift(StaleWrite(b, cred, b.wallets[cred].balance, amount, ref, kind), cred) == Drift(b, cred)
  {
    StaleWriteDrift(b, cred, b.wallets[cred].balance, amount, ref, kind);
  }

  /** Both debits read before either writes: the first one's amount is lost from the balance, so the wallet
      drifts by exactly that amount. */
  lemma OverlappingDebitsDrift(b: Book, cred: Name, first: nat, second: nat, ref: Name, kind: EntryKind)
    requires cred in b.wallets
    ensures var seen := b.wallets[cred].balance;
            var c := StaleWrite(b, cred, seen, first, ref, kind);
            cred in c.wallets && Drift(StaleWrite(c, cred, seen, second, ref, kind), cred) == Drift(b, cred) + first
  {
    hide Drift, StaleWrite;
    var seen := b.wallets[cred].balance;
    StaleWriteDrift(b, cred, seen, first, ref, kind);
    StaleWriteDrift(StaleWrite(b, cred, seen, first, ref, kind), cred, seen, second, ref, kind);
  }
}
