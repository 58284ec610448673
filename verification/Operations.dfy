/** What each operation of the simulator does to its books, as functions of the books. The class
    Simulator performs the same operations in place and is proved equal to these functions; the
    properties are proved about the functions. An operation returns the new books, the timers it
    schedules, and either an answer or the payment whose debit it is awaiting. */
module Operations {
  import opened Money
  import opened Domain

  datatype Batch = Batch(hash: Body, reply: Reply)

  datatype Book = Book(
    config: Config,
    serial: nat,
    wallets: map<Name, Wallet>,
    walletOrder: seq<Name>,
    objs: seq<Tx>,               // every payment object whose debit went through
    txs: map<TxKey, nat>,        // the transactions map: key to object
    order: seq<TxKey>,           // its keys in insertion order
    ledger: seq<Entry>,
    events: seq<Event>,
    effects: map<TxKey, nat>,
    batches: map<(Name, Name), Batch>,
    runs: seq<SettlementRun>,
    policy: Option<nat>,
    dailyIn: map<Name, nat>,
    dailyOut: map<Name, nat>)

  function FreshBook(c: Config): Book
  {
    Book(c, 0, map[], [], [], map[], [], [], [], map[], map[], [], None, map[], map[])
  }

  datatype Out = Done(reply: Reply) | Fail(code: Code) | Await(obj: nat)

  datatype Result = Result(book: Book, later: seq<Later>, out: Out)

  /* Wallets and ledger */

  function EnsureWallet(b: Book, id: Name): Book
  {
    if id in b.wallets then b
    else
      var o: nat := if b.config.openingBalance.Some? then b.config.openingBalance.value else 0;
      b.(wallets := b.wallets[id := Wallet(o, 0, o)], walletOrder := b.walletOrder + [id])
  }

  /** Only the wallets and their order may change. */
  lemma EnsuresOnly(b: Book, id: Name)
    ensures var c := EnsureWallet(b, id);
            c == b.(wallets := c.wallets, walletOrder := c.walletOrder) && id in c.wallets
  {
  }

  function Post(b: Book, wallet: Name, delta: int, ref: Name, kind: EntryKind): Book
  {
    b.(serial := b.serial + 1, ledger := b.ledger + [Entry(b.serial + 1, wallet, delta, ref, kind)])
  }

  /** Adds to a wallet's balance and reserve. */
  function Adjust(b: Book, id: Name, balance: int, reserved: int): Book
    requires id in b.wallets
  {
    var w := b.wallets[id];
    b.(wallets := b.wallets[id := Wallet(w.balance + balance, w.reserved + reserved, w.opening)])
  }

  predicate CanDebit(b: Book, cred: Name, amount: int)
  {
    EnsureWallet(b, cred).wallets[cred].balance >= amount
  }

  /** A posted movement: the balance moves with a ledger entry, the reserve by its own amount. */
  function Move(b: Book, id: Name, db: int, dr: int, ref: Name, kind: EntryKind): Book
  {
    Post(Adjust(EnsureWallet(b, id), id, db, dr), id, db, ref, kind)
  }

  function Debit(b: Book, cred: Name, amount: nat, ref: Name, kind: EntryKind, reserve: bool): Book
  {
    Move(b, cred, 0 - amount, if reserve then amount else 0, ref, kind)
  }

  function Credit(b: Book, cred: Name, amount: int, ref: Name, kind: EntryKind): Book
  {
    Move(b, cred, amount, 0, ref, kind)
  }

  function Release(b: Book, cred: Name, amount: int): Book
  {
    Adjust(EnsureWallet(b, cred), cred, 0, -amount)
  }

  /* Limits, references, fees */

  function Volume(book: map<Name, nat>, cred: Name): nat { if cred in book then book[cred] else 0 }

  /** A limit that does not parse, such as "0.00", is no limit. */
  function CheckLimits(b: Book, cred: Name, amount: nat, inward: bool): Option<Code>
  {
    var per, daily := b.config.perTransaction, b.config.daily;
    if per.Some? && amount > per.value then Some(TransactionLimitExceeded)
    else if daily.Some? && Volume(if inward then b.dailyIn else b.dailyOut, cred) + amount > daily.value
    then Some(DailyLimitExceeded)
    else None
  }

  function NoteVolume(b: Book, cred: Name, amount: nat, inward: bool): Book
  {
    if inward then b.(dailyIn := b.dailyIn[cred := Volume(b.dailyIn, cred) + amount])
    else b.(dailyOut := b.dailyOut[cred := Volume(b.dailyOut, cred) + amount])
  }

  /** Only the volumes may change. */
  lemma NotesOnly(b: Book, cred: Name, amount: nat, inward: bool)
    ensures var c := NoteVolume(b, cred, amount, inward);
            c == b.(dailyIn := c.dailyIn, dailyOut := c.dailyOut)
  {
  }

  datatype Lookup = Absent | Same(obj: nat) | Conflict

  /** The reference rules: same reference and body is the original payment, another body is refused. */
  function Existing(b: Book, key: TxKey, hash: Body): Lookup
  {
    if key in b.txs && b.txs[key] < |b.objs| then
      if b.objs[b.txs[key]].hash != hash then Conflict else Same(b.txs[key])
    else Absent
  }

  predicate KnownProvider(p: string) { p in {"mtn", "telecel", "calbank"} }

  predicate KnownHandle(h: string) { h in {"demo-merchant", "acme-store"} }

  /* Documented test numbers */

  function OnlyDigits(s: string): string
  {
    if s == [] then []
    else if IsDigit(s[0]) then [s[0]] + OnlyDigits(s[1..])
    else OnlyDigits(s[1..])
  }

  function NormalizeFixture(value: string): string
  {
    var d := OnlyDigits(value);
    if |d| == 12 && d[..9] == "000000000" then "233" + d[3..] else d
  }

  function FixtureOutcome(c: Config, collection: bool, provider: string, value: string): Outcome
  {
    var n := NormalizeFixture(value);
    if provider == "telecel" && n == "233000000001" then Succeeds
    else if provider == "telecel" && n == "233000000004" && collection then FailsOnPin
    else if provider == "telecel" && n == "233000000003" && !collection then FailsWithRefund
    else if c.othersSucceed then Succeeds
    else Fails
  }

  /* Payment objects and events */

  function Pays(t: Tx): nat
  {
    match t.key.kind
    case Payout => PayerAmount(t.amount, t.fee, t.bearer)
    case Utility => t.amount + t.fee
    case Collection | Transfer => t.amount
  }

  function Recipient(t: Tx): int { RecipientAmount(t.amount, t.fee, t.bearer) }

  function NewTx(b: Book, key: TxKey, amount: nat, fee: nat, hash: Body, party: Name, funding: Funding): Tx
  {
    Tx(b.serial + 1, key, amount, fee, b.config.feeBearer,
       if key.kind == Transfer then Pending else Accepted, None,
       if key.kind == Collection then NotEligible else NoSettlement,
       false, hash, party, funding, Succeeds, false, false)
  }

  /** Creating an object draws its id from the serial counter, whether or not the debit succeeds. */
  function Draw(b: Book): Book { b.(serial := b.serial + 1) }

  function AddObj(b: Book, t: Tx): Book { b.(objs := b.objs + [t]) }

  function SetObj(b: Book, i: nat, t: Tx): Book
    requires i < |b.objs|
  {
    b.(objs := b.objs[i := t])
  }

  function Count(m: map<TxKey, nat>, k: TxKey): nat { if k in m then m[k] else 0 }

  /** The outcome a payment is headed for, by its number and the configuration of the moment. */
  function OutcomeFor(c: Config, t: Tx): Outcome
  {
    match t.hash
    case CollectionBody(_, _, provider, _) => FixtureOutcome(c, true, provider, t.party.text)
    case PayoutBody(r) => FixtureOutcome(c, false, r.provider, t.party.text)
    case _ => t.outcome
  }

  /** A payment as registration leaves it: its closures capture the outcome decided then. */
  function Enrolled(c: Config, t: Tx, review: bool): Tx
  {
    t.(registered := true, review := review, outcome := OutcomeFor(c, t))
  }

  /** Registration: the object enters the transactions map and its effect is counted. */
  function Register(b: Book, i: nat, review: bool): Book
    requires i < |b.objs|
  {
    var t := b.objs[i];
    b.(objs := b.objs[i := Enrolled(b.config, t, review)],
       txs := b.txs[t.key := i],
       order := if t.key in b.txs then b.order else b.order + [t.key],
       effects := b.effects[t.key := Count(b.effects, t.key) + 1])
  }

  /** Registers a payment and adds its amount to the day's volume. */
  function Record(b: Book, i: nat, review: bool): Book
    requires i < |b.objs|
  {
    NoteVolume(Register(b, i, review), b.objs[i].key.cred, b.objs[i].amount, b.objs[i].key.kind == Collection)
  }

  function Emit(b: Book, cred: Name, etype: EventType, data: EventData): Book
  {
    b.(events := b.events + [Event(|b.events|, cred, etype, data)])
  }

  function ChangedType(k: Kind): EventType
  {
    match k
    case Collection => CollectionChanged
    case Payout => PayoutChanged
    case Utility => UtilityChanged
    case Transfer => TransferChanged
  }

  function AcceptedType(k: Kind): EventType
  {
    match k
    case Collection => CollectionAccepted
    case Payout => PayoutAccepted
    case Utility => UtilityAccepted
    case Transfer => TransferChanged
  }

  function EmitTx(b: Book, i: nat, cred: Name, etype: EventType): Book
    requires i < |b.objs|
  {
    Emit(b, cred, etype, OfTx(i, b.objs[i]))
  }

  function SetStatus(b: Book, i: nat, t: Tx): Book
    requires i < |b.objs|
  {
    EmitTx(SetObj(b, i, t), i, t.key.cred, ChangedType(t.key.kind))
  }

  /* Collections */

  function CreateCollection(b: Book, cred: Name, r: Body): Result
    requires r.CollectionBody?
  {
    var amount := ParseAmount(r.amount);
    var key := TxKey(Collection, cred, r.reference);
    if !KnownProvider(r.provider) || amount.None? then Result(b, [], Fail(InvalidInput))
    else
      match Existing(b, key, r)
      case Conflict => Result(b, [], Fail(DuplicateReference))
      case Same(i) => Result(b, [], Done(TxReply(202, b.objs[i])))
      case Absent =>
        var limit := CheckLimits(b, cred, amount.value, true);
        if limit.Some? then Result(b, [], Fail(limit.value))
        else
          var t := NewTx(b, key, amount.value, Fee(amount.value, b.config.feeRate), r, r.party, FromPayer);
          var i := |b.objs|;
          var b1 := Record(AddObj(Draw(b), t), i, false);
          var b2 := EmitTx(b1, i, cred, CollectionAccepted);
          var half := b.config.resolveDelayMs / 2;
          Result(b2, [Later(half, Half(i)), Later(b.config.resolveDelayMs, Final(i, half))],
                 Done(TxReply(202, b2.objs[i])))
  }

  /* Debited payments: everything up to the awaited debit */

  function EntryOut(k: Kind): EntryKind
    requires k != Collection
  {
    match k
    case Payout => PayoutReserve
    case Utility => UtilityReserve
    case Transfer => TransferOut
  }

  /** newTx, then the debit; on success the object is live and the caller awaits it. */
  function Hold(b: Book, t: Tx): Result
    requires t.key.kind != Collection
  {
    var d := Draw(b);
    if !CanDebit(d, t.key.cred, Pays(t)) then
      Result(EnsureWallet(d, t.key.cred), [], Fail(InsufficientFunds))
    else
      var b1 := Debit(d, t.key.cred, Pays(t), t.key.reference, EntryOut(t.key.kind), t.key.kind != Transfer);
      Result(AddObj(b1, t), [], Await(|b.objs|))
  }

  function StartPayout(b: Book, cred: Name, r: PayoutRequest): Result
  {
    var amount := ParseAmount(r.amount);
    var key := TxKey(Payout, cred, r.reference);
    if !KnownProvider(r.provider) || amount.None? then Result(b, [], Fail(InvalidInput))
    else
      match Existing(b, key, PayoutBody(r))
      case Conflict => Result(b, [], Fail(DuplicateReference))
      case Same(i) => Result(b, [], Done(TxReply(202, b.objs[i])))
      case Absent =>
        var limit := CheckLimits(b, cred, amount.value, false);
        if limit.Some? then Result(b, [], Fail(limit.value))
        else
          Hold(b, NewTx(b, key, amount.value, Fee(amount.value, b.config.feeRate), PayoutBody(r), r.party,
                        FromWallet))
  }

  predicate UnderReview(c: Config, amount: nat)
  {
    c.reviewThreshold.Some? && amount >= c.reviewThreshold.value
  }

  datatype Product = Product(id: string, needsAccount: bool, min: nat, max: nat)

  function FindProduct(id: string): Option<Product>
  {
    if id == "airtime-mtn" || id == "airtime-telecel" then Some(Product(id, false, 100, 50000))
    else if id == "tv-dstv" then Some(Product(id, true, 100, 100000))
    else None
  }

  function UtilityFault(r: Body): Option<Code>
    requires r.UtilityBody?
  {
    var product := FindProduct(r.productId);
    var amount := ParseAmount(r.amount);
    if r.currency != "GHS" then Some(CurrencyNotSupported)
    else if product.None? then Some(ProductNotFound)
    else if product.value.needsAccount != r.hasAccount then Some(InvalidInput)
    else if r.funding == FromPayer && !r.hasPayer then Some(InvalidInput)
    else if amount.None? then Some(InvalidInput)
    else if amount.value < product.value.min || amount.value > product.value.max then Some(AmountOutOfRange)
    else None
  }

  /** Wallet-funded purchases await their debit; the others run straight on to registration. */
  function StartUtility(b: Book, cred: Name, r: Body): Result
    requires r.UtilityBody?
  {
    var key := TxKey(Utility, cred, r.reference);
    var fault := UtilityFault(r);
    if fault.Some? then Result(b, [], Fail(fault.value))
    else
      var amount := ParseAmount(r.amount).value;
      match Existing(b, key, r)
      case Conflict => Result(b, [], Fail(DuplicateReference))
      case Same(i) => Result(b, [], Done(TxReply(202, b.objs[i])))
      case Absent =>
        var limit := CheckLimits(b, cred, amount, false);
        if limit.Some? then Result(b, [], Fail(limit.value))
        else
          var t := NewTx(b, key, amount, Fee(amount, b.config.feeRate), r, Name(""), r.funding);
          if r.funding == FromWallet then Hold(b, t)
          else Resume(AddObj(Draw(b), t), |b.objs|)
  }

  function StartTransfer(b: Book, cred: Name, r: Body): Result
    requires r.TransferBody?
  {
    var amount := ParseAmount(r.amount);
    var key := TxKey(Transfer, cred, r.reference);
    if r.currency != "GHS" then Result(b, [], Fail(CurrencyNotSupported))
    else if amount.None? then Result(b, [], Fail(InvalidInput))
    else if r.handle == cred then Result(b, [], Fail(OwnHandle))
    else if !KnownHandle(r.handle.text) then Result(b, [], Fail(NotFound))
    else
      match Existing(b, key, r)
      case Conflict => Result(b, [], Fail(DuplicateReference))
      case Same(i) => Result(b, [], Done(TxReply(200, b.objs[i])))
      case Absent =>
        var limit := CheckLimits(b, cred, amount.value, false);
        if limit.Some? then Result(b, [], Fail(limit.value))
        else Hold(b, NewTx(b, key, amount.value, 0, r, r.handle, FromWallet))
  }

  /* Debited payments: everything after the awaited debit */

  function Resume(b: Book, i: nat): Result
    requires i < |b.objs|
  {
    var t := b.objs[i];
    match t.key.kind
    case Transfer => ResumeTransfer(b, i)
    case Utility => ResumeHeld(EnsureWallet(b, t.key.cred), i, false)
    case Payout | Collection => ResumeHeld(b, i, UnderReview(b.config, t.amount))
  }

  /** Registers a payout or purchase, announces it and schedules its timers. */
  function ResumeHeld(b: Book, i: nat, review: bool): Result
    requires i < |b.objs|
  {
    var t := b.objs[i];
    var b1 := Record(b, i, review);
    var b2 := EmitTx(b1, i, t.key.cred, AcceptedType(t.key.kind));
    var full := b.config.resolveDelayMs;
    Result(b2,
           if review then [Later(full, Review(i))]
           else [Later(full / 2, Half(i)), Later(full, Final(i, full / 2))],
           Done(TxReply(202, b2.objs[i])))
  }

  /** Pays the recipient, registers, and completes the transfer at once; both sides are told. */
  function ResumeTransfer(b: Book, i: nat): Result
    requires i < |b.objs|
  {
    EnsuresOnly(b, b.objs[i].party);
    hide EnsureWallet;
    var t := b.objs[i];
    var b1 := Credit(b, t.party, t.amount, t.key.reference, TransferIn);
    var b2 := Record(b1, i, false);
    var b3 := SetObj(b2, i, b2.objs[i].(status := Completed, completed := true));
    var b4 := EmitTx(EmitTx(b3, i, t.key.cred, TransferChanged), i, t.party, TransferReceived);
    Result(b4, [], Done(TxReply(200, b4.objs[i])))
  }

  /* Timers */

  /** What the timer of one payment does when it fires. */
  function RunAct(b: Book, act: Act): (Book, seq<Later>)
  {
    if act.obj >= |b.objs| then (b, [])
    else
      var i, t := act.obj, b.objs[act.obj];
      match act
      case Review(_) => (SetStatus(b, i, t.(status := InReview)), [])
      case Half(_) => (SetStatus(b, i, t.(status := HalfStatus(t))), [])
      case Final(_, half) => RunFinal(b, i, half)
      case Refund(_) =>
        var b1 := Credit(Release(b, t.key.cred, Pays(t)), t.key.cred, Pays(t), t.key.reference, RefundKind(t.key.kind));
        (SetStatus(b1, i, t.(status := Refunded, completed := true)), [])
  }

  function HalfStatus(t: Tx): Status
  {
    match t.key.kind
    case Collection | Transfer => Dispatched
    case Payout => Dispatching
    case Utility => if t.funding == FromWallet then Vending else AwaitingPayment
  }

  function RefundKind(k: Kind): EntryKind { if k == Payout then PayoutRefund else UtilityRefund }

  function RunFinal(b: Book, i: nat, half: nat): (Book, seq<Later>)
    requires i < |b.objs|
  {
    EnsuresOnly(b, b.objs[i].key.cred);
    hide EnsureWallet;
    var t := b.objs[i];
    var refund := [Later(if half > 1 then half else 1, Refund(i))];
    match t.key.kind
    case Collection | Transfer =>
      if t.outcome == Succeeds then
        var b1 := Credit(b, t.key.cred, Recipient(t), t.key.reference, CollectionCredit);
        (SetStatus(b1, i, t.(status := Settled, settlement := Eligible, completed := true)), [])
      else
        var reason := if t.outcome == FailsOnPin then WrongPin else Declined;
        (SetStatus(b, i, t.(status := Failed, failure := Some(reason), completed := true)), [])
    case Payout =>
      if t.outcome == Succeeds then
        (SetStatus(Release(b, t.key.cred, Pays(t)), i, t.(status := Delivered, completed := true)), [])
      else (SetStatus(b, i, t.(status := Failed, failure := Some(Declined))), refund)
    case Utility =>
      if b.config.othersSucceed then
        var b1 := if t.funding == FromWallet then Release(b, t.key.cred, Pays(t)) else b;
        (SetStatus(b1, i, t.(status := Delivered, completed := true)), [])
      else
        (SetStatus(b, i, t.(status := Failed, failure := Some(VendFailed))),
         if t.funding == FromWallet then refund else [])
  }

  /* Settlements and controls */

  predicate IsDue(t: Tx, cred: Name)
  {
    t.registered && t.key.cred == cred && t.key.kind == Collection && t.status == Settled && t.settlement == Eligible
  }

  function DueCount(objs: seq<Tx>, cred: Name): nat
  {
    if objs == [] then 0
    else DueCount(objs[..|objs| - 1], cred) + if IsDue(objs[|objs| - 1], cred) then 1 else 0
  }

  function DueTotal(objs: seq<Tx>, cred: Name): int
  {
    if objs == [] then 0
    else
      DueTotal(objs[..|objs| - 1], cred) +
      if IsDue(objs[|objs| - 1], cred) then Recipient(objs[|objs| - 1]) else 0
  }

  function PayOut(t: Tx, cred: Name): Tx { if IsDue(t, cred) then t.(settlement := SettledOut) else t }

  function PayOutAll(objs: seq<Tx>, cred: Name): (r: seq<Tx>)
    ensures |r| == |objs|
    ensures forall i :: 0 <= i < |objs| ==> r[i] == PayOut(objs[i], cred)
  {
    if objs == [] then [] else PayOutAll(objs[..|objs| - 1], cred) + [PayOut(objs[|objs| - 1], cred)]
  }

  function PadLeft(s: string, width: nat): string
    decreases width - |s|
  {
    if |s| >= width then s else PadLeft("0" + s, width)
  }

  function RunId(n: nat): Name { Name("STL-" + PadLeft(Digits(n), 8)) }

  /** The earliest run of a credential with a reference, if any. */
  function FindRun(runs: seq<SettlementRun>, cred: Name, reference: Name): Option<SettlementRun>
  {
    if runs == [] then None
    else if runs[0].reference == reference && runs[0].cred == cred then Some(runs[0])
    else FindRun(runs[1..], cred, reference)
  }

  /** Pays out everything due, unless that nets to nothing; the run is recorded either way. */
  function SettleNow(b: Book, cred: Name, reference: Name): Result
  {
    if b.policy.None? then Result(b, [], Fail(NotFound))
    else
      var dup := FindRun(b.runs, cred, reference);
      if dup.Some? then Result(b, [], Done(RunReply(dup.value)))
      else
        var net := DueTotal(b.objs, cred);
        var run := SettlementRun(b.serial + 1, reference, cred, DueCount(b.objs, cred), net);
        var b0 := Draw(b);
        var b1 :=
          if net > 0 then
            Move(b0.(objs := PayOutAll(b.objs, cred)), cred, 0 - net, 0, RunId(run.id), SettlementPaid)
          else b0;
        var b2 := Emit(b1.(runs := b1.runs + [run]), cred, SettlementChanged, OfRun(run));
        Result(b2, [], Done(RunReply(run)))
  }

  function PutPolicy(b: Book, r: Body): Result
    requires r.PolicyBody?
  {
    if !r.toMomo then Result(b, [], Fail(BankSettlementUnavailable))
    else
      var version := (if b.policy.Some? then b.policy.value else 0) + 1;
      Result(b.(policy := Some(version)), [], Done(PolicyReply(version)))
  }

  /** The control call that moves a balance to a target through an adjustment entry. */
  function SetBalance(b: Book, cred: Name, amount: string): Book
  {
    var target := ParseAmount(amount);
    if target.None? then b
    else
      var delta := target.value - EnsureWallet(b, cred).wallets[cred].balance;
      Move(b, cred, delta, 0, Name("control"), Adjustment)
  }

  /* Batches */

  predicate DistinctReferences(items: seq<PayoutRequest>)
  {
    forall i, j :: 0 <= i < j < |items| ==> items[i].reference != items[j].reference
  }

  predicate BatchShape(r: Body) { r.BatchBody? && 1 <= |r.items| <= 100 }

  /** What a batch answers before touching any item, if it answers at once. */
  function BatchPrecheck(b: Book, cred: Name, r: Body): Option<Out>
    requires r.BatchBody?
  {
    if !BatchShape(r) || !DistinctReferences(r.items) then Some(Fail(InvalidInput))
    else if (cred, r.reference) in b.batches then
      var seen := b.batches[(cred, r.reference)];
      Some(if seen.hash != r then Fail(DuplicateReference) else Done(seen.reply))
    else None
  }

  function BatchFinish(b: Book, cred: Name, r: Body, items: seq<ItemResult>): Result
    requires r.BatchBody?
  {
    var reply := BatchReply(b.serial + 1, r.reference, items);
    Result(Draw(b).(batches := b.batches[(cred, r.reference) := Batch(r, reply)]), [], Done(reply))
  }
}
