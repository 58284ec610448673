/** The simulator's records: requests, payments, wallets, ledger, events and replies. */
module Domain {
  import opened Money

  /** The text of an identifier: a credential, a reference, a handle or a number. */
  datatype Name = Name(text: string)

  datatype Kind = Collection | Payout | Utility | Transfer

  /** The identity of a payment. The source joins the three parts with colons; see KeyText. */
  datatype TxKey = TxKey(kind: Kind, cred: Name, reference: Name)

  datatype Status =
    | Pending | Accepted | Dispatched | Dispatching | InReview | Vending | AwaitingPayment
    | Settled | Failed | Delivered | Refunded | Completed

  datatype Settlement = NoSettlement | NotEligible | Eligible | SettledOut

  datatype Failure = WrongPin | Declined | VendFailed

  datatype Funding = FromWallet | FromPayer

  datatype Outcome = Succeeds | Fails | FailsWithRefund | FailsOnPin

  /* Requests, as they stand after the JSON schema accepted them. */

  datatype PayoutRequest = PayoutRequest(reference: Name, amount: string, provider: string, party: Name)

  datatype Body =
    | CollectionBody(reference: Name, amount: string, provider: string, party: Name)
    | PayoutBody(payout: PayoutRequest)
    | BatchBody(reference: Name, items: seq<PayoutRequest>)
    | UtilityBody(reference: Name, productId: string, amount: string, currency: string,
                  funding: Funding, hasPayer: bool, hasAccount: bool)
    | TransferBody(reference: Name, handle: Name, amount: string, currency: string)
    | SettleBody(reference: Name)
    | PolicyBody(toMomo: bool)
    | OtherBody(text: string)

  datatype Endpoint =
    | Collections | Payouts | PayoutBatches | UtilityPurchases | Transfers | Settlements | SettlementPolicy

  datatype Code =
    | InvalidInput | OwnHandle | TransactionLimitExceeded | DailyLimitExceeded | NotFound | ProductNotFound
    | IdempotencyKeyReused | RequestInFlight | DuplicateReference | InsufficientFunds | AmountOutOfRange
    | CurrencyNotSupported | BankSettlementUnavailable | Internal

  function HttpStatus(c: Code): nat
  {
    match c
    case InvalidInput | OwnHandle => 400
    case TransactionLimitExceeded | DailyLimitExceeded => 403
    case NotFound | ProductNotFound => 404
    case IdempotencyKeyReused | RequestInFlight | DuplicateReference => 409
    case InsufficientFunds | AmountOutOfRange | CurrencyNotSupported | BankSettlementUnavailable => 422
    case Internal => 500
  }

  /** One payment object. `hash` is the body it was made from (SHA-256 of canonical JSON taken as
      injective). `registered` is false between the debit and the end of `await this.debit`;
      registration also fixes the `outcome` the timers will find. `review` records that the registration
      scheduled the review timer alone. */
  datatype Tx = Tx(
    id: nat, key: TxKey, amount: nat, fee: nat, bearer: Bearer, status: Status, failure: Option<Failure>,
    settlement: Settlement, completed: bool, hash: Body, party: Name, funding: Funding,
    outcome: Outcome, registered: bool, review: bool)

  datatype Wallet = Wallet(balance: int, reserved: int, opening: nat)

  datatype EntryKind =
    | CollectionCredit | PayoutReserve | PayoutRefund | UtilityReserve | UtilityRefund
    | TransferOut | TransferIn | SettlementPaid | Adjustment

  datatype Entry = Entry(serial: nat, wallet: Name, delta: int, ref: Name, kind: EntryKind)

  datatype SettlementRun = SettlementRun(id: nat, reference: Name, cred: Name, itemCount: nat, total: int)

  datatype EventType =
    | CollectionAccepted | CollectionChanged | PayoutAccepted | PayoutChanged | UtilityAccepted
    | UtilityChanged | TransferChanged | TransferReceived | SettlementChanged

  /** What an event carries: a snapshot of a payment object (and which one), or a settlement run. */
  datatype EventData = OfTx(obj: nat, tx: Tx) | OfRun(run: SettlementRun)

  datatype Event = Event(id: nat, cred: Name, etype: EventType, data: EventData)

  datatype ItemResult = ItemAccepted(reference: Name, view: Tx) | ItemRefused(reference: Name, code: Code)

  datatype Reply =
    | TxReply(status: nat, view: Tx)
    | BatchReply(batchId: nat, reference: Name, items: seq<ItemResult>)
    | RunReply(run: SettlementRun)
    | PolicyReply(version: nat)
    | ErrorReply(code: Code)

  function ReplyStatus(r: Reply): nat
  {
    match r
    case TxReply(status, _) => status
    case BatchReply(_, _, _) => 200
    case RunReply(_) => 202
    case PolicyReply(_) => 200
    case ErrorReply(code) => HttpStatus(code)
  }

  /** The steps a payment's timers run. `Final` and `Refund` carry what their closures captured. */
  datatype Act = Half(obj: nat) | Final(obj: nat, half: nat) | Review(obj: nat) | Refund(obj: nat)

  datatype Later = Later(delay: nat, act: Act)

  /** The four amounts are what parseAmount made of the configured text: None when it refused it. */
  datatype Config = Config(
    openingBalance: Option<nat>, resolveDelayMs: nat, feeRate: real, feeBearer: Bearer, othersSucceed: bool,
    reviewThreshold: Option<nat>, perTransaction: Option<nat>, daily: Option<nat>)

  /** setTimeout runs a delay outside 1..2^31-1 milliseconds as if it were 1. */
  function Timeout(ms: nat): nat { if 1 <= ms <= 2147483647 then ms else 1 }

  /** A payment's half-way timer is not due after its final one. */
  predicate DelaysOrdered(ms: nat) { Timeout(ms / 2) <= Timeout(ms) }

  predicate WellFormed(c: Config) { 0.0 <= c.feeRate <= 0.5 && DelaysOrdered(c.resolveDelayMs) }

  /** The clamp inverts the two timers exactly on the delays whose half alone still fits. */
  lemma DelaysOrderedExactly(ms: nat)
    ensures DelaysOrdered(ms) <==> ms <= 2147483647 || ms >= 4294967296
  {
  }

  /* The source's text keys. */

  function KindText(k: Kind): string
  {
    match k
    case Collection => "collection"
    case Payout => "payout"
    case Utility => "utility_purchase"
    case Transfer => "transfer"
  }

  function KeyText(k: TxKey): string { KindText(k.kind) + ":" + k.cred.text + ":" + k.reference.text }

  function IdemKey(cred: Name, key: string): Name { Name(cred.text + ":" + key) }

  /** Two splittings of one text at different colons: the longer left part and the longer right
      part each hold a colon. */
  lemma ColonInside(a: string, b: string, c: string, d: string)
    requires a + ":" + b == c + ":" + d
    requires |a| < |c|
    ensures ':' in b && ':' in c
  {
    var s := a + ":" + b;
    assert s[|a|] == ':' && (c + ":" + d)[|a|] == c[|a|];
    assert (c + ":" + d)[|c|] == ':' && s[|c|] == b[|c| - |a| - 1];
  }

  lemma ColonSplit(a: string, b: string, c: string, d: string)
    requires a + ":" + b == c + ":" + d
    requires (':' !in a && ':' !in c) || (':' !in b && ':' !in d)
    ensures a == c && b == d
  {
    if |a| < |c| { ColonInside(a, b, c, d); }
    if |c| < |a| { ColonInside(c, d, a, b); }
    var s := a + ":" + b;
    assert a == s[..|a|] && c == (c + ":" + d)[..|c|];
    assert b == s[|a| + 1..] && d == (c + ":" + d)[|c| + 1..];
  }

  /** References never contain a colon, so the payment key text names one payment. */
  lemma KeyTextInjective(k: TxKey, l: TxKey)
    requires ':' !in k.reference.text && ':' !in l.reference.text
    requires KeyText(k) == KeyText(l)
    ensures k == l
  {
    ColonSplit(KindText(k.kind) + ":" + k.cred.text, k.reference.text,
               KindText(l.kind) + ":" + l.cred.text, l.reference.text);
    KindTextInjective(k.kind, k.cred.text, l.kind, l.cred.text);
  }

  lemma KindTextInjective(k: Kind, a: string, l: Kind, b: string)
    requires KindText(k) + ":" + a == KindText(l) + ":" + b
    ensures k == l && a == b
  {
    ColonSplit(KindText(k), a, KindText(l), b);
    assert KindText(k)[0] == KindText(l)[0];
  }

  /** The text of d is that of c, a colon and more. */
  predicate Extends(c: Name, d: Name) { c.text + ":" <= d.text }

  /** What follows the colon. */
  function Rest(c: Name, d: Name): string
    requires Extends(c, d)
  {
    d.text[|c.text| + 1..]
  }

  lemma ExtendsSplit(c: Name, d: Name)
    requires Extends(c, d)
    ensures d.text == c.text + ":" + Rest(c, d)
  {
    assert d.text == d.text[..|c.text| + 1] + d.text[|c.text| + 1..];
  }

  /** Idempotency keys are free text: two requests meet in one entry exactly if credential and key are the same,
      or one credential extends the other at a colon and the shorter one's key makes up for the difference. */
  lemma SameEntryExactly(c: Name, k: string, d: Name, l: string)
    ensures IdemKey(c, k) == IdemKey(d, l) <==>
            || (c == d && k == l)
            || (Extends(c, d) && k == Rest(c, d) + ":" + l)
            || (Extends(d, c) && l == Rest(d, c) + ":" + k)
  {
    ExtendedEntry(c, k, d, l);
    ExtendedEntry(d, l, c, k);
    if IdemKey(c, k) == IdemKey(d, l) {
      if |c.text| == |d.text| {
        assert c.text == IdemKey(c, k).text[..|c.text|] && d.text == IdemKey(d, l).text[..|d.text|];
        assert k == IdemKey(c, k).text[|c.text| + 1..] && l == IdemKey(d, l).text[|d.text| + 1..];
      } else if |c.text| < |d.text| {
        EntryExtends(c, k, d, l);
      } else {
        EntryExtends(d, l, c, k);
      }
    }
  }

  lemma ExtendedEntry(c: Name, k: string, d: Name, l: string)
    ensures Extends(c, d) && k == Rest(c, d) + ":" + l ==> IdemKey(c, k) == IdemKey(d, l)
  {
    if Extends(c, d) && k == Rest(c, d) + ":" + l {
      ExtendsSplit(c, d);
      assert c.text + ":" + (Rest(c, d) + ":" + l) == c.text + ":" + Rest(c, d) + ":" + l;
    }
  }

  lemma EntryExtends(c: Name, k: string, d: Name, l: string)
    requires IdemKey(c, k) == IdemKey(d, l) && |c.text| < |d.text|
    ensures Extends(c, d) && k == Rest(c, d) + ":" + l
  {
    var s := IdemKey(c, k).text;
    assert s[..|d.text|] == d.text && s[..|c.text| + 1] == c.text + ":";
    assert d.text[..|c.text| + 1] == c.text + ":";
    assert k == s[|c.text| + 1..];
    assert s == d.text + ":" + l;
    assert s[|c.text| + 1..] == d.text[|c.text| + 1..] + ":" + l;
  }
}
