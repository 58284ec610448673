/** The daily volumes: what each credential took in and paid out today never exceeds the limit. Inward this
    holds in every run. Outward the check and the count stand on two sides of the awaited debit, so it holds
    when calls run through their gaps undisturbed, and a payment oversteps exactly if the volume counted
    meanwhile leaves it no room. */
module DailyLimits {
  import opened Money
  import opened Domain
  import opened Operations
  import opened Accounting
  import opened BookInvariants
  import opened Shapes
  import opened Protocol
  import opened Segments
  import opened Groundwork
  import opened Reachability
  import opened Duplicates
  import opened Solvency
  import opened Settlements

  predicate Inward(t: Tx) { t.key.kind == Collection }

  function VolumeOf(b: Book, cred: Name, inward: bool): nat { Volume(if inward then b.dailyIn else b.dailyOut, cred) }

  /** There is room for the payment under a limit. */
  predicate Room(b: Book, t: Tx, limit: nat) { VolumeOf(b, t.key.cred, Inward(t)) + t.amount <= limit }

  predicate SameVolumes(b: Book, c: Book) { c.dailyIn == b.dailyIn && c.dailyOut == b.dailyOut }

  /** The payment's amount was added to its credential's volume, and nothing else was. */
  predicate Noted(b: Book, c: Book, t: Tx)
  {
    var cred := t.key.cred;
    if Inward(t) then c.dailyIn == b.dailyIn[cred := Volume(b.dailyIn, cred) + t.amount] && c.dailyOut == b.dailyOut
    else c.dailyOut == b.dailyOut[cred := Volume(b.dailyOut, cred) + t.amount] && c.dailyIn == b.dailyIn
  }

  /** What a segment did to the volumes, and what the limit check saw of a new payment. */
  ghost predicate Counted(b: Book, c: Book, e: Effect)
  {
    match e
    case Nothing => SameVolumes(b, c)
    case Holds(i) => SameVolumes(b, c) && (i < |c.objs| && b.config.daily.Some? ==> Room(b, c.objs[i], b.config.daily.value))
    case Registers(i) =>
      && i < |c.objs| && Noted(b, c, c.objs[i])
      && (i >= |b.objs| && b.config.daily.Some? ==> Room(b, c.objs[i], b.config.daily.value))
      && (i < |b.objs| ==> c.objs[i].key == b.objs[i].key && c.objs[i].amount == b.objs[i].amount)
  }

  lemma LimitRoom(b: Book, t: Tx)
    requires CheckLimits(b, t.key.cred, t.amount, Inward(t)).None? && b.config.daily.Some?
    ensures Room(b, t, b.config.daily.value)
  {
  }

  /* Operations */

  lemma HoldCounted(b: Book, t: Tx)
    requires t.key.kind != Collection && CheckLimits(b, t.key.cred, t.amount, false).None?
    ensures Counted(b, Hold(b, t).book, StartEffect(b, Hold(b, t)))
  {
    HoldEnd(b, t);
    if b.config.daily.Some? { LimitRoom(b, t); }
    hide Hold;
  }

  lemma HoldEnd(b: Book, t: Tx)
    requires t.key.kind != Collection
    ensures SameVolumes(b, Hold(b, t).book)
    ensures StartEffect(b, Hold(b, t)) == if Hold(b, t).out.Await? then Holds(|b.objs|) else Nothing
    ensures Hold(b, t).out.Await? ==> Hold(b, t).book.objs == b.objs + [t]
  {
    var d := Draw(b);
    EnsureVolumes(d, t.key.cred);
    EnsurePlain(d, t.key.cred);
    HeldVolumes(d, t.key.cred, Pays(t), t.key.reference, EntryOut(t.key.kind), t.key.kind != Transfer);
    hide Debit, EnsureWallet;
  }

  lemma HeldVolumes(b: Book, cred: Name, amount: nat, ref: Name, kind: EntryKind, reserve: bool)
    ensures SameVolumes(b, Debit(b, cred, amount, ref, kind, reserve))
    ensures Debit(b, cred, amount, ref, kind, reserve).objs == b.objs
  {
  }

  lemma RecordNoted(b: Book, i: nat, review: bool, cred: Name, etype: EventType)
    requires i < |b.objs|
    ensures var c := EmitTx(Record(b, i, review), i, cred, etype);
            && Noted(b, c, c.objs[i]) && |c.objs| == |b.objs|
            && c.objs[i].key == b.objs[i].key && c.objs[i].amount == b.objs[i].amount
  {
    hide Record, EmitTx;
    RecordNotes(b, i, review);
    EmitPlain(Record(b, i, review), i, cred, etype);
  }

  lemma RecordNotes(b: Book, i: nat, review: bool)
    requires i < |b.objs|
    ensures NotedAt(b, Record(b, i, review), i)
  {
    hide Register, NoteVolume, OutcomeFor;
    RegisterPlain(b, i, review);
    NoteVolumePlain(Register(b, i, review), b.objs[i].key.cred, b.objs[i].amount, Inward(b.objs[i]));
  }

  lemma NoteVolumePlain(b: Book, cred: Name, amount: nat, inward: bool)
    ensures var c := NoteVolume(b, cred, amount, inward);
            && c.objs == b.objs
            && c.dailyIn == (if inward then b.dailyIn[cred := Volume(b.dailyIn, cred) + amount] else b.dailyIn)
            && c.dailyOut == (if inward then b.dailyOut else b.dailyOut[cred := Volume(b.dailyOut, cred) + amount])
  {
  }

  lemma RegisterPlain(b: Book, i: nat, review: bool)
    requires i < |b.objs|
    ensures var c := Register(b, i, review);
            && SameVolumes(b, c) && c.objs == b.objs[i := Enrolled(b.config, b.objs[i], review)]
  {
  }

  /** The payment's amount was noted, and it is still the payment it was. */
  predicate NotedAt(b: Book, c: Book, i: nat)
    requires i < |b.objs|
  {
    && |c.objs| == |b.objs| && Noted(b, c, c.objs[i])
    && c.objs[i].key == b.objs[i].key && c.objs[i].amount == b.objs[i].amount
  }

  lemma HeldNoted(b: Book, i: nat, review: bool)
    requires i < |b.objs|
    ensures NotedAt(b, ResumeHeld(b, i, review).book, i)
  {
    hide Record, EmitTx, Noted;
    RecordNoted(b, i, review, b.objs[i].key.cred, AcceptedType(b.objs[i].key.kind));
  }

  lemma ResumeNoted(b: Book, i: nat)
    requires i < |b.objs| && b.objs[i].key.kind != Transfer
    ensures NotedAt(b, Resume(b, i).book, i)
  {
    var t := b.objs[i];
    EnsurePlain(b, t.key.cred);
    EnsureVolumes(b, t.key.cred);
    hide ResumeHeld, EnsureWallet, Noted;
    if t.key.kind == Utility {
      var e := EnsureWallet(b, t.key.cred);
      HeldNoted(e, i, false);
      NotedSame(b, e, ResumeHeld(e, i, false).book, ResumeHeld(e, i, false).book.objs[i]);
    } else {
      HeldNoted(b, i, UnderReview(b.config, t.amount));
    }
  }

  lemma TransferNoted(b: Book, i: nat)
    requires i < |b.objs| && b.objs[i].key.kind == Transfer
    ensures NotedAt(b, ResumeTransfer(b, i).book, i)
  {
    var t := b.objs[i];
    var b1 := Credit(b, t.party, t.amount, t.key.reference, TransferIn);
    hide Move, EnsureWallet, Record, OutcomeFor;
    MoveVolumes(b, t.party, t.amount, 0, t.key.reference, TransferIn);
    MovePlain(b, t.party, t.amount, 0, t.key.reference, TransferIn);
    RecordNotes(b1, i, false);
    RecordKeys(b1, i, false);
    CompletedNoted(b, b1, Record(b1, i, false), ResumeTransfer(b, i).book, i);
  }

  lemma CompletedNoted(b: Book, b1: Book, c: Book, d: Book, i: nat)
    requires i < |b.objs| && b1.objs == b.objs && SameVolumes(b, b1) && NotedAt(b1, c, i)
    requires SameVolumes(c, d) && |d.objs| == |c.objs| && d.objs[i].key == c.objs[i].key && d.objs[i].amount == c.objs[i].amount
    ensures NotedAt(b, d, i)
  {
  }

  lemma MoveVolumes(b: Book, id: Name, db: int, dr: int, ref: Name, kind: EntryKind)
    ensures SameVolumes(b, Move(b, id, db, dr, ref, kind))
  {
    EnsuresOnly(b, id);
    hide EnsureWallet;
  }

  lemma ResumeCounted(b: Book, i: nat)
    requires i < |b.objs|
    ensures Counted(b, Resume(b, i).book, Registers(i))
  {
    hide Noted, ResumeHeld, ResumeTransfer, EnsureWallet;
    if b.objs[i].key.kind == Transfer { TransferNoted(b, i); } else { ResumeNoted(b, i); }
  }

  ghost predicate StartCounted(b: Book, r: Result) { Counted(b, r.book, StartEffect(b, r)) }

  lemma CollectionCounted(b: Book, cred: Name, r: Body)
    requires r.CollectionBody?
    ensures StartCounted(b, CreateCollection(b, cred, r))
  {
    hide ParseAmount, Fee, Record, EmitTx, Noted, CheckLimits;
    var g := CreateCollection(b, cred, r);
    if |g.later| == 2 {
      var amount := ParseAmount(r.amount).value;
      var t := NewTx(b, TxKey(Collection, cred, r.reference), amount, Fee(amount, b.config.feeRate), r, r.party,
                     FromPayer);
      if b.config.daily.Some? { LimitRoom(b, t); }
      RecordNoted(AddObj(Draw(b), t), |b.objs|, false, cred, CollectionAccepted);
      NotedSame(b, AddObj(Draw(b), t), g.book, g.book.objs[|b.objs|]);
    }
  }

  lemma NotedSame(b: Book, a: Book, c: Book, t: Tx)
    requires SameVolumes(b, a) && Noted(a, c, t)
    ensures Noted(b, c, t)
  {
  }

  lemma PayoutCounted(b: Book, cred: Name, r: PayoutRequest)
    ensures StartCounted(b, StartPayout(b, cred, r))
  {
    hide ParseAmount, Fee, Hold, CheckLimits;
    var amount := ParseAmount(r.amount);
    if amount.Some? && CheckLimits(b, cred, amount.value, false).None? {
      HoldCounted(b, NewTx(b, TxKey(Payout, cred, r.reference), amount.value, Fee(amount.value, b.config.feeRate),
                           PayoutBody(r), r.party, FromWallet));
    }
  }

  lemma TransferCounted(b: Book, cred: Name, r: Body)
    requires r.TransferBody?
    ensures StartCounted(b, StartTransfer(b, cred, r))
  {
    hide ParseAmount, Hold, CheckLimits;
    var amount := ParseAmount(r.amount);
    if amount.Some? && CheckLimits(b, cred, amount.value, false).None? {
      HoldCounted(b, NewTx(b, TxKey(Transfer, cred, r.reference), amount.value, 0, r, r.handle, FromWallet));
    }
  }

  lemma UtilityCounted(b: Book, cred: Name, r: Body)
    requires r.UtilityBody?
    ensures StartCounted(b, StartUtility(b, cred, r))
  {
    hide ParseAmount, FindProduct, Fee, Hold, Resume, CheckLimits, Noted;
    if UtilityFault(r).None? && CheckLimits(b, cred, ParseAmount(r.amount).value, false).None? {
      var amount := ParseAmount(r.amount).value;
      var t := NewTx(b, TxKey(Utility, cred, r.reference), amount, Fee(amount, b.config.feeRate), r, Name(""),
                     r.funding);
      if r.funding == FromWallet {
        HoldCounted(b, t);
      } else {
        var a := AddObj(Draw(b), t);
        if b.config.daily.Some? { LimitRoom(b, t); }
        ResumeNoted(a, |b.objs|);
        UnfundedEffect(Draw(b), t);
        NotedSame(b, a, Resume(a, |b.objs|).book, Resume(a, |b.objs|).book.objs[|b.objs|]);
      }
    }
  }

  lemma SettleCounted(b: Book, cred: Name, reference: Name)
    ensures StartCounted(b, SettleNow(b, cred, reference))
  {
    SettleEffect(b, cred, reference);
    SettleDoes(b, cred, reference);
    hide DueTotal, DueCount, FindRun, RunId, PayOutAll, Move;
    MoveVolumes(Draw(b).(objs := PayOutAll(b.objs, cred)), cred, 0 - DueTotal(b.objs, cred), 0, RunId(b.serial + 1), SettlementPaid);
  }

  lemma StartsCounted(b: Book, cred: Name, endpoint: Endpoint, body: Body)
    ensures StartCounted(b, Start(b, cred, endpoint, body))
  {
    hide CreateCollection, StartPayout, StartUtility, StartTransfer, SettleNow;
    match body {
      case CollectionBody(_, _, _, _) => CollectionCounted(b, cred, body);
      case PayoutBody(r) => PayoutCounted(b, cred, r);
      case UtilityBody(_, _, _, _, _, _, _) => UtilityCounted(b, cred, body);
      case TransferBody(_, _, _, _) => TransferCounted(b, cred, body);
      case SettleBody(reference) => SettleCounted(b, cred, reference);
      case _ =>
    }
  }

  /* Segments */

  lemma ItemCounted(b: Book, cred: Name, body: Body, results: seq<ItemResult>, rest: seq<PayoutRequest>)
    requires body.BatchBody?
    ensures var g := NextItem(b, cred, body, results, rest);
            Counted(b, g.book, SegmentEffect(b, Nothing, g))
  {
    hide StartPayout;
    if rest != [] {
      PayoutCounted(b, cred, rest[0]);
      PayoutEffect(b, cred, rest[0]);
    }
  }

  lemma FirstCounted(b: Book, cred: Name, endpoint: Endpoint, body: Body)
    ensures var g := FirstSegment(b, cred, endpoint, body);
            Counted(b, g.book, SegmentEffect(b, Nothing, g))
  {
    hide Start, NextItem, Noted, BatchPrecheck;
    if endpoint == PayoutBatches && body.BatchBody? {
      if BatchPrecheck(b, cred, body).Some? {
        BatchPrecheckOut(b, cred, body);
      } else {
        ItemCounted(b, cred, body, [], body.items);
      }
    } else {
      StartsCounted(b, cred, endpoint, body);
    }
  }

  lemma NextCounted(b: Book, c: Call)
    requires Waits(c.phase).Holds? ==> Waits(c.phase).obj < |b.objs|
    ensures var g := NextSegment(b, c);
            Counted(b, g.book, SegmentEffect(b, Waits(c.phase), g))
  {
    hide Resume, NextItem, Noted;
    match c.phase
    case Suspended(i) => ResumeCounted(b, i);
    case InBatch(results, Holding(i), rest) => ResumeCounted(b, i);
    case InBatch(results, Have(x), rest) =>
      if c.body.BatchBody? { ItemCounted(b, c.cred, c.body, results + [x], rest); }
    case _ =>
  }

  /* Runs */

  /** No volume is over the limit. */
  ghost predicate InLimit(b: Book, inward: bool, limit: nat) { forall w :: VolumeOf(b, w, inward) <= limit }

  /** The payments in their gaps still fit, and there is at most one of them. */
  ghost predicate GapFits(b: Book, limit: nat)
  {
    && (forall i :: 0 <= i < |b.objs| && !b.objs[i].registered ==> Room(b, b.objs[i], limit))
    && (forall i, j :: 0 <= i < j < |b.objs| ==> b.objs[i].registered || b.objs[j].registered)
  }

  /** The configuration sets a daily limit, and none above this one. */
  predicate Capped(c: Config, limit: nat) { c.daily.Some? && c.daily.value <= limit }

  /** So does every configuration a step brings in. */
  predicate StepCapped(step: Step, limit: nat)
  {
    match step
    case Patch(c) => Capped(c, limit)
    case Reset(c) => Capped(c, limit)
    case _ => true
  }

  predicate StepsCapped(steps: seq<Step>, limit: nat) { forall n :: 0 <= n < |steps| ==> StepCapped(steps[n], limit) }

  lemma NotedVolumes(b: Book, c: Book, t: Tx, inward: bool, limit: nat)
    requires Noted(b, c, t) && InLimit(b, inward, limit) && (Inward(t) == inward ==> Room(b, t, limit))
    ensures InLimit(c, inward, limit)
  {
    forall w ensures VolumeOf(c, w, inward) <= limit { assert VolumeOf(b, w, inward) <= limit; }
  }

  lemma SameInLimit(b: Book, c: Book, inward: bool, limit: nat)
    requires SameVolumes(b, c) && InLimit(b, inward, limit)
    ensures InLimit(c, inward, limit)
  {
    forall w ensures VolumeOf(c, w, inward) <= limit { assert VolumeOf(b, w, inward) <= limit; }
  }

  lemma CountedInward(b: Book, c: Book, e: Effect, limit: nat)
    requires Counted(b, c, e) && InLimit(b, true, limit) && Capped(b.config, limit)
    requires e.Registers? && e.obj < |b.objs| ==> !Inward(b.objs[e.obj])
    ensures InLimit(c, true, limit)
  {
    hide Noted, InLimit;
    match e
    case Registers(i) => NotedVolumes(b, c, c.objs[i], true, limit);
    case _ => SameInLimit(b, c, true, limit);
  }

  /** The step ran a segment with this effect. */
  ghost predicate Ran(b: Book, c: Book, e: Effect) { Counted(b, c, e) && Entered(b, c, e) && c.config == b.config }

  lemma NothingRan(b: Book)
    ensures Ran(b, b, Nothing)
  {
  }

  lemma PostRan(s: State, step: Step) returns (e: Effect)
    requires Ground(s) && step.PostCall?
    ensures Ran(s.book, Apply(s, step).book, e) && (e.Registers? ==> e.obj >= |s.book.objs|)
  {
    GroundParts(s);
    hide Ground, CallsOk, Grounded, FirstSegment, Counted, Entered, IdemKey;
    e := Nothing;
    NothingRan(s.book);
    var g := FirstSegment(s.book, step.cred, step.endpoint, step.body);
    if Apply(s, step).book != s.book {
      e := SegmentEffect(s.book, Nothing, g);
      FirstCounted(s.book, step.cred, step.endpoint, step.body);
      FirstGround(s.book, step.cred, step.endpoint, step.body);
    }
  }

  lemma AdvanceRan(s: State, i: nat) returns (e: Effect)
    requires Ground(s)
    ensures Ran(s.book, Apply(s, Advance(i)).book, e)
    ensures e.Registers? && e.obj < |s.book.objs| ==> !s.book.objs[e.obj].registered
    ensures if i < |s.calls| && Waits(s.calls[i].phase).Holds?
            then e == Registers(Waits(s.calls[i].phase).obj) && e.obj < |s.book.objs|
            else e.Registers? ==> e.obj >= |s.book.objs|
  {
    GroundParts(s);
    AdvanceIsApplied(s, i);
    hide Ground, CallsOk, Grounded, NextSegment, Counted, Entered, Apply;
    if i < |s.calls| {
      if Waits(s.calls[i].phase).Holds? { WaitingUnregistered(s, i); }
      e := SegmentEffect(s.book, Waits(s.calls[i].phase), NextSegment(s.book, s.calls[i]));
      NextCounted(s.book, s.calls[i]);
      NextGround(s.book, s.calls[i]);
    } else {
      e := Nothing;
      NothingRan(s.book);
    }
  }

  /** The other steps leave volumes and entries alone. */
  ghost predicate Idled(b: Book, c: Book) { SameVolumes(b, c) && Entered(b, c, Nothing) }

  lemma OtherIdled(s: State, step: Step)
    requires Ground(s) && !step.PostCall? && !step.Advance? && !step.Reset?
    ensures Idled(s.book, Apply(s, step).book)
    ensures Apply(s, step).book.config == if step.Patch? then step.config else s.book.config
  {
    hide Ground, Entered, SameVolumes, SetBalance, EnsureWallet, ApplyFire, ApplyFinish;
    SameIdled(s.book, s.book);
    match step
    case Fire(j, at) => FireIdled(s, j, at);
    case Balance(cred, amount) => BalanceIdled(s.book, cred, amount);
    case Touch(cred) =>
      EnsurePlain(s.book, cred);
      EnsureVolumes(s.book, cred);
      SameIdled(s.book, EnsureWallet(s.book, cred));
    case Patch(config) => SameIdled(s.book, s.book.(config := config));
    case DropPolicy => SameIdled(s.book, s.book.(policy := None));
    case Finish(i, lost) => FinishSame(s, i, lost);
    case _ =>
  }

  lemma SameIdled(b: Book, c: Book)
    requires c.objs == b.objs && c.dailyIn == b.dailyIn && c.dailyOut == b.dailyOut
    ensures Idled(b, c) && SameVolumes(b, c)
  {
  }

  lemma EnsureVolumes(b: Book, id: Name)
    ensures EnsureWallet(b, id).dailyIn == b.dailyIn && EnsureWallet(b, id).dailyOut == b.dailyOut
    ensures SameVolumes(b, EnsureWallet(b, id))
  {
  }

  lemma BalanceIdled(b: Book, cred: Name, amount: string)
    ensures Idled(b, SetBalance(b, cred, amount)) && SetBalance(b, cred, amount).config == b.config
  {
    SetBalancePlain(b, cred, amount);
    hide ParseAmount, Move;
    if ParseAmount(amount).Some? {
      var delta := ParseAmount(amount).value - EnsureWallet(b, cred).wallets[cred].balance;
      MoveVolumes(b, cred, delta, 0, Name("control"), EntryKind.Adjustment);
    }
  }

  lemma FireIdled(s: State, j: nat, at: nat)
    requires Ground(s)
    ensures Idled(s.book, ApplyFire(s, j, at).book) && ApplyFire(s, j, at).book.config == s.book.config
  {
    FireGround(s, j, at);
    hide Ground, RunAct, Entered, Grown;
    if IsNext(s.timers, j) { ActKept(s.book, s.timers[j].act); }
  }

  lemma IdledKeeps(b: Book, c: Book, inward: bool, limit: nat)
    requires Idled(b, c)
    ensures InLimit(b, inward, limit) ==> InLimit(c, inward, limit)
    ensures GapFits(b, limit) ==> GapFits(c, limit)
  {
    hide InLimit;
    if InLimit(b, inward, limit) { SameInLimit(b, c, inward, limit); }
  }

  lemma FreshInLimit(c: Config, inward: bool, limit: nat)
    ensures InLimit(FreshBook(c), inward, limit) && GapFits(FreshBook(c), limit)
  {
  }

  lemma InwardStep(s: State, step: Step, limit: nat)
    requires Ground(s) && StepCapped(step, limit) && Capped(s.book.config, limit) && InLimit(s.book, true, limit)
    ensures InLimit(Apply(s, step).book, true, limit) && Capped(Apply(s, step).book.config, limit)
  {
    hide Ground, InLimit, Counted, Entered, Idled, Capped, ApplyPost, ApplyAdvance, ApplyFire, ApplyFinish, SetBalance, EnsureWallet;
    if step.Reset? {
      if Idle(s) { FreshInLimit(step.config, true, limit); }
    } else if step.PostCall? {
      var e := PostRan(s, step);
      CountedInward(s.book, Apply(s, step).book, e, limit);
    } else if step.Advance? {
      var e := AdvanceRan(s, step.call);
      if e.Registers? && e.obj < |s.book.objs| { UnregisteredOutward(s, e.obj); }
      CountedInward(s.book, Apply(s, step).book, e, limit);
    } else {
      OtherIdled(s, step);
      IdledKeeps(s.book, Apply(s, step).book, true, limit);
    }
  }

  lemma UnregisteredOutward(s: State, i: nat)
    requires Ground(s) && i < |s.book.objs| && !s.book.objs[i].registered
    ensures !Inward(s.book.objs[i])
  {
    hide Tallied, IndexedBut, CallsOk;
  }

  /** In every run whose configurations set no daily limit above this one, whatever the interleaving: the
      collections of a credential never exceed it. */
  lemma {:induction false} InwardNeverExceeds(c: Config, now: nat, steps: seq<Step>, limit: nat)
    requires Capped(c, limit) && StepsCapped(steps, limit)
    ensures var b := Run(Fresh(c, now), steps).book;
            InLimit(b, true, limit) && Capped(b.config, limit)
  {
    hide Ground, Apply, InLimit, Capped, StepCapped;
    if steps == [] {
      FreshInLimit(c, true, limit);
    } else {
      InwardNeverExceeds(c, now, steps[..|steps| - 1], limit);
      RunKeepsGround(c, now, steps[..|steps| - 1]);
      InwardStep(Run(Fresh(c, now), steps[..|steps| - 1]), steps[|steps| - 1], limit);
    }
  }

  /* Outward volumes */

  ghost predicate AllRegistered(b: Book) { forall i :: 0 <= i < |b.objs| ==> b.objs[i].registered }

  /** A segment started while no payment is in its gap. */
  lemma CountedFromRest(b: Book, c: Book, e: Effect, limit: nat)
    requires AllRegistered(b) && Ran(b, c, e) && Capped(b.config, limit)
    requires InLimit(b, false, limit) && (e.Registers? ==> e.obj >= |b.objs|)
    ensures InLimit(c, false, limit) && GapFits(c, limit)
  {
    hide Noted, InLimit;
    match e
    case Registers(i) => NotedVolumes(b, c, c.objs[i], false, limit);
    case _ => SameInLimit(b, c, false, limit);
  }

  /** A segment that brings the one payment in its gap out of it. */
  lemma CountedOutOfGap(b: Book, c: Book, i: nat, limit: nat)
    requires i < |b.objs| && !b.objs[i].registered && Ran(b, c, Registers(i))
    requires InLimit(b, false, limit) && GapFits(b, limit)
    ensures InLimit(c, false, limit) && GapFits(c, limit)
  {
    hide Noted, InLimit;
    assert Room(b, b.objs[i], limit);
    NotedVolumes(b, c, c.objs[i], false, limit);
  }

  lemma OutwardStep(s: State, step: Step, limit: nat)
    requires Ground(s) && StepCapped(step, limit) && Capped(s.book.config, limit) && Undisturbed(s, step)
    requires InLimit(s.book, false, limit) && GapFits(s.book, limit)
    ensures InLimit(Apply(s, step).book, false, limit) && GapFits(Apply(s, step).book, limit)
  {
    hide Ground, InLimit, GapFits, Ran, Idled, Capped, ApplyPost, ApplyAdvance, ApplyFire, ApplyFinish, SetBalance, EnsureWallet;
    if step.Reset? {
      if Idle(s) { FreshInLimit(step.config, false, limit); }
    } else if step.PostCall? {
      var e := PostRan(s, step);
      CountedFromRest(s.book, Apply(s, step).book, e, limit);
    } else if step.Advance? {
      var e := AdvanceRan(s, step.call);
      if e.Registers? && e.obj < |s.book.objs| {
        CountedOutOfGap(s.book, Apply(s, step).book, e.obj, limit);
      } else {
        CountedFromRest(s.book, Apply(s, step).book, e, limit);
      }
    } else {
      OtherIdled(s, step);
      IdledKeeps(s.book, Apply(s, step).book, false, limit);
    }
  }

  /** In every run whose configurations set no daily limit above this one, and that takes each call through its
      gap undisturbed: what a credential pays out never exceeds it. */
  lemma {:induction false} OutwardNeverExceeds(c: Config, now: nat, steps: seq<Step>, limit: nat)
    requires Capped(c, limit) && StepsCapped(steps, limit) && UndisturbedRun(c, now, steps)
    ensures var b := Run(Fresh(c, now), steps).book;
            InLimit(b, false, limit) && GapFits(b, limit)
  {
    hide Undisturbed, Ground, Apply, InLimit, GapFits, Capped, StepCapped;
    if steps == [] {
      FreshInLimit(c, false, limit);
    } else {
      var init, last := steps[..|steps| - 1], steps[|steps| - 1];
      UndisturbedPrefix(c, now, steps);
      OutwardNeverExceeds(c, now, init, limit);
      InwardNeverExceeds(c, now, init, limit);
      RunKeepsGround(c, now, init);
      OutwardStep(Run(Fresh(c, now), init), last, limit);
    }
  }

  /** Out of the gap, a payment oversteps the limit exactly if what was counted meanwhile left it no room. */
  lemma OverstepsExactly(b: Book, i: nat, limit: nat)
    requires i < |b.objs| && !Inward(b.objs[i]) && InLimit(b, false, limit)
    ensures InLimit(Resume(b, i).book, false, limit) <==> Room(b, b.objs[i], limit)
  {
    hide Resume;
    ResumeCounted(b, i);
    var c := Resume(b, i).book;
    if Room(b, b.objs[i], limit) { NotedVolumes(b, c, c.objs[i], false, limit); }
    assert VolumeOf(c, c.objs[i].key.cred, false) == VolumeOf(b, c.objs[i].key.cred, false) + c.objs[i].amount;
  }

  /** The step takes a payment out of its gap whose room what was counted meanwhile has used up. */
  ghost predicate Oversteps(s: State, step: Step, limit: nat)
  {
    && step.Advance? && step.call < |s.calls| && Waits(s.calls[step.call].phase).Holds?
    && var i := Waits(s.calls[step.call].phase).obj;
       i < |s.book.objs| && !Room(s.book, s.book.objs[i], limit)
  }

  /** Outside a gap the room was checked in the same stretch; out of a gap it is what it is. */
  lemma CountedOutward(b: Book, c: Book, e: Effect, limit: nat)
    requires Ran(b, c, e) && InLimit(b, false, limit) && Capped(b.config, limit)
    requires e.Registers? && e.obj < |b.objs| ==> !Inward(b.objs[e.obj])
    ensures InLimit(c, false, limit) <==> !(e.Registers? && e.obj < |b.objs| && !Room(b, b.objs[e.obj], limit))
  {
    hide Noted, InLimit;
    match e
    case Registers(i) =>
      if i < |b.objs| && !Room(b, b.objs[i], limit) {
        NotedBeyond(b, c, c.objs[i], limit);
      } else {
        NotedVolumes(b, c, c.objs[i], false, limit);
      }
    case _ => SameInLimit(b, c, false, limit);
  }

  lemma NotedBeyond(b: Book, c: Book, t: Tx, limit: nat)
    requires Noted(b, c, t) && !Inward(t) && !Room(b, t, limit)
    ensures !InLimit(c, false, limit)
  {
    assert VolumeOf(c, t.key.cred, false) > limit;
  }

  lemma OverstepStep(s: State, step: Step, limit: nat)
    requires Ground(s) && StepCapped(step, limit) && Capped(s.book.config, limit) && InLimit(s.book, false, limit)
    ensures InLimit(Apply(s, step).book, false, limit) <==> !Oversteps(s, step, limit)
  {
    hide Ground, InLimit, Ran, Idled, Capped, Room, ApplyPost, ApplyAdvance, ApplyFire, ApplyFinish, SetBalance, EnsureWallet;
    if step.Reset? {
      if Idle(s) { FreshInLimit(step.config, false, limit); }
    } else if step.PostCall? {
      var e := PostRan(s, step);
      CountedOutward(s.book, Apply(s, step).book, e, limit);
    } else if step.Advance? {
      var e := AdvanceRan(s, step.call);
      if e.Registers? && e.obj < |s.book.objs| { UnregisteredOutward(s, e.obj); }
      CountedOutward(s.book, Apply(s, step).book, e, limit);
    } else {
      OtherIdled(s, step);
      IdledKeeps(s.book, Apply(s, step).book, false, limit);
    }
  }

  lemma OverstepAt(c: Config, now: nat, steps: seq<Step>, limit: nat, n: nat)
    requires Capped(c, limit) && StepsCapped(steps, limit) && n < |steps|
    requires InLimit(Run(Fresh(c, now), steps[..n]).book, false, limit)
    ensures InLimit(Run(Fresh(c, now), steps[..n + 1]).book, false, limit) <==>
            !Oversteps(Run(Fresh(c, now), steps[..n]), steps[n], limit)
  {
    hide Ground, Apply, InLimit, Capped, StepCapped, Oversteps, Run;
    assert steps[..n + 1] == steps[..n] + [steps[n]];
    RunStep(Fresh(c, now), steps[..n], steps[n]);
    RunKeepsGround(c, now, steps[..n]);
    InwardNeverExceeds(c, now, steps[..n], limit);
    OverstepStep(Run(Fresh(c, now), steps[..n]), steps[n], limit);
  }

  lemma {:induction false} NeverOverstepped(c: Config, now: nat, steps: seq<Step>, limit: nat, n: nat)
    requires Capped(c, limit) && StepsCapped(steps, limit) && n <= |steps|
    requires forall k :: 0 <= k < |steps| ==> !Oversteps(Run(Fresh(c, now), steps[..k]), steps[k], limit)
    ensures InLimit(Run(Fresh(c, now), steps[..n]).book, false, limit)
  {
    hide Ground, Apply, InLimit, Capped, StepCapped, Oversteps;
    if n == 0 {
      FreshInLimit(c, false, limit);
    } else {
      NeverOverstepped(c, now, steps, limit, n - 1);
      OverstepAt(c, now, steps, limit, n - 1);
    }
  }

  /** In every run whose configurations set no daily limit above this one, whatever the interleaving: what is paid
      out stays within it all along, exactly if no payment comes out of its gap without room. */
  lemma OutwardExactly(c: Config, now: nat, steps: seq<Step>, limit: nat)
    requires Capped(c, limit) && StepsCapped(steps, limit)
    ensures (forall n :: 0 <= n <= |steps| ==> InLimit(Run(Fresh(c, now), steps[..n]).book, false, limit)) <==>
            (forall n :: 0 <= n < |steps| ==> !Oversteps(Run(Fresh(c, now), steps[..n]), steps[n], limit))
  {
    hide Run, InLimit, Oversteps, Capped, StepCapped;
    if forall n :: 0 <= n <= |steps| ==> InLimit(Run(Fresh(c, now), steps[..n]).book, false, limit) {
      forall n | 0 <= n < |steps| ensures !Oversteps(Run(Fresh(c, now), steps[..n]), steps[n], limit) {
        assert InLimit(Run(Fresh(c, now), steps[..n + 1]).book, false, limit);
        OverstepAt(c, now, steps, limit, n);
      }
    }
    if forall n :: 0 <= n < |steps| ==> !Oversteps(Run(Fresh(c, now), steps[..n]), steps[n], limit) {
      forall n | 0 <= n <= |steps| ensures InLimit(Run(Fresh(c, now), steps[..n]).book, false, limit) {
        NeverOverstepped(c, now, steps, limit, n);
      }
    }
  }
}
