/** The simulator as a state machine: the books, the idempotency map, the calls in progress and the
    timer queue. A call runs from one suspension point to the next, so calls interleave exactly where
    the source awaits; timers fire in (due time, insertion) order; controls run between segments. */
module Protocol {
  import opened Money
  import opened Domain
  import opened Operations

  datatype Idem = Running(hash: Body) | Committed(hash: Body, reply: Reply)

  /** What the client of a call has seen. `Lost` is the 504 sent although the call was applied. */
  datatype Answer = Got(reply: Reply) | Lost | Rejected(code: Code) | Crashed

  /** The batch item being worked on: awaiting its debit, or finished. */
  datatype Item = Holding(obj: nat) | Have(result: ItemResult)

  datatype Phase =
    | Suspended(obj: nat)
    | InBatch(results: seq<ItemResult>, item: Item, rest: seq<PayoutRequest>)
    | Returned(reply: Reply)
    | Threw(code: Code)
    | Broke
    | Answered(answer: Answer)

  /** `ran` tells a call that executed its operation from one that was answered from the map. */
  datatype Call = Call(cred: Name, key: string, body: Body, ran: bool, phase: Phase)

  datatype Timer = Timer(due: nat, epoch: nat, act: Act)

  datatype State = State(
    book: Book, epoch: nat, now: nat, timers: seq<Timer>, idem: map<Name, Idem>, calls: seq<Call>)

  function Fresh(c: Config, now: nat): State { State(FreshBook(c), 0, now, [], map[], []) }

  datatype Step =
    | PostCall(cred: Name, key: string, endpoint: Endpoint, body: Body, crash: bool, lost: bool)
    | Advance(call: nat)
    | Finish(call: nat, lost: bool)
    | Fire(timer: nat, at: nat)
    | Tick(at: nat)
    | Touch(cred: Name)
    | Balance(cred: Name, amount: string)
    | Patch(config: Config)
    | DropPolicy
    | Reset(config: Config)

  /* Timers */

  function Schedule(now: nat, epoch: nat, later: seq<Later>): (r: seq<Timer>)
    ensures |r| == |later|
    ensures forall i :: 0 <= i < |later| ==> r[i] == Timer(now + Timeout(later[i].delay), epoch, later[i].act)
  {
    if later == [] then []
    else
      Schedule(now, epoch, later[..|later| - 1]) +
      [Timer(now + Timeout(later[|later| - 1].delay), epoch, later[|later| - 1].act)]
  }

  /** The queue runs the earliest due time first and, among equals, the earliest scheduled. */
  predicate IsNext(timers: seq<Timer>, j: nat)
  {
    && j < |timers|
    && (forall k :: 0 <= k < j ==> timers[j].due < timers[k].due)
    && (forall k :: j < k < |timers| ==> timers[j].due <= timers[k].due)
  }

  function Without<T>(s: seq<T>, j: nat): seq<T>
    requires j < |s|
  {
    s[..j] + s[j + 1..]
  }

  /* Running an operation */

  /** A body sent to an endpoint of another shape fails that endpoint's schema. */
  function Start(b: Book, cred: Name, endpoint: Endpoint, body: Body): Result
  {
    if endpoint == Collections && body.CollectionBody? then CreateCollection(b, cred, body)
    else if endpoint == Payouts && body.PayoutBody? then StartPayout(b, cred, body.payout)
    else if endpoint == UtilityPurchases && body.UtilityBody? then StartUtility(b, cred, body)
    else if endpoint == Transfers && body.TransferBody? then StartTransfer(b, cred, body)
    else if endpoint == Settlements && body.SettleBody? then SettleNow(b, cred, body.reference)
    else if endpoint == SettlementPolicy && body.PolicyBody? then PutPolicy(b, body)
    else Result(b, [], Fail(InvalidInput))
  }

  function PhaseOf(out: Out): Phase
  {
    match out
    case Done(reply) => Returned(reply)
    case Fail(code) => Threw(code)
    case Await(i) => Suspended(i)
  }

  function ItemOf(b: Book, reference: Name, out: Out): Item
  {
    match out
    case Done(TxReply(_, view)) => Have(ItemAccepted(reference, view))
    case Done(_) => Have(ItemRefused(reference, Internal))
    case Fail(code) => Have(ItemRefused(reference, code))
    case Await(i) => Holding(i)
  }

  datatype Segment = Segment(book: Book, later: seq<Later>, phase: Phase)

  /** Starts the next batch item, or closes the batch when none is left. */
  function NextItem(b: Book, cred: Name, body: Body, results: seq<ItemResult>, rest: seq<PayoutRequest>): Segment
    requires body.BatchBody?
  {
    if rest == [] then
      var r := BatchFinish(b, cred, body, results);
      Segment(r.book, r.later, PhaseOf(r.out))
    else
      var r := StartPayout(b, cred, rest[0]);
      Segment(r.book, r.later, InBatch(results, ItemOf(r.book, rest[0].reference, r.out), rest[1..]))
  }

  /** A call's first segment: from the handler's entry to its first suspension. */
  function FirstSegment(b: Book, cred: Name, endpoint: Endpoint, body: Body): Segment
  {
    if endpoint == PayoutBatches && body.BatchBody? then
      var early := BatchPrecheck(b, cred, body);
      if early.Some? then Segment(b, [], PhaseOf(early.value))
      else NextItem(b, cred, body, [], body.items)
    else
      var r := Start(b, cred, endpoint, body);
      Segment(r.book, r.later, PhaseOf(r.out))
  }

  /** The segment after a suspension, if the call is at one. */
  function NextSegment(b: Book, c: Call): Segment
  {
    match c.phase
    case Suspended(i) =>
      if i < |b.objs| then
        var r := Resume(b, i);
        Segment(r.book, r.later, PhaseOf(r.out))
      else Segment(b, [], c.phase)
    case InBatch(results, Holding(i), rest) =>
      if i < |b.objs| then
        var r := Resume(b, i);
        Segment(r.book, r.later, InBatch(results, ItemOf(r.book, b.objs[i].key.reference, r.out), rest))
      else Segment(b, [], c.phase)
    case InBatch(results, Have(x), rest) =>
      if c.body.BatchBody? then NextItem(b, c.cred, c.body, results + [x], rest)
      else Segment(b, [], c.phase)
    case _ => Segment(b, [], c.phase)
  }

  function Absorb(s: State, g: Segment): State
  {
    s.(book := g.book, timers := s.timers + Schedule(s.now, s.epoch, g.later))
  }

  /* Idempotency */

  predicate GoodKey(key: string) { 1 <= |key| <= 255 }

  /** The reply after the ambiguous-timeout draw of the request handler. */
  function Deliver(reply: Reply, lost: bool): Answer
  {
    if ReplyStatus(reply) < 500 && lost then Lost else Got(reply)
  }

  function Log(s: State, c: Call): State { s.(calls := s.calls + [c]) }

  function ApplyPost(s: State, cred: Name, key: string, endpoint: Endpoint, body: Body, crash: bool, lost: bool): State
  {
    var k := IdemKey(cred, key);
    if !GoodKey(key) then Log(s, Call(cred, key, body, false, Answered(Rejected(InvalidInput))))
    else if k in s.idem then
      var answer :=
        if s.idem[k].hash != body then Rejected(IdempotencyKeyReused)
        else if s.idem[k].Running? then Rejected(RequestInFlight)
        else Deliver(s.idem[k].reply, lost);
      Log(s, Call(cred, key, body, false, Answered(answer)))
    else
      var s1 := s.(idem := s.idem[k := Running(body)]);
      if crash then Log(s1, Call(cred, key, body, true, Broke))
      else
        var g := FirstSegment(s.book, cred, endpoint, body);
        Log(Absorb(s1, g), Call(cred, key, body, true, g.phase))
  }

  function SetPhase(s: State, i: nat, phase: Phase): State
    requires i < |s.calls|
  {
    s.(calls := s.calls[i := s.calls[i].(phase := phase)])
  }

  function ApplyAdvance(s: State, i: nat): State
  {
    if i < |s.calls| then
      var g := NextSegment(s.book, s.calls[i]);
      SetPhase(Absorb(s, g), i, g.phase)
    else s
  }

  /** The end of the idempotent run: commit the reply or a refusal under 500, else forget the key. */
  function ApplyFinish(s: State, i: nat, lost: bool): State
  {
    if i >= |s.calls| then s
    else
      var c := s.calls[i];
      var k := IdemKey(c.cred, c.key);
      match c.phase
      case Returned(reply) =>
        SetPhase(s.(idem := s.idem[k := Committed(c.body, reply)]), i, Answered(Deliver(reply, lost)))
      case Threw(code) =>
        var idem := if HttpStatus(code) < 500 then s.idem[k := Committed(c.body, ErrorReply(code))] else s.idem - {k};
        SetPhase(s.(idem := idem), i, Answered(Rejected(code)))
      case Broke => SetPhase(s.(idem := s.idem - {k}), i, Answered(Crashed))
      case _ => s
  }

  /** A timer of an earlier epoch fires without effect. */
  function ApplyFire(s: State, j: nat, at: nat): State
  {
    if IsNext(s.timers, j) && at >= s.now && at >= s.timers[j].due then
      var t := s.timers[j];
      var s1 := s.(now := at, timers := Without(s.timers, j));
      if t.epoch != s.epoch then s1
      else
        var (b, later) := RunAct(s.book, t.act);
        Absorb(s1, Segment(b, later, Broke))
    else s
  }

  predicate Idle(s: State) { forall i :: 0 <= i < |s.calls| ==> s.calls[i].phase.Answered? }

  /** A reset empties everything but the pending timers, which the new epoch disowns. Resets with a
      call in progress are outside the model. */
  function ApplyReset(s: State, c: Config): State
  {
    if Idle(s) then State(FreshBook(c), s.epoch + 1, s.now, s.timers, map[], []) else s
  }

  /** One step. A step that is not possible in the state changes nothing. */
  function Apply(s: State, step: Step): State
  {
    match step
    case PostCall(cred, key, endpoint, body, crash, lost) => ApplyPost(s, cred, key, endpoint, body, crash, lost)
    case Advance(i) => ApplyAdvance(s, i)
    case Finish(i, lost) => ApplyFinish(s, i, lost)
    case Fire(j, at) => ApplyFire(s, j, at)
    case Tick(at) => if at > s.now then s.(now := at) else s
    case Touch(cred) => s.(book := EnsureWallet(s.book, cred))
    case Balance(cred, amount) => s.(book := SetBalance(s.book, cred, amount))
    case Patch(config) => s.(book := s.book.(config := config))
    case DropPolicy => s.(book := s.book.(policy := None))
    case Reset(config) => ApplyReset(s, config)
  }

  lemma FireIsApplied(s: State, j: nat, at: nat)
    ensures Apply(s, Fire(j, at)) == ApplyFire(s, j, at)
  {
    hide ApplyFire;
  }

  lemma FireBook(s: State, j: nat, at: nat)
    ensures var c := ApplyFire(s, j, at).book;
            || c == s.book
            || (IsNext(s.timers, j) && s.timers[j].epoch == s.epoch && c == RunAct(s.book, s.timers[j].act).0)
  {
    hide RunAct, IsNext;
  }

  lemma AdvanceIsApplied(s: State, i: nat)
    ensures Apply(s, Advance(i)) == ApplyAdvance(s, i)
    ensures Apply(s, Advance(i)).book == if i < |s.calls| then NextSegment(s.book, s.calls[i]).book else s.book
  {
    hide NextSegment;
  }

  lemma AdvanceSparesOthers(s: State, i: nat)
    ensures var t := ApplyAdvance(s, i);
            |t.calls| == |s.calls| && forall j :: 0 <= j < |s.calls| && j != i ==> t.calls[j] == s.calls[j]
  {
    hide NextSegment;
  }

  /** Any sequence of steps is a run: whatever the clients, the timers and the controls do. */
  function Run(s: State, steps: seq<Step>): State
  {
    if steps == [] then s else Apply(Run(s, steps[..|steps| - 1]), steps[|steps| - 1])
  }

  lemma RunStep(s: State, steps: seq<Step>, step: Step)
    ensures Run(s, steps + [step]) == Apply(Run(s, steps), step)
  {
    hide Apply;
    assert (steps + [step])[..|steps|] == steps;
  }

  lemma OneStep(s: State, step: Step)
    ensures Run(s, [step]) == Apply(s, step)
  {
    RunStep(s, [], step);
    assert [] + [step] == [step];
  }

  /** Two runs of a sequence in a row. */
  lemma {:induction false} RunConcat(s: State, a: seq<Step>, b: seq<Step>)
    ensures Run(s, a + b) == Run(Run(s, a), b)
  {
    hide Apply;
    if b == [] {
      assert a + b == a;
    } else {
      RunConcat(s, a, b[..|b| - 1]);
      assert (a + b)[..|a + b| - 1] == a + b[..|b| - 1];
    }
  }

  lemma RunFirst(s: State, step: Step, rest: seq<Step>)
    ensures Run(s, [step] + rest) == Run(Apply(s, step), rest)
  {
    RunConcat(s, [step], rest);
    OneStep(s, step);
  }

  predicate StepWellFormed(step: Step)
  {
    match step
    case Patch(c) => WellFormed(c)
    case Reset(c) => WellFormed(c)
    case _ => true
  }

  predicate StepsWellFormed(steps: seq<Step>)
  {
    forall i :: 0 <= i < |steps| ==> StepWellFormed(steps[i])
  }
}
