/** Idempotency keys over whole runs: a key's operation is executed by at most one call that counts, its
    reply is committed once, and every later call with the same body gets that reply and changes
    nothing. Entries go by the source's text keys, in which two credentials can meet; SharesExactly says
    which. */
module Idempotency {
  import opened Money
  import opened Domain
  import opened Operations
  import opened Protocol

  function KeyOf(c: Call): Name { IdemKey(c.cred, c.key) }

  /** Executing its operation, or between that and the answer. */
  predicate Active(c: Call) { c.ran && !c.phase.Answered? }

  /** A run whose key was released: an unexpected exception or a refusal of 500 or more. */
  predicate Released(c: Call)
  {
    c.phase == Answered(Crashed) ||
    (c.phase.Answered? && c.phase.answer.Rejected? && HttpStatus(c.phase.answer.code) >= 500)
  }

  predicate Counts(c: Call) { c.ran && !Released(c) }

  /** What the map says about an answered call. */
  predicate Backed(idem: map<Name, Idem>, c: Call)
  {
    match c.phase
    case Answered(Got(reply)) => KeyOf(c) in idem && idem[KeyOf(c)] == Committed(c.body, reply)
    case Answered(Lost) => KeyOf(c) in idem && idem[KeyOf(c)].Committed? && idem[KeyOf(c)].hash == c.body
    case Answered(Rejected(code)) =>
      c.ran && HttpStatus(code) < 500 ==> KeyOf(c) in idem && idem[KeyOf(c)] == Committed(c.body, ErrorReply(code))
    case Answered(Crashed) => true
    case _ => c.ran && KeyOf(c) in idem && idem[KeyOf(c)] == Running(c.body)
  }

  ghost predicate IdemInv(s: State)
  {
    && (forall i :: 0 <= i < |s.calls| ==> Backed(s.idem, s.calls[i]))
    && (forall i, j :: 0 <= i < j < |s.calls| && Counts(s.calls[i]) && Counts(s.calls[j]) ==>
          KeyOf(s.calls[i]) != KeyOf(s.calls[j]))
    && (forall k :: k in s.idem && s.idem[k].Running? ==>
          exists i :: 0 <= i < |s.calls| && Active(s.calls[i]) && KeyOf(s.calls[i]) == k)
  }

  /** A call that counts has its key in the map. */
  lemma CountedKey(s: State, i: nat)
    requires IdemInv(s) && i < |s.calls| && Counts(s.calls[i])
    ensures KeyOf(s.calls[i]) in s.idem
  {
    assert Backed(s.idem, s.calls[i]);
  }

  lemma AnsweredKeeps(s: State, c: Call)
    requires IdemInv(s) && !c.ran && Backed(s.idem, c)
    ensures IdemInv(Log(s, c))
  {
    var t := Log(s, c);
    forall k | k in t.idem && t.idem[k].Running?
      ensures exists i :: 0 <= i < |t.calls| && Active(t.calls[i]) && KeyOf(t.calls[i]) == k
    {
      var i :| 0 <= i < |s.calls| && Active(s.calls[i]) && KeyOf(s.calls[i]) == k;
      assert t.calls[i] == s.calls[i];
    }
  }

  lemma StartedKeeps(s: State, c: Call)
    requires IdemInv(s) && KeyOf(c) !in s.idem && Active(c)
    ensures IdemInv(Log(s.(idem := s.idem[KeyOf(c) := Running(c.body)]), c))
  {
    var t := Log(s.(idem := s.idem[KeyOf(c) := Running(c.body)]), c);
    forall i | 0 <= i < |t.calls| ensures Backed(t.idem, t.calls[i]) {
      if i < |s.calls| { assert Backed(s.idem, s.calls[i]); }
    }
    forall i, j | 0 <= i < j < |t.calls| && Counts(t.calls[i]) && Counts(t.calls[j])
      ensures KeyOf(t.calls[i]) != KeyOf(t.calls[j])
    {
      CountedKey(s, i);
    }
    forall k | k in t.idem && t.idem[k].Running?
      ensures exists i :: 0 <= i < |t.calls| && Active(t.calls[i]) && KeyOf(t.calls[i]) == k
    {
      if k == KeyOf(c) {
        assert t.calls[|s.calls|] == c;
      } else {
        var i :| 0 <= i < |s.calls| && Active(s.calls[i]) && KeyOf(s.calls[i]) == k;
        assert t.calls[i] == s.calls[i];
      }
    }
  }

  lemma PostKeepsIdem(s: State, cred: Name, key: string, endpoint: Endpoint, body: Body, crash: bool, lost: bool)
    requires IdemInv(s)
    ensures IdemInv(ApplyPost(s, cred, key, endpoint, body, crash, lost))
  {
    hide IdemInv, FirstSegment;
    var t := ApplyPost(s, cred, key, endpoint, body, crash, lost);
    var c := t.calls[|s.calls|];
    if c.ran {
      PhasesOpen(s.book, cred, endpoint, body);
      StartedKeeps(s, c);
      BookFree(Log(s.(idem := t.idem), c), t);
    } else {
      AnsweredKeeps(s, c);
    }
  }

  /** The idempotency invariant reads the map and the calls only. */
  lemma BookFree(s: State, t: State)
    requires IdemInv(s) && t.idem == s.idem && t.calls == s.calls
    ensures IdemInv(t)
  {
  }

  lemma PhasesOpen(b: Book, cred: Name, endpoint: Endpoint, body: Body)
    ensures !FirstSegment(b, cred, endpoint, body).phase.Answered?
  {
    hide Start, StartPayout, BatchPrecheck;
  }

  lemma NextOpen(b: Book, c: Call)
    requires !c.phase.Answered?
    ensures !NextSegment(b, c).phase.Answered?
  {
    hide Resume, StartPayout;
  }

  /** Moving a call between open phases. */
  lemma OpenKeeps(s: State, i: nat, phase: Phase)
    requires IdemInv(s) && i < |s.calls| && !s.calls[i].phase.Answered? && !phase.Answered?
    ensures IdemInv(SetPhase(s, i, phase))
  {
    var t := SetPhase(s, i, phase);
    assert Backed(s.idem, s.calls[i]);
    forall k | k in t.idem && t.idem[k].Running?
      ensures exists j :: 0 <= j < |t.calls| && Active(t.calls[j]) && KeyOf(t.calls[j]) == k
    {
      var j :| 0 <= j < |s.calls| && Active(s.calls[j]) && KeyOf(s.calls[j]) == k;
      assert Active(t.calls[j]) && KeyOf(t.calls[j]) == k;
    }
  }

  /** Closing an open call: its entry is committed with its body, or released. */
  lemma CloseKeeps(s: State, i: nat, idem: map<Name, Idem>, answer: Answer)
    requires IdemInv(s) && i < |s.calls| && !s.calls[i].phase.Answered?
    requires var k := KeyOf(s.calls[i]);
             && (forall l :: l != k ==> (l in idem <==> l in s.idem) && (l in idem ==> idem[l] == s.idem[l]))
             && (k in idem ==> idem[k].Committed?)
    requires Backed(idem, s.calls[i].(phase := Answered(answer)))
    ensures IdemInv(SetPhase(s.(idem := idem), i, Answered(answer)))
  {
    var t := SetPhase(s.(idem := idem), i, Answered(answer));
    var k := KeyOf(s.calls[i]);
    assert Backed(s.idem, s.calls[i]);
    forall j | 0 <= j < |t.calls| ensures Backed(t.idem, t.calls[j]) {
      if j != i {
        OthersElsewhere(s, i, j);
      }
    }
    forall l | l in t.idem && t.idem[l].Running?
      ensures exists j :: 0 <= j < |t.calls| && Active(t.calls[j]) && KeyOf(t.calls[j]) == l
    {
      var j :| 0 <= j < |s.calls| && Active(s.calls[j]) && KeyOf(s.calls[j]) == l;
      assert t.calls[j] == s.calls[j];
    }
  }

  /** While a call is open, no other call relies on its key's entry. */
  lemma OthersElsewhere(s: State, i: nat, j: nat)
    requires IdemInv(s) && i < |s.calls| && j < |s.calls| && i != j && !s.calls[i].phase.Answered?
    ensures Backed(s.idem, s.calls[j])
    ensures KeyOf(s.calls[j]) == KeyOf(s.calls[i]) ==>
      forall idem :: Backed(idem, s.calls[j])
  {
    assert Backed(s.idem, s.calls[i]) && Backed(s.idem, s.calls[j]);
  }

  lemma FinishKeepsIdem(s: State, i: nat, lost: bool)
    requires IdemInv(s)
    ensures IdemInv(ApplyFinish(s, i, lost))
  {
    hide IdemInv;
    if i < |s.calls| {
      var c := s.calls[i];
      if !c.phase.Answered? { OpenRan(s, i); }
      match c.phase
      case Returned(reply) => CloseKeeps(s, i, s.idem[KeyOf(c) := Committed(c.body, reply)], Deliver(reply, lost));
      case Threw(code) =>
        var idem := if HttpStatus(code) < 500 then s.idem[KeyOf(c) := Committed(c.body, ErrorReply(code))] else s.idem - {KeyOf(c)};
        CloseKeeps(s, i, idem, Rejected(code));
      case Broke => CloseKeeps(s, i, s.idem - {KeyOf(c)}, Crashed);
      case _ =>
    }
  }

  lemma OpenRan(s: State, i: nat)
    requires IdemInv(s) && i < |s.calls| && !s.calls[i].phase.Answered?
    ensures s.calls[i].ran
  {
    assert Backed(s.idem, s.calls[i]);
  }

  lemma StepKeepsIdem(s: State, step: Step)
    requires IdemInv(s)
    ensures IdemInv(Apply(s, step))
  {
    hide IdemInv, NextSegment;
    match step
    case PostCall(cred, key, endpoint, body, crash, lost) => PostKeepsIdem(s, cred, key, endpoint, body, crash, lost);
    case Advance(i) =>
      if i < |s.calls| {
        var g := NextSegment(s.book, s.calls[i]);
        if s.calls[i].phase.Answered? {
          AnsweredStays(s, i);
          BookFree(s, Apply(s, step));
        } else {
          NextOpen(s.book, s.calls[i]);
          OpenKeeps(s, i, g.phase);
          BookFree(SetPhase(s, i, g.phase), Apply(s, step));
        }
      }
    case Finish(i, lost) => FinishKeepsIdem(s, i, lost);
    case Reset(config) => if Idle(s) { EmptyIdem(Apply(s, step)); }
    case _ => BookFree(s, Apply(s, step));
  }

  lemma AnsweredStays(s: State, i: nat)
    requires i < |s.calls| && s.calls[i].phase.Answered?
    ensures SetPhase(s, i, NextSegment(s.book, s.calls[i]).phase).calls == s.calls
  {
  }

  lemma EmptyIdem(s: State)
    requires s.calls == [] && s.idem == map[]
    ensures IdemInv(s)
  {
  }

  lemma {:induction false} RunKeepsIdem(c: Config, now: nat, steps: seq<Step>)
    ensures IdemInv(Run(Fresh(c, now), steps))
  {
    hide IdemInv;
    if steps == [] {
      EmptyIdem(Fresh(c, now));
    } else {
      RunKeepsIdem(c, now, steps[..|steps| - 1]);
      StepKeepsIdem(Run(Fresh(c, now), steps[..|steps| - 1]), steps[|steps| - 1]);
    }
  }

  /* What clients can rely on */

  /** What an answered call shows of the reply committed under its key: the reply itself, or the refusal that
      its own execution ended in. */
  function Shows(c: Call): Option<Reply>
  {
    match c.phase
    case Answered(Got(reply)) => Some(reply)
    case Answered(Rejected(code)) => if c.ran && HttpStatus(code) < 500 then Some(ErrorReply(code)) else None
    case _ => None
  }

  /** In every run: no two calls with one key both execute and count, and any two answers that show what was
      committed under a key, be it a reply or a refusal, show the same to the same body. */
  lemma OneExecutionOneReply(c: Config, now: nat, steps: seq<Step>, i: nat, j: nat)
    requires var s := Run(Fresh(c, now), steps);
             i < j < |s.calls| && KeyOf(s.calls[i]) == KeyOf(s.calls[j])
    ensures var s := Run(Fresh(c, now), steps);
            && !(Counts(s.calls[i]) && Counts(s.calls[j]))
            && (Shows(s.calls[i]).Some? && Shows(s.calls[j]).Some? ==>
                  Shows(s.calls[i]) == Shows(s.calls[j]) && s.calls[i].body == s.calls[j].body)
  {
    RunKeepsIdem(c, now, steps);
    hide Run;
    var s := Run(Fresh(c, now), steps);
    assert Backed(s.idem, s.calls[i]) && Backed(s.idem, s.calls[j]);
  }

  predicate NoReset(steps: seq<Step>) { forall i :: 0 <= i < |steps| ==> !steps[i].Reset? }

  /** A committed reply is never replaced before a reset. */
  lemma StepKeepsCommitted(s: State, step: Step, k: Name)
    requires IdemInv(s) && k in s.idem && s.idem[k].Committed? && !step.Reset?
    ensures k in Apply(s, step).idem && Apply(s, step).idem[k] == s.idem[k]
  {
    hide FirstSegment, NextSegment, RunAct, SetBalance, EnsureWallet, Schedule, IsNext, Deliver;
    match step
    case Finish(i, lost) => if i < |s.calls| && !s.calls[i].phase.Answered? { assert Backed(s.idem, s.calls[i]); }
    case PostCall(_, _, _, _, _, _) =>
    case Advance(i) =>
    case Fire(_, _) =>
    case _ =>
  }

  lemma {:induction false} CommittedForever(s: State, steps: seq<Step>, k: Name)
    requires IdemInv(s) && k in s.idem && s.idem[k].Committed? && NoReset(steps)
    ensures IdemInv(Run(s, steps)) && k in Run(s, steps).idem && Run(s, steps).idem[k] == s.idem[k]
  {
    hide IdemInv;
    if steps != [] {
      CommittedForever(s, steps[..|steps| - 1], k);
      StepKeepsCommitted(Run(s, steps[..|steps| - 1]), steps[|steps| - 1], k);
      StepKeepsIdem(Run(s, steps[..|steps| - 1]), steps[|steps| - 1]);
    }
  }

  /** The call's answer stands for what was committed: its reply, the 504 that hides it, or the refusal its
      execution ended in. */
  predicate Commits(c: Call)
  {
    && c.phase.Answered?
    && match c.phase.answer
       case Got(_) | Lost => true
       case Rejected(code) => c.ran && HttpStatus(code) < 500
       case Crashed => false
  }

  /** After a call was answered with its reply, with the 504 that hides it, or with the refusal its execution
      ended in, its key's entry holds that for good: whatever happens before a reset, a call with the same key
      and body is answered from the entry, one with another body is refused, and either way the books, the
      timers and the map stay exactly as they were. */
  lemma ReplayedForever(c: Config, now: nat, before: seq<Step>, after: seq<Step>, i: nat,
                        endpoint: Endpoint, body: Body, crash: bool, lost: bool)
    requires NoReset(after) && i < |Run(Fresh(c, now), before).calls|
    requires var call := Run(Fresh(c, now), before).calls[i]; Commits(call) && GoodKey(call.key)
    ensures var s0 := Run(Fresh(c, now), before);
            var call, k := s0.calls[i], KeyOf(s0.calls[i]);
            && k in s0.idem && s0.idem[k].Committed? && s0.idem[k].hash == call.body
            && (Shows(call).Some? ==> s0.idem[k].reply == Shows(call).value)
            && var s := Run(s0, after);
               var t := Apply(s, PostCall(call.cred, call.key, endpoint, body, crash, lost));
               && t.book == s.book && t.timers == s.timers && t.idem == s.idem
               && t.calls == s.calls + [Call(call.cred, call.key, body, false, Answered(
                    if body == call.body then Deliver(s0.idem[k].reply, lost) else Rejected(IdempotencyKeyReused)))]
  {
    RunKeepsIdem(c, now, before);
    hide Run;
    var s := Run(Fresh(c, now), before);
    assert Backed(s.idem, s.calls[i]);
    CommittedForever(s, after, KeyOf(s.calls[i]));
  }

  /* Whose entries */

  /** The credentials can meet in an entry, under keys the header accepts. */
  ghost predicate Share(c: Name, d: Name)
  {
    exists k, l :: GoodKey(k) && GoodKey(l) && IdemKey(c, k) == IdemKey(d, l)
  }

  /** Different credentials share entries exactly if one is the other followed by a colon and at most 253
      characters: the key that makes up for the difference has two characters more. */
  lemma SharesExactly(c: Name, d: Name)
    requires c != d
    ensures Share(c, d) <==> (Extends(c, d) && |Rest(c, d)| <= 253) || (Extends(d, c) && |Rest(d, c)| <= 253)
  {
    if k, l :| GoodKey(k) && GoodKey(l) && IdemKey(c, k) == IdemKey(d, l) {
      SameEntryExactly(c, k, d, l);
    }
    if Extends(c, d) && |Rest(c, d)| <= 253 { ExtendedShares(c, d); }
    if Extends(d, c) && |Rest(d, c)| <= 253 { ExtendedShares(d, c); }
  }

  lemma ExtendedShares(c: Name, d: Name)
    requires Extends(c, d) && |Rest(c, d)| <= 253
    ensures Share(c, d) && Share(d, c)
  {
    var k := Rest(c, d) + ":" + "x";
    SameEntryExactly(c, k, d, "x");
    assert GoodKey(k) && GoodKey("x");
  }
}
