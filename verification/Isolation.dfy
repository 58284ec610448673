/** A reset isolates what follows from what went before: timers of earlier epochs still fire, but every run
    after a reset has the same books, replies and clock as a run of a fresh simulator with that
    configuration, in which those firings are only the time they took. */
module Isolation {
  import opened Domain
  import opened Operations
  import opened Protocol
  import opened Segments
  import opened Groundwork
  import opened Idempotency

  /** The timers of one epoch, in queue order, relabelled. */
  function Live(timers: seq<Timer>, epoch: nat): (r: seq<Timer>)
    ensures |r| <= |timers|
  {
    if timers == [] then []
    else
      var last := timers[|timers| - 1];
      Live(timers[..|timers| - 1], epoch) + if last.epoch == epoch then [last.(epoch := 0)] else []
  }

  /** The state as a fresh simulator would have it: no epochs, no disowned timers. */
  function Erase(s: State): State { s.(epoch := 0, timers := Live(s.timers, s.epoch)) }

  predicate Enabled(s: State, j: nat, at: nat) { IsNext(s.timers, j) && at >= s.now && at >= s.timers[j].due }

  /** The step a fresh simulator takes: a live timer has moved up in the queue, a disowned one is only the
      passing of time. */
  function Translate(s: State, step: Step): Step
  {
    if step.Fire? then
      if !Enabled(s, step.timer, step.at) then Tick(0)
      else if s.timers[step.timer].epoch == s.epoch then Fire(|Live(s.timers[..step.timer], s.epoch)|, step.at)
      else Tick(step.at)
    else step
  }

  function Translated(s: State, steps: seq<Step>): (r: seq<Step>)
    ensures |r| == |steps|
  {
    if steps == [] then []
    else
      var init := steps[..|steps| - 1];
      Translated(s, init) + [Translate(Run(s, init), steps[|steps| - 1])]
  }

  lemma {:induction false} LiveConcat(a: seq<Timer>, b: seq<Timer>, epoch: nat)
    ensures Live(a + b, epoch) == Live(a, epoch) + Live(b, epoch)
  {
    if b == [] {
      assert a + b == a;
    } else {
      LiveConcat(a, b[..|b| - 1], epoch);
      assert (a + b)[..|a + b| - 1] == a + b[..|b| - 1];
    }
  }

  lemma {:induction false} LiveScheduled(now: nat, epoch: nat, later: seq<Later>)
    ensures Live(Schedule(now, epoch, later), epoch) == Schedule(now, 0, later)
  {
    if later != [] {
      LiveScheduled(now, epoch, later[..|later| - 1]);
      assert Schedule(now, epoch, later)[..|later| - 1] == Schedule(now, epoch, later[..|later| - 1]);
    }
  }

  lemma AbsorbErases(s: State, g: Segment)
    ensures Erase(Absorb(s, g)) == Absorb(Erase(s), g)
  {
    LiveConcat(s.timers, Schedule(s.now, s.epoch, g.later), s.epoch);
    LiveScheduled(s.now, s.epoch, g.later);
  }

  lemma {:induction false} LiveAt(timers: seq<Timer>, epoch: nat, j: nat)
    requires j < |timers|
    ensures Live(timers, epoch) == Live(timers[..j], epoch)
                                   + (if timers[j].epoch == epoch then [timers[j].(epoch := 0)] else [])
                                   + Live(timers[j + 1..], epoch)
    ensures Live(Without(timers, j), epoch) == Live(timers[..j], epoch) + Live(timers[j + 1..], epoch)
  {
    LiveConcat(timers[..j], timers[j + 1..], epoch);
    LiveConcat(timers[..j], [timers[j]], epoch);
    assert [timers[j]][..0] == [];
    LiveConcat(timers[..j] + [timers[j]], timers[j + 1..], epoch);
    assert timers == timers[..j] + [timers[j]] + timers[j + 1..];
  }

  /** Every live timer comes from the queue. */
  lemma {:induction false} LiveSource(timers: seq<Timer>, epoch: nat, k: nat) returns (m: nat)
    requires k < |Live(timers, epoch)|
    ensures m < |timers| && Live(timers, epoch)[k] == timers[m].(epoch := 0)
  {
    var init := timers[..|timers| - 1];
    if k < |Live(init, epoch)| {
      m := LiveSource(init, epoch, k);
    } else {
      m := |timers| - 1;
    }
  }

  /** The earliest timer stays the earliest among the live ones. */
  lemma LiveNext(timers: seq<Timer>, epoch: nat, j: nat)
    requires IsNext(timers, j) && timers[j].epoch == epoch
    ensures var k := |Live(timers[..j], epoch)|;
            && IsNext(Live(timers, epoch), k)
            && Live(timers, epoch)[k] == timers[j].(epoch := 0)
            && Without(Live(timers, epoch), k) == Live(Without(timers, j), epoch)
  {
    var before, after, live := Live(timers[..j], epoch), Live(timers[j + 1..], epoch), Live(timers, epoch);
    LiveAt(timers, epoch, j);
    forall n | 0 <= n < |before| ensures live[|before|].due < live[n].due {
      var m := LiveSource(timers[..j], epoch, n);
    }
    forall n | |before| < n < |live| ensures live[|before|].due <= live[n].due {
      var m := LiveSource(timers[j + 1..], epoch, n - |before| - 1);
      assert live[n] == after[n - |before| - 1];
    }
  }

  lemma FireErases(s: State, j: nat, at: nat)
    ensures Erase(ApplyFire(s, j, at)) == Apply(Erase(s), Translate(s, Fire(j, at)))
  {
    hide RunAct, Live, Absorb;
    if Enabled(s, j, at) {
      LiveAt(s.timers, s.epoch, j);
      if s.timers[j].epoch == s.epoch { LiveFireErases(s, j, at); }
    }
  }

  lemma LiveFireErases(s: State, j: nat, at: nat)
    requires Enabled(s, j, at) && s.timers[j].epoch == s.epoch
    ensures Erase(ApplyFire(s, j, at)) == ApplyFire(Erase(s), |Live(s.timers[..j], s.epoch)|, at)
  {
    hide RunAct, Live, Absorb;
    LiveNext(s.timers, s.epoch, j);
    var (b, later) := RunAct(s.book, s.timers[j].act);
    AbsorbErases(s.(now := at, timers := Without(s.timers, j)), Segment(b, later, Broke));
  }

  lemma StepErases(s: State, step: Step)
    requires !step.Reset?
    ensures Erase(Apply(s, step)) == Apply(Erase(s), Translate(s, step))
  {
    hide FirstSegment, NextSegment, Live, Absorb;
    match step
    case PostCall(cred, key, endpoint, body, crash, lost) =>
      var s1 := s.(idem := s.idem[IdemKey(cred, key) := Running(body)]);
      AbsorbErases(s1, FirstSegment(s.book, cred, endpoint, body));
      LogErases(Absorb(s1, FirstSegment(s.book, cred, endpoint, body)));
    case Advance(i) =>
      if i < |s.calls| {
        var g := NextSegment(s.book, s.calls[i]);
        AbsorbErases(s, g);
        AbsorbCalls(s, g);
        AbsorbCalls(Erase(s), g);
      }
    case Fire(j, at) => FireErases(s, j, at);
    case _ =>
  }

  lemma LogErases(s: State)
    ensures forall c :: Erase(Log(s, c)) == Log(Erase(s), c)
  {
  }

  lemma AbsorbCalls(s: State, g: Segment)
    ensures Absorb(s, g).calls == s.calls
  {
  }

  lemma {:induction false} RunErases(s: State, steps: seq<Step>)
    requires NoReset(steps)
    ensures Erase(Run(s, steps)) == Run(Erase(s), Translated(s, steps))
  {
    hide Apply, Erase, Translate;
    if steps != [] {
      var init, last := steps[..|steps| - 1], steps[|steps| - 1];
      RunErases(s, init);
      StepErases(Run(s, init), last);
      RunStep(Erase(s), Translated(s, init), Translate(Run(s, init), last));
    }
  }

  lemma {:induction false} NoneLive(timers: seq<Timer>, epoch: nat)
    requires forall j :: 0 <= j < |timers| ==> timers[j].epoch != epoch
    ensures Live(timers, epoch) == []
  {
    if timers != [] { NoneLive(timers[..|timers| - 1], epoch); }
  }

  /** Whatever happened before a reset, under whatever configurations, and whichever timers of it are still
      pending: every run after it leaves the books, the idempotency map, the calls and the clock of a run of a
      fresh simulator with the same steps, except that disowned timers are the passing of time. */
  lemma ResetIsolates(c0: Config, now: nat, before: seq<Step>, c: Config, after: seq<Step>)
    requires NoReset(after)
    requires Idle(Run(Fresh(c0, now), before))
    ensures var s := Run(Fresh(c0, now), before);
            var r := Apply(s, Reset(c));
            var t, u := Run(r, after), Run(Fresh(c, s.now), Translated(r, after));
            && t.book == u.book && t.idem == u.idem && t.calls == u.calls && t.now == u.now
            && Live(t.timers, t.epoch) == u.timers
            && (forall n :: 0 <= n < |after| && !after[n].Fire? ==> Translated(r, after)[n] == after[n])
  {
    RunKeepsGround(c0, now, before);
    hide Run, Ground, Apply, Erase, Translate;
    var s := Run(Fresh(c0, now), before);
    var r := Apply(s, Reset(c));
    ResetErases(s, c);
    RunErases(r, after);
    TranslatesRequests(r, after);
    EraseNone(Run(r, after));
  }

  lemma ResetErases(s: State, c: Config)
    requires Ground(s) && Idle(s)
    ensures Erase(Apply(s, Reset(c))) == Fresh(c, s.now)
  {
    GroundParts(s);
    hide Ground, Grounded, CallsOk;
    NoneLive(s.timers, s.epoch + 1);
  }

  lemma EraseNone(s: State)
    ensures Erase(s).book == s.book && Erase(s).idem == s.idem && Erase(s).calls == s.calls && Erase(s).now == s.now
    ensures Erase(s).timers == Live(s.timers, s.epoch)
  {
  }

  lemma {:induction false} TranslatesRequests(s: State, steps: seq<Step>)
    ensures forall n :: 0 <= n < |steps| && !steps[n].Fire? ==> Translated(s, steps)[n] == steps[n]
  {
    hide Run;
    if steps != [] { TranslatesRequests(s, steps[..|steps| - 1]); }
  }
}
