/** Refreshes that interleave at their awaited queries. A rotation goes by the row its refresh looked up and
    checks nothing again, so two refreshes of one token can leave two live tokens, and one that was under way
    when its family was burnt revives it. The lemmas give the exact conditions, step by step and over runs. */
module RefreshRaces {
  import opened Money
  import opened Domain
  import opened RefreshTokens

  /* Runs of interleaved calls */

  datatype Timed = Timed(move: Move, now: nat)

  function TakeAll(r: Race, moves: seq<Timed>): Race
  {
    if moves == [] then r
    else
      var last := moves[|moves| - 1];
      Take(TakeAll(r, moves[..|moves| - 1]), last.move, last.now)
  }

  lemma TakeNext(r: Race, moves: seq<Timed>, m: Timed)
    ensures TakeAll(r, moves + [m]) == Take(TakeAll(r, moves), m.move, m.now)
  {
    assert (moves + [m])[..|moves|] == moves;
  }

  function Empty(active: set<Name>, lifetime: nat): Race { Race(Store(map[], 0, 0, active, lifetime), []) }

  /** Tokens and families are numbered in the order they are drawn, also those a refresh still goes by. */
  ghost predicate Tracked(r: Race)
  {
    && (forall t :: t in r.store.rows ==> t < r.store.issued && r.store.rows[t].family < r.store.issued)
    && (forall i :: 0 <= i < |r.stages| && Rotating(r.stages[i]) ==>
          r.stages[i].token < r.store.issued && r.stages[i].row.family < r.store.issued)
  }

  /** The refresh has found a usable token and is on its way to rotating it. */
  predicate Rotating(g: Stage) { g.Found? || g.Cleared? }

  lemma TakeTracked(r: Race, m: Move, now: nat)
    requires Tracked(r)
    ensures Tracked(Take(r, m, now)) && r.store.issued <= Take(r, m, now).store.issued
  {
    match m
    case Whole(a) => PerformTracked(r.store, a, now);
    case Look(_) =>
    case Go(i) =>
  }

  lemma PerformTracked(s: Store, a: Action, now: nat)
    requires forall t :: t in s.rows ==> t < s.issued && s.rows[t].family < s.issued
    ensures var t := Perform(s, a, now).0;
            s.issued <= t.issued && forall k :: k in t.rows ==> k < t.issued && t.rows[k].family < t.issued
  {
  }

  lemma {:induction false} TakeAllTracked(r: Race, moves: seq<Timed>)
    requires Tracked(r)
    ensures Tracked(TakeAll(r, moves))
  {
    hide Tracked, Take;
    if moves != [] {
      var last := moves[|moves| - 1];
      TakeAllTracked(r, moves[..|moves| - 1]);
      TakeTracked(TakeAll(r, moves[..|moves| - 1]), last.move, last.now);
    }
  }

  /** A refresh that nothing interrupts does what the whole call does. */
  lemma UndisturbedIsWhole(r: Race, token: nat, now: nat)
    requires Tracked(r)
    ensures var n := |r.stages|;
            var (s, answer) := Perform(r.store, Refresh(token), now);
            Take(Take(Take(r, Look(token), now), Go(n), now), Go(n), now) == Race(s, r.stages + [Over(answer)])
  {
    var n := |r.stages|;
    var r1 := Take(r, Look(token), now);
    assert r1.stages[n] == LookUp(At(r.store, now), token, now);
    var r2 := Take(r1, Go(n), now);
    assert At(r1.store, now) == r1.store && At(r2.store, now) == r2.store;
    match r1.stages[n]
    case Found(_, _) => assert r2.stages[n] == if r1.stages[n].row.user in r1.store.active then Cleared(token, r1.stages[n].row) else Over(Refused);
    case Burning(_) => assert r2.stages[n] == Over(Reused);
    case _ =>
  }

  /* Live tokens */

  predicate IsLive(s: Store, t: nat) { t in s.rows && s.rows[t].revokedAt.None? }

  /** No family has two live tokens. */
  ghost predicate AtMostOne(s: Store)
  {
    forall t, u :: IsLive(s, t) && IsLive(s, u) && s.rows[t].family == s.rows[u].family ==> t == u
  }

  /** The move rotates a token while another of its family is live. */
  ghost predicate Forks(r: Race, m: Move)
  {
    && m.Go? && m.stage < |r.stages| && r.stages[m.stage].Cleared?
    && Beside(r.store, r.stages[m.stage].token, r.stages[m.stage].row.family)
  }

  /** Another token of the family is live. */
  ghost predicate Beside(s: Store, token: nat, family: nat)
  {
    exists t :: t != token && IsLive(s, t) && s.rows[t].family == family
  }

  /** A rotation leaves its family one live token, the one it issues, exactly if every other token of the family
      was revoked already. */
  lemma RotatesExactly(r: Race, i: nat, now: nat)
    requires Tracked(r) && i < |r.stages| && r.stages[i].Cleared?
    ensures var (n, s, f) := (r.store.issued, Take(r, Go(i), now).store, r.stages[i].row.family);
            && InFamily(s, n, f) && IsLive(s, n)
            && ((forall t :: IsLive(s, t) && s.rows[t].family == f ==> t == n) <==> !Beside(r.store, r.stages[i].token, f))
  {
    var n, s, g := r.store.issued, Take(r, Go(i), now).store, r.stages[i];
    assert IsLive(s, n) && s.rows[n].family == g.row.family;
    assert forall t :: IsLive(s, t) && t != n <==> IsLive(r.store, t) && t != g.token;
    if Beside(r.store, g.token, g.row.family) {
      var t :| t != g.token && IsLive(r.store, t) && r.store.rows[t].family == g.row.family;
      assert IsLive(s, t) && s.rows[t].family == g.row.family && t != n;
    }
  }

  lemma WholeKeepsOne(s: Store, a: Action, now: nat)
    requires AtMostOne(s) && forall t :: t in s.rows ==> t < s.issued && s.rows[t].family < s.issued
    ensures AtMostOne(Perform(s, a, now).0)
  {
    var u := Perform(s, a, now).0;
    forall x, y | IsLive(u, x) && IsLive(u, y) && u.rows[x].family == u.rows[y].family ensures x == y {
      assert x in s.rows ==> IsLive(s, x) && s.rows[x].family == u.rows[x].family;
      assert y in s.rows ==> IsLive(s, y) && s.rows[y].family == u.rows[y].family;
    }
  }

  /** A move leaves some family two live tokens exactly if it rotates a token beside a live one. */
  lemma ForksExactly(r: Race, m: Move, now: nat)
    requires Tracked(r) && AtMostOne(r.store)
    ensures AtMostOne(Take(r, m, now).store) <==> !Forks(r, m)
  {
    match m
    case Whole(a) => WholeKeepsOne(r.store, a, now);
    case Look(_) => SameLive(r.store, At(r.store, now));
    case Go(i) =>
      if i < |r.stages| && r.stages[i].Cleared? {
        RotationForks(r, i, now);
      } else {
        SameLive(r.store, At(r.store, now));
        if i < |r.stages| && r.stages[i].Burning? { BurningKeepsOne(At(r.store, now), r.stages[i].family, now); }
      }
  }

  lemma SameLive(s: Store, u: Store)
    requires u.rows == s.rows
    ensures AtMostOne(u) <==> AtMostOne(s)
  {
    forall t ensures IsLive(u, t) <==> IsLive(s, t) { }
  }

  lemma BurningKeepsOne(s: Store, family: nat, now: nat)
    requires AtMostOne(s)
    ensures AtMostOne(s.(rows := RevokeFamily(s.rows, family, now)))
  {
    var u := s.(rows := RevokeFamily(s.rows, family, now));
    forall t | IsLive(u, t) ensures IsLive(s, t) && s.rows[t].family == u.rows[t].family { }
  }

  lemma RotationForks(r: Race, i: nat, now: nat)
    requires Tracked(r) && AtMostOne(r.store) && i < |r.stages| && r.stages[i].Cleared?
    ensures AtMostOne(Take(r, Go(i), now).store) <==> !Beside(r.store, r.stages[i].token, r.stages[i].row.family)
  {
    RotatesExactly(r, i, now);
    var n, s, g := r.store.issued, Take(r, Go(i), now).store, r.stages[i];
    forall t | IsLive(s, t) && t != n ensures IsLive(r.store, t) && r.store.rows[t].family == s.rows[t].family { }
    hide Take, Tracked, Beside;
    if !Beside(r.store, g.token, g.row.family) {
      forall t, u | IsLive(s, t) && IsLive(s, u) && s.rows[t].family == s.rows[u].family ensures t == u { }
    }
  }

  /** In every run, however refreshes interleave: no family ever has two live tokens, exactly if no rotation runs
      beside a live token of its family. */
  lemma NeverForksExactly(active: set<Name>, lifetime: nat, moves: seq<Timed>)
    ensures (forall n :: 0 <= n <= |moves| ==> AtMostOne(TakeAll(Empty(active, lifetime), moves[..n]).store)) <==>
            (forall n :: 0 <= n < |moves| ==> !Forks(TakeAll(Empty(active, lifetime), moves[..n]), moves[n].move))
  {
    var r := Empty(active, lifetime);
    if forall n :: 0 <= n <= |moves| ==> AtMostOne(TakeAll(r, moves[..n]).store) {
      forall n | 0 <= n < |moves| ensures !Forks(TakeAll(r, moves[..n]), moves[n].move) {
        assert AtMostOne(TakeAll(r, moves[..n]).store) && AtMostOne(TakeAll(r, moves[..n + 1]).store);
        ForksAt(r, moves, n);
      }
    }
    if forall n :: 0 <= n < |moves| ==> !Forks(TakeAll(r, moves[..n]), moves[n].move) {
      forall n | 0 <= n <= |moves| ensures AtMostOne(TakeAll(r, moves[..n]).store) { UnforkedStays(r, moves, n); }
    }
  }

  lemma ForksAt(r: Race, moves: seq<Timed>, n: nat)
    requires Tracked(r) && n < |moves| && AtMostOne(TakeAll(r, moves[..n]).store)
    ensures AtMostOne(TakeAll(r, moves[..n + 1]).store) <==> !Forks(TakeAll(r, moves[..n]), moves[n].move)
  {
    hide Tracked, AtMostOne, Forks, Take;
    TakeAllTracked(r, moves[..n]);
    assert moves[..n + 1] == moves[..n] + [moves[n]];
    TakeNext(r, moves[..n], moves[n]);
    ForksExactly(TakeAll(r, moves[..n]), moves[n].move, moves[n].now);
  }

  lemma {:induction false} UnforkedStays(r: Race, moves: seq<Timed>, n: nat)
    requires Tracked(r) && AtMostOne(r.store) && n <= |moves|
    requires forall k :: 0 <= k < |moves| ==> !Forks(TakeAll(r, moves[..k]), moves[k].move)
    ensures AtMostOne(TakeAll(r, moves[..n]).store)
  {
    hide Tracked, AtMostOne, Forks, Take;
    if n > 0 {
      UnforkedStays(r, moves, n - 1);
      ForksAt(r, moves, n - 1);
    }
  }

  /* Burnt families */

  /** A refresh of the family is on its way to rotating. */
  ghost predicate Threatened(r: Race, f: nat)
  {
    exists i :: 0 <= i < |r.stages| && Rotating(r.stages[i]) && r.stages[i].row.family == f
  }

  lemma DeadHolds(r: Race, m: Move, now: nat, f: nat)
    requires Dead(r.store, f) && !Threatened(r, f)
    ensures Dead(Take(r, m, now).store, f) && !Threatened(Take(r, m, now), f)
  {
    match m
    case Whole(a) => DeadStays(r.store, a, now, f);
    case Look(_) =>
    case Go(i) =>
  }

  lemma {:induction false} DeadHoldsOn(r: Race, moves: seq<Timed>, f: nat)
    requires Dead(r.store, f) && !Threatened(r, f)
    ensures Dead(TakeAll(r, moves).store, f) && !Threatened(TakeAll(r, moves), f)
  {
    hide Dead, Threatened, Take;
    if moves != [] {
      var last := moves[|moves| - 1];
      DeadHoldsOn(r, moves[..|moves| - 1], f);
      DeadHolds(TakeAll(r, moves[..|moves| - 1]), last.move, last.now, f);
    }
  }

  /** A refresh on its way ends with a live token of its family, once its user is active. */
  lemma RevivedBy(r: Race, i: nat) returns (moves: seq<Timed>)
    requires Tracked(r) && i < |r.stages| && Rotating(r.stages[i])
    ensures !Dead(TakeAll(r, moves).store, r.stages[i].row.family)
  {
    var now, g := r.store.latest, r.stages[i];
    if g.Cleared? {
      moves := [] + [Timed(Go(i), now)];
      hide *;
      TakeNext(r, [], Timed(Go(i), now));
      TakeNone(r);
      Rotated(r, i, now);
    } else {
      var m1, m2 := Timed(Whole(SetActive(g.row.user, true)), now), Timed(Go(i), now);
      moves := [] + [m1] + [m2] + [m2];
      var r2 := ClearedUp(r, i, now);
      hide *;
      TakeNext(r, [], m1);
      TakeNext(r, [] + [m1], m2);
      TakeNext(r, [] + [m1] + [m2], m2);
      TakeNone(r);
      Rotated(r2, i, now);
    }
  }

  lemma TakeNone(r: Race)
    ensures TakeAll(r, []) == r
  {
  }

  /** A user made active lets the refresh through to its rotation. */
  lemma ClearedUp(r: Race, i: nat, now: nat) returns (u: Race)
    requires Tracked(r) && i < |r.stages| && r.stages[i].Found?
    ensures u == Take(Take(r, Whole(SetActive(r.stages[i].row.user, true)), now), Go(i), now) && Tracked(u)
    ensures i < |u.stages| && u.stages[i] == Cleared(r.stages[i].token, r.stages[i].row)
  {
    var m := Whole(SetActive(r.stages[i].row.user, true));
    TakeTracked(r, m, now);
    TakeTracked(Take(r, m, now), Go(i), now);
    hide Tracked;
    u := Take(Take(r, m, now), Go(i), now);
  }

  lemma Rotated(r: Race, i: nat, now: nat)
    requires Tracked(r) && i < |r.stages| && r.stages[i].Cleared?
    ensures !Dead(Take(r, Go(i), now).store, r.stages[i].row.family)
  {
    var s := Take(r, Go(i), now).store;
    assert r.store.issued in s.rows && s.rows[r.store.issued].family == r.stages[i].row.family;
  }

  /** A burnt family stays dead through every continuation, whatever else is under way, exactly if no refresh of
      it is on its way to rotating. */
  lemma DeadForGoodExactly(r: Race, f: nat)
    requires Tracked(r) && Dead(r.store, f)
    ensures (forall moves :: Dead(TakeAll(r, moves).store, f)) <==> !Threatened(r, f)
  {
    if Threatened(r, f) {
      var i :| 0 <= i < |r.stages| && Rotating(r.stages[i]) && r.stages[i].row.family == f;
      var moves := RevivedBy(r, i);
      assert !Dead(TakeAll(r, moves).store, f);
    } else {
      forall moves ensures Dead(TakeAll(r, moves).store, f) { DeadHoldsOn(r, moves, f); }
    }
  }

  /* Runs from an empty table */

  /** One sign-in, and two refreshes of its token that both read it before either rotates it. */
  function Racing(user: Name): seq<Timed>
  {
    [] + [Timed(Whole(Login(user, true)), 0)] + [Timed(Look(0), 0)] + [Timed(Look(0), 0)]
      + [Timed(Go(0), 0)] + [Timed(Go(1), 0)] + [Timed(Go(0), 0)] + [Timed(Go(1), 0)]
  }

  /** Both are answered with a token, both tokens are live, and the reuse went unnoticed. */
  lemma TwoLiveTokens(user: Name, lifetime: nat)
    ensures var r := TakeAll(Empty({user}, lifetime), Racing(user));
            && r.stages == [Over(Issued(1)), Over(Issued(2))]
            && IsLive(r.store, 1) && IsLive(r.store, 2) && InFamily(r.store, 1, 0) && InFamily(r.store, 2, 0)
            && !AtMostOne(r.store)
  {
    var r0 := Empty({user}, lifetime);
    var m := [] + [Timed(Whole(Login(user, true)), 0)] + [Timed(Look(0), 0)] + [Timed(Look(0), 0)];
    BothLookUp(user, lifetime);
    TakeNext(r0, m, Timed(Go(0), 0));
    TakeNext(r0, m + [Timed(Go(0), 0)], Timed(Go(1), 0));
    TakeNext(r0, m + [Timed(Go(0), 0)] + [Timed(Go(1), 0)], Timed(Go(0), 0));
    TakeNext(r0, m + [Timed(Go(0), 0)] + [Timed(Go(1), 0)] + [Timed(Go(0), 0)], Timed(Go(1), 0));
    hide TakeAll;
    var r := TakeAll(r0, Racing(user));
    assert IsLive(r.store, 1) && IsLive(r.store, 2);
  }

  lemma BothLookUp(user: Name, lifetime: nat)
    ensures var row := Row(user, 0, lifetime, None, None);
            var moves := [] + [Timed(Whole(Login(user, true)), 0)] + [Timed(Look(0), 0)] + [Timed(Look(0), 0)];
            TakeAll(Empty({user}, lifetime), moves) ==
            Race(Store(map[0 := row], 1, 0, {user}, lifetime), [Found(0, row), Found(0, row)])
  {
    var r0 := Empty({user}, lifetime);
    var m1, m2 := Timed(Whole(Login(user, true)), 0), Timed(Look(0), 0);
    TakeNext(r0, [], m1);
    TakeNext(r0, [] + [m1], m2);
    TakeNext(r0, [] + [m1] + [m2], m2);
  }

  /** One sign-in and a refresh held up before its rotation, while its token is refreshed and then presented once
      more. */
  function Reviving(user: Name): seq<Timed>
  {
    [] + [Timed(Whole(Login(user, true)), 0)] + [Timed(Look(0), 0)] + [Timed(Go(0), 0)]
      + [Timed(Whole(Refresh(0)), 0)] + [Timed(Whole(Refresh(0)), 0)]
  }

  /** The reuse burns the family, and the rotation held up gives it a live token again. */
  lemma BurntFamilyRevives(user: Name, lifetime: nat)
    ensures var r := TakeAll(Empty({user}, lifetime), Reviving(user));
            var u := TakeAll(Empty({user}, lifetime), Reviving(user) + [Timed(Go(0), 0)]);
            && Dead(r.store, 0) && Threatened(r, 0)
            && !Dead(u.store, 0) && IsLive(u.store, 2) && InFamily(u.store, 2, 0) && u.stages == [Over(Issued(2))]
  {
    var r0 := Empty({user}, lifetime);
    var m1, m2, m3, m4 := Timed(Whole(Login(user, true)), 0), Timed(Look(0), 0), Timed(Go(0), 0), Timed(Whole(Refresh(0)), 0);
    TakeNext(r0, [], m1);
    TakeNext(r0, [] + [m1], m2);
    TakeNext(r0, [] + [m1] + [m2], m3);
    TakeNext(r0, [] + [m1] + [m2] + [m3], m4);
    TakeNext(r0, [] + [m1] + [m2] + [m3] + [m4], m4);
    TakeNext(r0, Reviving(user), m3);
    hide TakeAll;
    var r := TakeAll(r0, Reviving(user));
    assert Rotating(r.stages[0]);
    assert IsLive(TakeAll(r0, Reviving(user) + [m3]).store, 2);
  }
}
