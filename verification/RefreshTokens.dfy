/** Refresh-token rotation and reuse detection (section 4.14.2 of RFC 9700): the token table, the sign-in
    service over it, and what holds over every sequence of calls that run one after the other. What holds when
    refreshes interleave is in RefreshRaces. */
module RefreshTokens {
  import opened Money
  import opened Domain

  /** One stored token. Tokens are numbered as they are issued; the random text and its hash are not
      modelled, they only make tokens distinct. */
  datatype Row = Row(user: Name, family: nat, expiresAt: nat, revokedAt: Option<nat>, replacedBy: Option<nat>)

  /** `issued` numbers the next token and the next family; `latest` is the latest time seen. */
  datatype Store = Store(rows: map<nat, Row>, issued: nat, latest: nat, active: set<Name>, lifetime: nat)

  datatype Action =
    | Login(user: Name, accepted: bool)
    | Refresh(token: nat)
    | Logout(user: Name)
    | Prune
    | SetActive(user: Name, active: bool)

  datatype Answer = Issued(token: nat) | Refused | Reused | Silent

  const Week: nat := 604800000

  /* The table */

  function Insert(s: Store, user: Name, family: nat, now: nat): Store
  {
    s.(rows := s.rows[s.issued := Row(user, family, now + s.lifetime, None, None)], issued := s.issued + 1)
  }

  function Revoked(r: Row, now: nat): Row { if r.revokedAt.None? then r.(revokedAt := Some(now)) else r }

  function RevokeFamily(rows: map<nat, Row>, family: nat, now: nat): map<nat, Row>
  {
    map t | t in rows :: if rows[t].family == family then Revoked(rows[t], now) else rows[t]
  }

  function RevokeUser(rows: map<nat, Row>, user: Name, now: nat): map<nat, Row>
  {
    map t | t in rows :: if rows[t].user == user then Revoked(rows[t], now) else rows[t]
  }

  /** Inserts the successor and retires the old token in favour of it. Nothing is checked here. */
  function Rotate(s: Store, retired: nat, now: nat): Store
    requires retired in s.rows
  {
    var r := s.rows[retired];
    var t := Insert(s, r.user, r.family, now);
    t.(rows := t.rows[retired := r.(revokedAt := Some(now), replacedBy := Some(s.issued))])
  }

  predicate Stale(r: Row, now: nat) { r.expiresAt + Week < now }

  /** Deletes long-expired rows; references to them are cleared. */
  function PruneRows(rows: map<nat, Row>, now: nat): map<nat, Row>
  {
    map t | t in rows && !Stale(rows[t], now) ::
      var r := rows[t];
      if r.replacedBy.Some? && (r.replacedBy.value !in rows || Stale(rows[r.replacedBy.value], now))
      then r.(replacedBy := None) else r
  }

  /* The service, one call at a time */

  predicate Usable(s: Store, token: nat, now: nat)
  {
    token in s.rows && s.rows[token].expiresAt >= now && s.rows[token].revokedAt.None? && s.rows[token].user in s.active
  }

  function Perform(s0: Store, a: Action, now: nat): (Store, Answer)
  {
    var s := s0.(latest := if now > s0.latest then now else s0.latest);
    match a
    case Login(user, accepted) =>
      if !accepted || user !in s.active then (s, Refused)
      else (Insert(s, user, s.issued, now), Issued(s.issued))
    case Refresh(token) =>
      if token !in s.rows || s.rows[token].expiresAt < now then (s, Refused)
      else if s.rows[token].revokedAt.Some? then (s.(rows := RevokeFamily(s.rows, s.rows[token].family, now)), Reused)
      else if s.rows[token].user !in s.active then (s, Refused)
      else (Rotate(s, token, now), Issued(s.issued))
    case Logout(user) => (s.(rows := RevokeUser(s.rows, user, now)), Silent)
    case Prune => (s.(rows := PruneRows(s.rows, now)), Silent)
    case SetActive(user, active) => (s.(active := if active then s.active + {user} else s.active - {user}), Silent)
  }

  /* The service, with refreshes that interleave at their awaits */

  /** Where a refresh stands: it has found its row and is still to read the user, it is still to rotate, or it has
      found its token revoked and is still to burn the family. It goes on with the row it found. */
  datatype Stage = Found(token: nat, row: Row) | Cleared(token: nat, row: Row) | Burning(family: nat) | Over(answer: Answer)

  datatype Race = Race(store: Store, stages: seq<Stage>)

  /** A whole call at once, the first query of a refresh, or the next query of one under way. */
  datatype Move = Whole(action: Action) | Look(token: nat) | Go(stage: nat)

  function At(s: Store, now: nat): Store { s.(latest := if now > s.latest then now else s.latest) }

  function LookUp(s: Store, token: nat, now: nat): Stage
  {
    if token !in s.rows || s.rows[token].expiresAt < now then Over(Refused)
    else if s.rows[token].revokedAt.Some? then Burning(s.rows[token].family)
    else Found(token, s.rows[token])
  }

  /** The rotation inserts the successor whatever has become of the old token, which it retires if it is still
      stored. */
  function RotateFor(s: Store, token: nat, row: Row, now: nat): Store
  {
    var t := Insert(s, row.user, row.family, now);
    if token in t.rows then
      t.(rows := t.rows[token := t.rows[token].(revokedAt := Some(now), replacedBy := Some(s.issued))])
    else t
  }

  function Take(r: Race, m: Move, now: nat): Race
  {
    var s := At(r.store, now);
    match m
    case Whole(action) => r.(store := Perform(r.store, action, now).0)
    case Look(token) => Race(s, r.stages + [LookUp(s, token, now)])
    case Go(i) =>
      if i >= |r.stages| then r.(store := s)
      else
        match r.stages[i]
        case Found(token, row) =>
          Race(s, r.stages[i := if row.user in s.active then Cleared(token, row) else Over(Refused)])
        case Cleared(token, row) => Race(RotateFor(s, token, row, now), r.stages[i := Over(Issued(s.issued))])
        case Burning(family) => Race(s.(rows := RevokeFamily(s.rows, family, now)), r.stages[i := Over(Reused)])
        case Over(_) => r.(store := s)
  }

  class AuthService {
    var rows: map<nat, Row>
    var issued: nat
    var latest: nat
    var active: set<Name>
    var stages: seq<Stage>
    const lifetime: nat

    ghost function Abs(): Store
      reads this
    {
      Store(rows, issued, latest, active, lifetime)
    }

    /** The table together with the refreshes under way. */
    ghost function Racing(): Race
      reads this
    {
      Race(Abs(), stages)
    }

    constructor (active: set<Name>, lifetime: nat)
      ensures Abs() == Store(map[], 0, 0, active, lifetime) && stages == []
    {
      rows, issued, latest, stages := map[], 0, 0, [];
      this.active, this.lifetime := active, lifetime;
    }

    method StoreToken(user: Name, family: nat, now: nat) returns (token: nat)
      modifies this`rows, this`issued
      ensures Abs() == Insert(old(Abs()), user, family, now) && token == old(issued)
    {
      token := issued;
      rows := rows[token := Row(user, family, now + lifetime, None, None)];
      issued := issued + 1;
    }

    method Login(user: Name, accepted: bool, now: nat) returns (answer: Answer)
      modifies this`rows, this`issued, this`latest
      ensures (Abs(), answer) == Perform(old(Abs()), Action.Login(user, accepted), now)
    {
      if now > latest { latest := now; }
      if !accepted || user !in active { return Refused; }
      var token := StoreToken(user, issued, now);
      return Issued(token);
    }

    /** Looks the token up, detects reuse, and otherwise rotates. */
    method Refresh(token: nat, now: nat) returns (answer: Answer)
      modifies this`rows, this`issued, this`latest
      ensures (Abs(), answer) == Perform(old(Abs()), Action.Refresh(token), now)
    {
      if now > latest { latest := now; }
      if token !in rows || rows[token].expiresAt < now { return Refused; }
      var stored := rows[token];
      if stored.revokedAt.Some? {
        rows := RevokeFamily(rows, stored.family, now);
        return Reused;
      }
      if stored.user !in active { return Refused; }
      var next := StoreToken(stored.user, stored.family, now);
      rows := rows[token := stored.(revokedAt := Some(now), replacedBy := Some(next))];
      return Issued(next);
    }

    /** The first query of a refresh. */
    method Look(token: nat, now: nat)
      modifies this`latest, this`stages
      ensures Racing() == Take(old(Racing()), Move.Look(token), now)
    {
      if now > latest { latest := now; }
      if token !in rows || rows[token].expiresAt < now { stages := stages + [Over(Refused)]; }
      else if rows[token].revokedAt.Some? { stages := stages + [Burning(rows[token].family)]; }
      else { stages := stages + [Found(token, rows[token])]; }
    }

    /** The next query of a refresh under way. */
    method Go(i: nat, now: nat)
      modifies this`rows, this`issued, this`latest, this`stages
      ensures Racing() == Take(old(Racing()), Move.Go(i), now)
    {
      if now > latest { latest := now; }
      if i >= |stages| { return; }
      match stages[i] {
        case Found(token, row) =>
          stages := stages[i := if row.user in active then Cleared(token, row) else Over(Refused)];
        case Cleared(token, row) =>
          var next := StoreToken(row.user, row.family, now);
          if token in rows {
            rows := rows[token := rows[token].(revokedAt := Some(now), replacedBy := Some(next))];
          }
          stages := stages[i := Over(Issued(next))];
        case Burning(family) =>
          rows := RevokeFamily(rows, family, now);
          stages := stages[i := Over(Reused)];
        case Over(_) =>
      }
    }

    method Logout(user: Name, now: nat)
      modifies this`rows, this`issued, this`latest
      ensures (Abs(), Silent) == Perform(old(Abs()), Action.Logout(user), now)
    {
      if now > latest { latest := now; }
      rows := RevokeUser(rows, user, now);
    }

    method PruneExpired(now: nat)
      modifies this`rows, this`issued, this`latest
      ensures (Abs(), Silent) == Perform(old(Abs()), Action.Prune, now)
    {
      if now > latest { latest := now; }
      rows := PruneRows(rows, now);
    }
  }

  /* The invariant */

  predicate InFamily(s: Store, t: nat, f: nat) { t in s.rows && s.rows[t].family == f }

  /** A token is superseded by the next one of its family, or it is the family's last; only the last can be
      unrevoked. */
  ghost predicate ChainedAt(s: Store, t: nat)
    requires t in s.rows
  {
    var r := s.rows[t];
    match r.replacedBy
    case Some(u) =>
      && t < u && InFamily(s, u, r.family) && s.rows[u].user == r.user && r.revokedAt.Some?
      && (forall v :: v in s.rows && t < v < u ==> s.rows[v].family != r.family)
    case None => forall v :: v in s.rows && v > t ==> s.rows[v].family != r.family
  }

  ghost predicate Chained(s: Store) { forall t :: t in s.rows ==> ChainedAt(s, t) }

  /** Numbers are drawn in order, later tokens expire no sooner, and a family belongs to one user. */
  ghost predicate Numbered(s: Store)
  {
    && (forall t :: t in s.rows ==> t < s.issued && s.rows[t].family < s.issued)
    && (forall t :: t in s.rows ==> s.rows[t].expiresAt <= s.latest + s.lifetime)
    && (forall t, u :: t in s.rows && u in s.rows && t < u ==> s.rows[t].expiresAt <= s.rows[u].expiresAt)
    && (forall t, u :: t in s.rows && u in s.rows && s.rows[t].family == s.rows[u].family ==> s.rows[t].user == s.rows[u].user)
  }

  ghost predicate Ok(s: Store) { Numbered(s) && Chained(s) }

  lemma InsertKeeps(s: Store, user: Name, now: nat)
    requires Ok(s) && now >= s.latest
    ensures Ok(Insert(s.(latest := now), user, s.issued, now))
  {
    var u := Insert(s.(latest := now), user, s.issued, now);
    InsertNumbered(s, user, now);
    hide ChainedAt, Numbered;
    assert Ok(s.(latest := now)) by { LaterOk(s, now); }
    forall t | t in u.rows ensures ChainedAt(u, t) {
      InsertedChain(s.(latest := now), user, s.issued, now, t);
    }
  }

  lemma InsertNumbered(s: Store, user: Name, now: nat)
    requires Numbered(s) && now >= s.latest
    ensures Numbered(Insert(s.(latest := now), user, s.issued, now))
  {
  }

  lemma LaterOk(s: Store, now: nat)
    requires Ok(s) && now >= s.latest
    ensures Ok(s.(latest := now))
  {
    forall t | t in s.rows ensures ChainedAt(s.(latest := now), t) { assert ChainedAt(s, t); }
  }

  lemma InsertedChain(s: Store, user: Name, family: nat, now: nat, t: nat)
    requires Ok(s) && family == s.issued && (t in s.rows || t == s.issued)
    ensures ChainedAt(Insert(s, user, family, now), t)
  {
    if t != s.issued { assert ChainedAt(s, t); }
  }

  lemma RotateKeeps(s: Store, token: nat, now: nat)
    requires Ok(s) && now >= s.latest && token in s.rows && s.rows[token].revokedAt.None?
    ensures Ok(Rotate(s.(latest := now), token, now))
  {
    RotateNumbers(s, token, now);
    hide Numbered;
    var u := Rotate(s.(latest := now), token, now);
    forall t | t in u.rows ensures ChainedAt(u, t) { RotateChains(s, token, now, t); }
  }

  lemma RotateNumbers(s: Store, token: nat, now: nat)
    requires Numbered(s) && now >= s.latest && token in s.rows
    ensures Numbered(Rotate(s.(latest := now), token, now))
  {
    var r := s.rows[token];
    NumberedNext(s.(latest := now), r.user, r.family, now);
    var u := Insert(s.(latest := now), r.user, r.family, now);
    NumberedUpdate(u, token, r.(revokedAt := Some(now), replacedBy := Some(s.issued)));
    hide Numbered;
  }

  /** A token added to an existing family. */
  lemma NumberedNext(s: Store, user: Name, family: nat, now: nat)
    requires Numbered(s) && now == s.latest && family < s.issued
    requires forall t :: t in s.rows && s.rows[t].family == family ==> s.rows[t].user == user
    ensures Numbered(Insert(s, user, family, now))
  {
  }

  /** A row whose standing alone changes. */
  lemma NumberedUpdate(s: Store, t: nat, r: Row)
    requires Numbered(s) && t in s.rows
    requires r.user == s.rows[t].user && r.family == s.rows[t].family && r.expiresAt == s.rows[t].expiresAt
    ensures Numbered(s.(rows := s.rows[t := r]))
  {
  }

  lemma RotateChains(s: Store, token: nat, now: nat, t: nat)
    requires Ok(s) && now >= s.latest && token in s.rows && s.rows[token].revokedAt.None?
    requires t in Rotate(s.(latest := now), token, now).rows
    ensures ChainedAt(Rotate(s.(latest := now), token, now), t)
  {
    assert ChainedAt(s, token);
    if t == token {
    } else if t == s.issued {
    } else {
      assert ChainedAt(s, t);
    }
  }

  /** Rows changed in nothing but being revoked. */
  predicate OnlyRevoked(rows: map<nat, Row>, more: map<nat, Row>)
  {
    && more.Keys == rows.Keys
    && forall t :: t in rows ==>
         more[t] == rows[t] || (rows[t].revokedAt.None? && more[t].revokedAt.Some? && more[t] == rows[t].(revokedAt := more[t].revokedAt))
  }

  lemma RevokingKeeps(s: Store, rows: map<nat, Row>, now: nat)
    requires Ok(s) && now >= s.latest && OnlyRevoked(s.rows, rows)
    ensures Ok(s.(latest := now, rows := rows))
  {
    var u := s.(latest := now, rows := rows);
    RevokingNumbers(s, rows, now);
    hide Numbered;
    forall t | t in u.rows ensures ChainedAt(u, t) { assert ChainedAt(s, t); }
  }

  lemma RevokingNumbers(s: Store, rows: map<nat, Row>, now: nat)
    requires Numbered(s) && now >= s.latest && OnlyRevoked(s.rows, rows)
    ensures Numbered(s.(latest := now, rows := rows))
  {
    assert forall t :: t in rows ==> t in s.rows && rows[t] == s.rows[t].(revokedAt := rows[t].revokedAt);
    hide OnlyRevoked;
  }

  lemma PruneKeeps(s: Store, now: nat)
    requires Ok(s) && now >= s.latest
    ensures Ok(s.(latest := now, rows := PruneRows(s.rows, now)))
  {
    var u := s.(latest := now, rows := PruneRows(s.rows, now));
    PruneNumbers(s, now);
    forall t | t in u.rows ensures ChainedAt(u, t) { PruneChains(s, now, t); }
    hide PruneRows, Numbered;
  }

  lemma PruneNumbers(s: Store, now: nat)
    requires Numbered(s) && now >= s.latest
    ensures Numbered(s.(latest := now, rows := PruneRows(s.rows, now)))
  {
    var rows := PruneRows(s.rows, now);
    assert forall t :: t in rows ==> t in s.rows && rows[t] == s.rows[t].(replacedBy := rows[t].replacedBy);
    hide PruneRows;
  }

  lemma PruneChains(s: Store, now: nat, t: nat)
    requires Ok(s) && now >= s.latest && t in PruneRows(s.rows, now)
    ensures ChainedAt(s.(latest := now, rows := PruneRows(s.rows, now)), t)
  {
    assert ChainedAt(s, t);
  }

  /** Every call keeps the chains, as long as the clock does not run backwards. */
  lemma ActKeeps(s: Store, a: Action, now: nat)
    requires Ok(s) && now >= s.latest
    ensures Ok(Perform(s, a, now).0)
  {
    hide Ok, Rotate, Insert, RevokeFamily, RevokeUser, PruneRows;
    RevokingKeeps(s, s.rows, now);
    match a
    case Login(user, accepted) => InsertKeeps(s, user, now);
    case Refresh(token) =>
      if token in s.rows {
        FamilyRevoked(s.rows, s.rows[token].family, now);
        RevokingKeeps(s, RevokeFamily(s.rows, s.rows[token].family, now), now);
        if s.rows[token].revokedAt.None? { RotateKeeps(s, token, now); }
      }
    case Logout(user) =>
      UserRevoked(s.rows, user, now);
      RevokingKeeps(s, RevokeUser(s.rows, user, now), now);
    case Prune => PruneKeeps(s, now);
    case SetActive(user, active) => ActivityKeeps(s.(latest := now), if active then s.active + {user} else s.active - {user});
  }

  lemma FamilyRevoked(rows: map<nat, Row>, family: nat, now: nat)
    ensures OnlyRevoked(rows, RevokeFamily(rows, family, now))
  {
  }

  lemma UserRevoked(rows: map<nat, Row>, user: Name, now: nat)
    ensures OnlyRevoked(rows, RevokeUser(rows, user, now))
  {
  }

  lemma ActivityKeeps(s: Store, active: set<Name>)
    requires Ok(s)
    ensures Ok(s.(active := active))
  {
    forall t | t in s.rows ensures ChainedAt(s.(active := active), t) { assert ChainedAt(s, t); }
  }

  /* Runs */

  datatype Call = Call(action: Action, now: nat)

  function RunAll(s: Store, calls: seq<Call>): Store
  {
    if calls == [] then s
    else
      var last := calls[|calls| - 1];
      Perform(RunAll(s, calls[..|calls| - 1]), last.action, last.now).0
  }

  predicate ClockOk(s: Store, calls: seq<Call>)
  {
    && (forall i, j :: 0 <= i < j < |calls| ==> calls[i].now <= calls[j].now)
    && (forall i :: 0 <= i < |calls| ==> calls[i].now >= s.latest)
  }

  lemma {:induction false} RunKeepsChains(s: Store, calls: seq<Call>)
    requires Ok(s) && ClockOk(s, calls)
    ensures var t := RunAll(s, calls);
            Ok(t) && t.latest == if calls == [] then s.latest else calls[|calls| - 1].now
  {
    hide Ok;
    if calls != [] {
      RunKeepsChains(s, calls[..|calls| - 1]);
      ActKeeps(RunAll(s, calls[..|calls| - 1]), calls[|calls| - 1].action, calls[|calls| - 1].now);
    }
  }

  /** From an empty table, in every sequence of calls: a family never has two unrevoked tokens, and a
      superseded token leads to the very next token of its family and user. */
  lemma OneLiveTokenPerFamily(active: set<Name>, lifetime: nat, calls: seq<Call>, t: nat, u: nat)
    requires ClockOk(Store(map[], 0, 0, active, lifetime), calls)
    requires var s := RunAll(Store(map[], 0, 0, active, lifetime), calls);
             t in s.rows && u in s.rows && s.rows[t].family == s.rows[u].family && t < u
    ensures var s := RunAll(Store(map[], 0, 0, active, lifetime), calls);
            && s.rows[t].revokedAt.Some? && s.rows[t].replacedBy.Some?
            && t < s.rows[t].replacedBy.value <= u
            && InFamily(s, s.rows[t].replacedBy.value, s.rows[t].family)
  {
    RunKeepsChains(Store(map[], 0, 0, active, lifetime), calls);
    hide RunAll;
    assert ChainedAt(RunAll(Store(map[], 0, 0, active, lifetime), calls), t);
  }

  /* Reuse */

  /** No token of the family can be used again. */
  ghost predicate Dead(s: Store, f: nat)
  {
    f < s.issued && forall t :: t in s.rows && s.rows[t].family == f ==> s.rows[t].revokedAt.Some?
  }

  /** Presenting a revoked token that has not expired burns its family. */
  lemma ReuseKills(s: Store, token: nat, now: nat)
    requires Ok(s) && token in s.rows && s.rows[token].expiresAt >= now && s.rows[token].revokedAt.Some?
    ensures var (t, answer) := Perform(s, Refresh(token), now);
            answer == Reused && Dead(t, s.rows[token].family)
  {
  }

  /** Signing out burns every family of the user. */
  lemma LogoutKills(s: Store, user: Name, token: nat, now: nat)
    requires Ok(s) && token in s.rows && s.rows[token].user == user
    ensures Dead(Perform(s, Logout(user), now).0, s.rows[token].family)
  {
  }

  lemma DeadStays(s: Store, a: Action, now: nat, f: nat)
    requires Dead(s, f)
    ensures var (t, answer) := Perform(s, a, now);
            && Dead(t, f) && (forall k :: k in t.rows && k !in s.rows ==> t.rows[k].family != f)
            && (answer.Issued? ==> answer.token in t.rows && t.rows[answer.token].family != f)
  {
    var (t, answer) := Perform(s, a, now);
  }

  /** Whether some call of a run issued a token of the family. */
  ghost predicate Issues(s: Store, calls: seq<Call>, f: nat)
  {
    exists n :: 0 <= n < |calls| && IssuesAt(s, calls, n, f)
  }

  predicate IssuesAt(s: Store, calls: seq<Call>, n: nat, f: nat)
    requires n < |calls|
  {
    var (t, answer) := Perform(RunAll(s, calls[..n]), calls[n].action, calls[n].now);
    answer.Issued? && answer.token in t.rows && t.rows[answer.token].family == f
  }

  /** Once a revoked, unexpired token has been presented, no continuation whatever issues a token of its
      family again. */
  lemma BurntForever(s: Store, token: nat, now: nat, calls: seq<Call>)
    requires Ok(s) && token in s.rows && s.rows[token].expiresAt >= now && s.rows[token].revokedAt.Some?
    ensures !Issues(Perform(s, Refresh(token), now).0, calls, s.rows[token].family)
  {
    ReuseKills(s, token, now);
    hide Dead, Ok, Perform, RunAll;
    var t := Perform(s, Refresh(token), now).0;
    forall n | 0 <= n < |calls| ensures !IssuesAt(t, calls, n, s.rows[token].family) {
      DeadRuns(t, calls[..n], s.rows[token].family);
      DeadStays(RunAll(t, calls[..n]), calls[n].action, calls[n].now, s.rows[token].family);
    }
  }

  lemma {:induction false} DeadRuns(s: Store, calls: seq<Call>, f: nat)
    requires Dead(s, f)
    ensures Dead(RunAll(s, calls), f)
  {
    hide Dead, Perform;
    if calls != [] {
      DeadRuns(s, calls[..|calls| - 1], f);
      DeadStays(RunAll(s, calls[..|calls| - 1]), calls[|calls| - 1].action, calls[|calls| - 1].now, f);
    }
  }

  /** A refresh issues a token exactly for a stored, unexpired, unrevoked token of an active user; the old
      token is then dead and the new one takes its place in the family. */
  lemma RefreshExactly(s: Store, token: nat, now: nat)
    requires Ok(s) && now >= s.latest
    ensures var (t, answer) := Perform(s, Refresh(token), now);
            && (answer.Issued? <==> Usable(s, token, now))
            && (answer.Issued? ==>
                  && Usable(t, answer.token, now) && !Usable(t, token, now)
                  && t.rows[token].replacedBy == Some(answer.token)
                  && t.rows[answer.token].family == s.rows[token].family)
  {
  }
}
