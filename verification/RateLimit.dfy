/** The token bucket of each rate-limit key: how many requests a window can let through, and whether the
    advertised waiting time suffices. Tokens are reals; the clock counts milliseconds. */
module RateLimit {
  import opened Money
  import opened Domain

  datatype Bucket = Bucket(tokens: real, at: int)

  datatype Verdict = Accepted | Limited(retryAfter: int)

  datatype Request = Request(key: Name, at: int)

  function Least(x: real, y: real): real { if x <= y then x else y }

  function Ceiling(x: real): int { 0 - (0.0 - x).Floor }

  function Most(x: int, y: int): int { if x >= y then x else y }

  function BucketOf(buckets: map<Name, Bucket>, rps: real, q: Request): Bucket
  {
    if q.key in buckets then buckets[q.key] else Bucket(rps, q.at)
  }

  /** The tokens there are when a request comes. */
  function Refilled(b: Bucket, rps: real, at: int): real
  {
    Least(rps, b.tokens + ((at - b.at) as real / 1000.0) * rps)
  }

  /** What one request does to the buckets, and what it is told. */
  function Take(buckets: map<Name, Bucket>, rps: real, q: Request): (map<Name, Bucket>, Verdict)
    requires rps > 0.0
  {
    var tokens := Refilled(BucketOf(buckets, rps, q), rps, q.at);
    if tokens < 1.0 then
      (buckets[q.key := Bucket(tokens, q.at)], Limited(Most(1, Ceiling((1.0 - tokens) / rps))))
    else (buckets[q.key := Bucket(tokens - 1.0, q.at)], Verdict.Accepted)
  }

  class RateLimiter {
    var enabled: bool
    var rps: real
    var buckets: map<Name, Bucket>
    var rateLimited: nat

    ghost predicate Valid()
      reads this
    {
      rps > 0.0
    }

    constructor (enabled: bool, rps: real)
      requires rps > 0.0
      ensures Valid() && buckets == map[] && this.enabled == enabled && this.rps == rps && rateLimited == 0
    {
      this.enabled, this.rps, buckets, rateLimited := enabled, rps, map[], 0;
    }

    /** takeRateToken at a given time: refill, then take a token or refuse with a waiting time. */
    method TakeRateToken(q: Request) returns (v: Verdict)
      requires Valid()
      modifies this
      ensures Valid() && enabled == old(enabled) && rps == old(rps)
      ensures if enabled then (buckets, v) == Take(old(buckets), rps, q)
              else buckets == old(buckets) && v == Verdict.Accepted
      ensures rateLimited == old(rateLimited) + if v.Limited? then 1 else 0
    {
      if !enabled { return Verdict.Accepted; }
      var b := if q.key in buckets then buckets[q.key] else Bucket(rps, q.at);
      var refilled := b.tokens + ((q.at - b.at) as real / 1000.0) * rps;
      b := Bucket(if rps <= refilled then rps else refilled, q.at);
      assert b.tokens == Refilled(BucketOf(buckets, rps, q), rps, q.at);
      if b.tokens < 1.0 {
        buckets := buckets[q.key := b];
        rateLimited := rateLimited + 1;
        var wait := Ceiling((1.0 - b.tokens) / rps);
        return Limited(if wait < 1 then 1 else wait);
      }
      b := Bucket(b.tokens - 1.0, b.at);
      buckets := buckets[q.key := b];
      return Verdict.Accepted;
    }
  }

  /* Many requests */

  function TakeAll(buckets: map<Name, Bucket>, rps: real, qs: seq<Request>): map<Name, Bucket>
    requires rps > 0.0
  {
    if qs == [] then buckets
    else Take(TakeAll(buckets, rps, qs[..|qs| - 1]), rps, qs[|qs| - 1]).0
  }

  /** How many requests of one key are let through. */
  function AcceptedOf(buckets: map<Name, Bucket>, rps: real, qs: seq<Request>, key: Name): nat
    requires rps > 0.0
  {
    if qs == [] then 0
    else
      var init, last := qs[..|qs| - 1], qs[|qs| - 1];
      AcceptedOf(buckets, rps, init, key) +
      if last.key == key && Take(TakeAll(buckets, rps, init), rps, last).1.Accepted? then 1 else 0
  }

  /** The clock does not run backwards, neither within the requests nor against the buckets. */
  predicate Timely(buckets: map<Name, Bucket>, qs: seq<Request>)
  {
    && (forall i, j :: 0 <= i < j < |qs| ==> qs[i].at <= qs[j].at)
    && (forall i, k :: 0 <= i < |qs| && k in buckets ==> buckets[k].at <= qs[i].at)
  }

  predicate BucketsOk(buckets: map<Name, Bucket>, rps: real)
  {
    forall k :: k in buckets ==> 0.0 <= buckets[k].tokens <= rps
  }

  lemma RefillRange(b: Bucket, rps: real, at: int)
    requires rps > 0.0 && 0.0 <= b.tokens <= rps && b.at <= at
    ensures 0.0 <= Refilled(b, rps, at) <= rps
    ensures Refilled(b, rps, at) <= b.tokens + (at - b.at) as real * rps / 1000.0
  {
    var gain := ((at - b.at) as real / 1000.0) * rps;
    assert gain == (at - b.at) as real * rps / 1000.0;
    assert (at - b.at) as real >= 0.0;
    assert gain >= 0.0 by { Product((at - b.at) as real / 1000.0, rps); }
  }

  lemma Product(x: real, y: real)
    requires x >= 0.0 && y >= 0.0
    ensures x * y >= 0.0
  {
  }

  /** No bucket is ever overdrawn or overfull, and none runs ahead of the clock. */
  lemma {:induction false} BucketsStayOk(buckets: map<Name, Bucket>, rps: real, qs: seq<Request>, now: int)
    requires rps > 0.0 && BucketsOk(buckets, rps) && Timely(buckets, qs)
    requires (forall i :: 0 <= i < |qs| ==> qs[i].at <= now) && (forall k :: k in buckets ==> buckets[k].at <= now)
    ensures var m := TakeAll(buckets, rps, qs);
            BucketsOk(m, rps) && forall k :: k in m ==> m[k].at <= now
  {
    if qs != [] {
      var init, last := qs[..|qs| - 1], qs[|qs| - 1];
      BucketsStayOk(buckets, rps, init, last.at);
      RefillRange(BucketOf(TakeAll(buckets, rps, init), rps, last), rps, last.at);
    }
  }

  /** The tokens that come in over a number of milliseconds. */
  function Income(rps: real, ms: int): real { ms as real * rps / 1000.0 }

  predicate Asked(qs: seq<Request>, key: Name) { exists i :: 0 <= i < |qs| && qs[i].key == key }

  /** What a key was given within a window, and what its bucket still holds, stay within one bucketful and
      the refill of the time passed. */
  lemma {:induction false} WindowInvariant(buckets: map<Name, Bucket>, rps: real, qs: seq<Request>, key: Name, start: int)
    requires rps > 0.0 && BucketsOk(buckets, rps) && Timely(buckets, qs)
    requires forall i :: 0 <= i < |qs| ==> start <= qs[i].at
    ensures var m, n := TakeAll(buckets, rps, qs), AcceptedOf(buckets, rps, qs, key);
            if Asked(qs, key) then
              && key in m && start <= m[key].at <= qs[|qs| - 1].at
              && n as real + m[key].tokens <= rps + Income(rps, m[key].at - start)
            else n == 0 && (key in m <==> key in buckets) && (key in m ==> m[key] == buckets[key])
  {
    hide Income, Take, BucketsOk;
    if qs != [] {
      var init, last := qs[..|qs| - 1], qs[|qs| - 1];
      TimelyInit(buckets, qs);
      hide Timely;
      WindowInvariant(buckets, rps, init, key, start);
      BucketsStayOk(buckets, rps, init, last.at);
      AskedNext(qs, key);
      var m := TakeAll(buckets, rps, init);
      hide Asked;
      if last.key == key {
        WindowStep(m, rps, last, AcceptedOf(buckets, rps, init, key), Asked(init, key), start);
      } else {
        TakeOther(m, rps, last, key);
      }
    }
  }

  lemma TimelyInit(buckets: map<Name, Bucket>, qs: seq<Request>)
    requires Timely(buckets, qs) && qs != []
    ensures Timely(buckets, qs[..|qs| - 1])
    ensures forall i :: 0 <= i < |qs| ==> qs[i].at <= qs[|qs| - 1].at
    ensures forall k :: k in buckets ==> buckets[k].at <= qs[|qs| - 1].at
  {
  }

  /** A request leaves the buckets of other keys alone. */
  lemma TakeOther(m: map<Name, Bucket>, rps: real, q: Request, key: Name)
    requires rps > 0.0 && q.key != key
    ensures var m1 := Take(m, rps, q).0; (key in m1 <==> key in m) && (key in m ==> m1[key] == m[key])
  {
  }

  lemma AskedNext(qs: seq<Request>, key: Name)
    requires qs != []
    ensures Asked(qs, key) <==> Asked(qs[..|qs| - 1], key) || qs[|qs| - 1].key == key
  {
    if i: nat :| i < |qs| && qs[i].key == key && i < |qs| - 1 {
      assert qs[..|qs| - 1][i].key == key;
    }
    if qs[|qs| - 1].key == key { assert Asked(qs, key); }
  }

  lemma WindowStep(m: map<Name, Bucket>, rps: real, q: Request, n: nat, asked: bool, start: int)
    requires rps > 0.0 && BucketsOk(m, rps) && start <= q.at && (forall k :: k in m ==> m[k].at <= q.at)
    requires if asked then
               q.key in m && start <= m[q.key].at && n as real + m[q.key].tokens <= rps + Income(rps, m[q.key].at - start)
             else n == 0
    ensures var (m1, v) := Take(m, rps, q);
            && q.key in m1 && m1[q.key].at == q.at
            && (n + if v.Accepted? then 1 else 0) as real + m1[q.key].tokens <= rps + Income(rps, q.at - start)
  {
    var b := BucketOf(m, rps, q);
    RefillRange(b, rps, q.at);
    Product((q.at - start) as real, rps);
    if asked {
      assert (q.at - start) as real == (q.at - b.at) as real + (b.at - start) as real;
      assert (q.at - start) as real * rps == (q.at - b.at) as real * rps + (b.at - start) as real * rps;
    }
  }

  /** However keys are mixed and whatever went before: in any window of a clock that does not run backwards,
      a key is let through at most one bucketful and the refill of the window's length. */
  lemma WindowBound(rps: real, before: seq<Request>, window: seq<Request>, key: Name, start: int, length: nat)
    requires rps > 0.0
    requires forall i, j :: 0 <= i < j < |before + window| ==> (before + window)[i].at <= (before + window)[j].at
    requires forall i :: 0 <= i < |window| ==> start <= window[i].at <= start + length
    ensures AcceptedOf(TakeAll(map[], rps, before), rps, window, key) as real <= rps + length as real * rps / 1000.0
  {
    hide Take, TakeAll, AcceptedOf;
    var m := TakeAll(map[], rps, before);
    Product(length as real, rps);
    if window != [] {
      InOrder(before, window);
      BucketsStayOk(map[], rps, before, window[0].at);
      WindowInvariant(m, rps, window, key, start);
      BucketsStayOk(m, rps, window, window[|window| - 1].at);
      hide Timely, BucketsOk;
      if Asked(window, key) {
        RefillGrows(rps, TakeAll(m, rps, window)[key].at - start, length);
      }
    } else {
      NoneAccepted(m, rps, key);
    }
  }

  lemma NoneAccepted(m: map<Name, Bucket>, rps: real, key: Name)
    requires rps > 0.0
    ensures AcceptedOf(m, rps, [], key) == 0
  {
  }

  lemma RefillGrows(rps: real, x: int, y: int)
    requires rps > 0.0 && x <= y
    ensures Income(rps, x) <= Income(rps, y)
  {
    Product((y - x) as real, rps);
    assert (y - x) as real == y as real - x as real;
    assert (y - x) as real * rps == y as real * rps - x as real * rps;
  }

  lemma InOrder(before: seq<Request>, window: seq<Request>)
    requires forall i, j :: 0 <= i < j < |before + window| ==> (before + window)[i].at <= (before + window)[j].at
    ensures Timely(map[], before) && Timely(map[], window)
    ensures forall i, j :: 0 <= i < |before| && 0 <= j < |window| ==> before[i].at <= window[j].at
  {
    var all := before + window;
    assert forall i :: 0 <= i < |before| ==> before[i] == all[i];
    assert forall i :: 0 <= i < |window| ==> window[i] == all[|before| + i];
  }

  /* Waiting */

  lemma CeilingCovers(x: real, rps: real)
    requires rps > 0.0
    ensures Ceiling(x / rps) as real * rps >= x
  {
    var r := Ceiling(x / rps);
    assert r as real >= x / rps;
    Product(r as real - x / rps, rps);
    assert (x / rps) * rps == x;
  }

  /** A refused caller whose bucket nobody else drains is let through after the advertised seconds exactly
      if the bucket can hold a whole token: with a rate under one per second it never is. */
  lemma WaitingSuffices(buckets: map<Name, Bucket>, rps: real, q: Request)
    requires rps > 0.0 && BucketsOk(buckets, rps) && (forall k :: k in buckets ==> buckets[k].at <= q.at)
    requires Take(buckets, rps, q).1.Limited?
    ensures var (m, v) := Take(buckets, rps, q);
            && v.retryAfter >= 1
            && (Take(m, rps, Request(q.key, q.at + 1000 * v.retryAfter)).1.Accepted? <==> rps >= 1.0)
  {
    var (m, v) := Take(buckets, rps, q);
    var tokens := m[q.key].tokens;
    var r := v.retryAfter;
    RefillRange(BucketOf(buckets, rps, q), rps, q.at);
    CeilingCovers(1.0 - tokens, rps);
    Product((r - Ceiling((1.0 - tokens) / rps)) as real, rps);
    assert r as real * rps >= 1.0 - tokens;
    assert ((1000 * r) as real / 1000.0) * rps == r as real * rps;
  }

  /** With a rate under one request per second nothing is ever let through. */
  lemma SlowNeverAccepts(buckets: map<Name, Bucket>, rps: real, q: Request)
    requires 0.0 < rps < 1.0
    ensures Take(buckets, rps, q).1.Limited?
  {
  }
}
