/** A token bucket kept in a Redis key that expires once the bucket is full. */
module TokenBucket {
  import opened Wrappers

  /** The capacity, and the tokens added every `period` microseconds. */
  datatype Limit = Limit(capacity: nat, refill: nat, period: nat)
  {
    predicate Valid() {
      refill > 0 && period > 0
    }
  }

  const MAX_U64 := 0xffff_ffff_ffff_ffff

  /** Whole microseconds of a duration of `nanos`, at least one. */
  function PeriodMicros(nanos: nat): (micros: nat)
    ensures 1 <= micros <= MAX_U64
    ensures 1000 <= nanos && nanos / 1000 <= MAX_U64 ==> micros * 1000 <= nanos < micros * 1000 + 1000
    ensures nanos < 1000 ==> micros == 1
    ensures nanos / 1000 > MAX_U64 ==> micros == MAX_U64
  {
    var micros := if nanos / 1000 > MAX_U64 then MAX_U64 else nanos / 1000;
    if micros < 1 then 1 else micros
  }

  /** The stored level, when it was stored, and when the key expires (ms). */
  datatype Bucket = Bucket(tokens: real, ts: int, expires: int)

  /** `{allowed, retry_after_ms, remaining}`. */
  datatype Reply = Reply(allowed: bool, retryAfter: int, remaining: int)

  function Ceil(x: real): (n: int)
    ensures (n as real) - 1.0 < x <= n as real
  {
    -((-x).Floor)
  }

  function Lower(a: real, b: real): real {
    if a < b then a else b
  }

  function Most(a: int, b: int): int {
    if a < b then b else a
  }

  /** Tokens added in `ms` milliseconds. */
  function Refill(l: Limit, ms: int): real
    requires l.Valid()
  {
    ((ms * 1000) as real) * l.refill as real / l.period as real
  }

  /** Milliseconds to add `tokens`. */
  function TimeFor(l: Limit, tokens: real): real
    requires l.Valid()
  {
    tokens * l.period as real / l.refill as real / 1000.0
  }

  /** What the bucket holds at `now`. */
  function Level(l: Limit, st: Option<Bucket>, now: int): real
    requires l.Valid()
  {
    match st
    case None => l.capacity as real
    case Some(b) => Lower(l.capacity as real, b.tokens + Refill(l, Most(now - b.ts, 0)))
  }

  /** The script, on the stored bucket. */
  function Acquire(l: Limit, st: Option<Bucket>, now: int, cost: nat): (Option<Bucket>, Reply)
    requires l.Valid()
  {
    var tokens := Level(l, st, now);
    if cost > l.capacity then (st, Reply(false, -1, tokens.Floor))
    else
      var allowed := tokens >= cost as real;
      var left := if allowed then tokens - cost as real else tokens;
      var retryAfter := if allowed then 0 else Ceil(TimeFor(l, cost as real - tokens));
      var untilFull := Ceil(TimeFor(l, l.capacity as real - left));
      (Some(Bucket(left, now, now + Most(untilFull, 1))), Reply(allowed, retryAfter, left.Floor))
  }

  /** The key as Redis shows it: gone once it expired. */
  function Visible(st: Option<Bucket>, now: int): Option<Bucket> {
    if st.Some? && now >= st.value.expires then None else st
  }

  // --- Arithmetic ---

  lemma Scaled(a: real, b: real, p: real, q: real)
    requires p > 0.0 && q > 0.0
    ensures a * p / q >= b <==> a * p >= b * q
  {
    var c := a * p / q;
    assert c * q == a * p;
    if c >= b {
      assert (c - b) * q >= 0.0;
    } else {
      assert (b - c) * q > 0.0;
    }
  }

  /** The time to add `tokens` is the least time in which that many are added. */
  lemma TimeIsLeast(l: Limit, tokens: real, ms: int)
    requires l.Valid()
    ensures Refill(l, ms) >= tokens <==> ms as real >= TimeFor(l, tokens)
  {
    var r, p := l.refill as real, l.period as real;
    Scaled((ms * 1000) as real, tokens, r, p);
    var t := tokens * p / r;
    assert t * r == tokens * p;
    assert ms as real >= t / 1000.0 <==> (ms * 1000) as real >= t;
    var m := (ms * 1000) as real;
    if m >= t {
      assert (m - t) * r >= 0.0;
    } else {
      assert (t - m) * r > 0.0;
    }
  }

  lemma RefillSum(l: Limit, a: int, b: int)
    requires l.Valid()
    ensures Refill(l, a + b) == Refill(l, a) + Refill(l, b)
  {
    var r, p := l.refill as real, l.period as real;
    var x, y := (a * 1000) as real, (b * 1000) as real;
    assert ((a + b) * 1000) as real == x + y;
    assert (x + y) * r == x * r + y * r;
    var s, t := x * r / p, y * r / p;
    assert s * p == x * r && t * p == y * r;
    assert (s + t) * p == (x + y) * r;
  }

  lemma RefillGrows(l: Limit, a: int)
    requires l.Valid() && a >= 0
    ensures Refill(l, a) >= 0.0
  {
    Scaled((a * 1000) as real, 0.0, l.refill as real, l.period as real);
    assert ((a * 1000) as real) * l.refill as real >= 0.0;
  }

  // --- Invariant ---

  /** The stored level is possible, and full from the expiry on. */
  ghost predicate BucketOk(l: Limit, st: Option<Bucket>) {
    l.Valid() && (st.Some? ==>
      && 0.0 <= st.value.tokens <= l.capacity as real
      && st.value.ts < st.value.expires
      && forall now: int :: now >= st.value.expires ==> Level(l, st, now) == l.capacity as real)
  }

  lemma LevelRange(l: Limit, st: Option<Bucket>, now: int)
    requires BucketOk(l, st)
    ensures 0.0 <= Level(l, st, now) <= l.capacity as real
  {
    if st.Some? {
      RefillGrows(l, Most(now - st.value.ts, 0));
    }
  }

  lemma AcquireOk(l: Limit, st: Option<Bucket>, now: int, cost: nat)
    requires BucketOk(l, st)
    ensures BucketOk(l, Acquire(l, st, now, cost).0)
  {
    LevelRange(l, st, now);
    var (st', _) := Acquire(l, st, now, cost);
    if cost <= l.capacity {
      var left := st'.value.tokens;
      forall later: int | later >= st'.value.expires
        ensures Level(l, st', later) == l.capacity as real
      {
        TimeIsLeast(l, l.capacity as real - left, later - now);
      }
    }
  }

  /** The expiry of the key can't be observed: at any time, the bucket whose key
      may have expired holds what one that never expires holds. */
  lemma ExpiryUnobservable(l: Limit, st: Option<Bucket>, now: int)
    requires BucketOk(l, st)
    ensures Level(l, Visible(st, now), now) == Level(l, st, now)
  {
  }

  /** After a request the level has only the admitted tokens less; a request
      larger than the bucket changes nothing. */
  lemma LevelAfter(l: Limit, st: Option<Bucket>, now: int, cost: nat)
    requires BucketOk(l, st)
    ensures
      var (st', reply) := Acquire(l, st, now, cost);
      && Level(l, st', now) == Level(l, st, now) - (if reply.allowed then cost as real else 0.0)
      && (reply.allowed <==> Level(l, st, now) >= cost as real)
  {
    LevelRange(l, st, now);
    assert Refill(l, 0) == 0.0;
  }

  /** Waiting only refills. */
  lemma Waiting(l: Limit, st: Option<Bucket>, now: int, later: int)
    requires BucketOk(l, st) && now <= later
    ensures Level(l, st, later) <= Level(l, st, now) + Refill(l, later - now)
    ensures Level(l, st, now) <= Level(l, st, later)
    ensures st.Some? && st.value.ts <= now ==>
              Level(l, st, later) == Lower(l.capacity as real, Level(l, st, now) + Refill(l, later - now))
  {
    RefillGrows(l, later - now);
    if st.Some? {
      var ts := st.value.ts;
      if ts <= now {
        RefillSum(l, now - ts, later - now);
      } else if ts <= later {
        RefillSum(l, later - ts, ts - now);
        RefillGrows(l, ts - now);
        RefillGrows(l, later - ts);
        assert Refill(l, 0) == 0.0;
      }
    }
  }

  /** When a request that fits the bucket is denied, `retry_after` is the least
      number of milliseconds after which it is allowed, if nothing else is
      taken; one that doesn't fit is never allowed. */
  lemma RetryAfterIsLeast(l: Limit, st: Option<Bucket>, now: int, cost: nat, ms: nat)
    requires BucketOk(l, st) && !Acquire(l, Visible(st, now), now, cost).1.allowed
    ensures
      var (st', reply) := Acquire(l, Visible(st, now), now, cost);
      var allowed := Acquire(l, Visible(st', now + ms), now + ms, cost).1.allowed;
      if cost > l.capacity then reply.retryAfter == -1 && !allowed
      else reply.retryAfter > 0 && (allowed <==> ms >= reply.retryAfter)
  {
    var seen := Visible(st, now);
    var (st', reply) := Acquire(l, seen, now, cost);
    AcquireOk(l, seen, now, cost);
    if cost <= l.capacity {
      ExpiryUnobservable(l, st', now + ms);
      LevelAfter(l, seen, now, cost);
      Waiting(l, st', now, now + ms);
      AcquireOk(l, seen, now, cost);
      LevelAfter(l, Visible(st', now + ms), now + ms, cost);
      var missing := cost as real - Level(l, seen, now);
      TimeIsLeast(l, missing, ms);
      TimeIsLeast(l, missing, 0);
      assert Refill(l, 0) == 0.0;
    }
  }

  /** In a number of whole periods, as many times the refill is added. */
  lemma RefillPerPeriod(l: Limit, ms: int, periods: int)
    requires l.Valid() && ms * 1000 == periods * l.period
    ensures Refill(l, ms) == (periods * l.refill) as real
  {
    var r, p, n := l.refill as real, l.period as real, periods as real;
    assert (ms * 1000) as real == n * p;
    var x := n * p * r / p;
    assert x * p == n * p * r == (n * r) * p;
    assert x == n * r;
  }

  /** What a reply says is left is what the bucket holds afterwards, rounded
      down, and the key expires at the first moment the bucket is full again. */
  lemma ReplyExactly(l: Limit, st: Option<Bucket>, now: int, cost: nat)
    requires BucketOk(l, st)
    ensures
      var (st', reply) := Acquire(l, st, now, cost);
      && reply.remaining as real <= Level(l, st', now) < (reply.remaining + 1) as real
      && (cost > l.capacity ==> st' == st)
      && (cost <= l.capacity ==>
            && st'.Some? && st'.value.ts == now < st'.value.expires
            && Level(l, st', st'.value.expires) == l.capacity as real
            && forall later: int :: now < later < st'.value.expires ==> Level(l, st', later) < l.capacity as real)
  {
    LevelAfter(l, st, now, cost);
    AcquireOk(l, st, now, cost);
    var (st', _) := Acquire(l, st, now, cost);
    if cost <= l.capacity {
      forall later: int | now < later < st'.value.expires
        ensures Level(l, st', later) < l.capacity as real
      {
        TimeIsLeast(l, l.capacity as real - st'.value.tokens, later - now);
      }
    }
  }

  // --- Runs ---

  datatype Request = Request(now: int, cost: nat)

  ghost predicate Clock(reqs: seq<Request>) {
    forall i, j :: 0 <= i < j < |reqs| ==> reqs[i].now <= reqs[j].now
  }

  /** The replies of a run, and the key after it; `expires` says whether keys expire. */
  ghost function Run(l: Limit, st: Option<Bucket>, reqs: seq<Request>, expires: bool): (Option<Bucket>, seq<Reply>)
    requires l.Valid()
  {
    if reqs == [] then (st, [])
    else
      var n := |reqs| - 1;
      var (before, replies) := Run(l, st, reqs[..n], expires);
      var seen := if expires then Visible(before, reqs[n].now) else before;
      var (after, reply) := Acquire(l, seen, reqs[n].now, reqs[n].cost);
      (after, replies + [reply])
  }

  /** The key whose level agrees with the one of a key that never expires. */
  ghost predicate Agree(l: Limit, a: Option<Bucket>, b: Option<Bucket>, from: int) {
    && BucketOk(l, a) && BucketOk(l, b)
    && forall now: int :: now >= from ==> Level(l, a, now) == Level(l, b, now)
  }

  lemma AgreeStep(l: Limit, a: Option<Bucket>, b: Option<Bucket>, from: int, now: int, cost: nat)
    requires Agree(l, a, b, from) && now >= from
    ensures Acquire(l, Visible(a, now), now, cost).1 == Acquire(l, b, now, cost).1
    ensures Agree(l, Acquire(l, Visible(a, now), now, cost).0, Acquire(l, b, now, cost).0, now)
  {
    ExpiryUnobservable(l, a, now);
    AcquireOk(l, Visible(a, now), now, cost);
    AcquireOk(l, b, now, cost);
    if cost > l.capacity {
      forall later: int | later >= now
        ensures Level(l, Visible(a, now), later) == Level(l, b, later)
      {
      }
    }
  }

  /** A run behaves as if keys never expired. */
  lemma {:induction false} ExpiryNeverMatters(l: Limit, st: Option<Bucket>, reqs: seq<Request>)
    requires l.Valid() && BucketOk(l, st) && Clock(reqs)
    ensures Run(l, st, reqs, true).1 == Run(l, st, reqs, false).1
    ensures reqs != [] ==> Agree(l, Run(l, st, reqs, true).0, Run(l, st, reqs, false).0, reqs[|reqs| - 1].now)
  {
    hide Agree, BucketOk, Level, Acquire, Visible;
    if reqs != [] {
      var n := |reqs| - 1;
      ExpiryNeverMatters(l, st, reqs[..n]);
      var now := reqs[n].now;
      if n == 0 {
        AgreeSelf(l, st, now);
        AgreeStep(l, st, st, now, now, reqs[n].cost);
      } else {
        AgreeStep(l, Run(l, st, reqs[..n], true).0, Run(l, st, reqs[..n], false).0, reqs[n - 1].now, now, reqs[n].cost);
      }
    }
  }

  lemma AgreeSelf(l: Limit, st: Option<Bucket>, now: int)
    requires BucketOk(l, st)
    ensures Agree(l, st, st, now)
  {
  }

  /** Tokens admitted by the requests. */
  ghost function Admitted(reqs: seq<Request>, replies: seq<Reply>): nat
    requires |replies| == |reqs|
  {
    if reqs == [] then 0
    else
      var n := |reqs| - 1;
      Admitted(reqs[..n], replies[..n]) + (if replies[n].allowed then reqs[n].cost else 0)
  }

  lemma {:induction false} RunLength(l: Limit, st: Option<Bucket>, reqs: seq<Request>, expires: bool)
    requires l.Valid()
    ensures |Run(l, st, reqs, expires).1| == |reqs|
  {
    if reqs != [] {
      RunLength(l, st, reqs[..|reqs| - 1], expires);
    }
  }

  /** Every admitted token was in the bucket at the first request or was refilled since. */
  lemma {:induction false} TokensConserved(l: Limit, st: Option<Bucket>, reqs: seq<Request>)
    requires l.Valid() && BucketOk(l, st) && Clock(reqs) && reqs != []
    ensures
      var (after, replies) := Run(l, st, reqs, false);
      var first, last := reqs[0].now, reqs[|reqs| - 1].now;
      && |replies| == |reqs|
      && BucketOk(l, after)
      && Admitted(reqs, replies) as real + Level(l, after, last) <= Level(l, st, first) + Refill(l, last - first)
  {
    hide BucketOk, Level, Acquire, Refill;
    RunLength(l, st, reqs, false);
    var n := |reqs| - 1;
    var (before, replies) := Run(l, st, reqs[..n], false);
    var first, now := reqs[0].now, reqs[n].now;
    assert Run(l, st, reqs, false).1[..n] == replies by { RunLength(l, st, reqs[..n], false); }
    if n == 0 {
      AcquireOk(l, st, now, reqs[n].cost);
      LevelAfter(l, st, now, reqs[n].cost);
      NoWait(l);
      assert Admitted(reqs[..0], replies) == 0;
    } else {
      var last := reqs[n - 1].now;
      TokensConserved(l, st, reqs[..n]);
      AcquireOk(l, before, now, reqs[n].cost);
      LevelAfter(l, before, now, reqs[n].cost);
      Waiting(l, before, last, now);
      RefillSum(l, last - first, now - last);
    }
  }

  lemma NoWait(l: Limit)
    requires l.Valid()
    ensures Refill(l, 0) == 0.0
  {
  }

  /** In any window of any run, whatever came before it, the tokens admitted are
      at most the capacity and what is refilled during the window. */
  lemma WindowBound(l: Limit, before: seq<Request>, window: seq<Request>)
    requires l.Valid() && window != [] && Clock(before + window)
    ensures
      var start := Run(l, None, before, true).0;
      var replies := Run(l, start, window, true).1;
      && |replies| == |window|
      && Admitted(window, replies) as real <= l.capacity as real + Refill(l, window[|window| - 1].now - window[0].now)
  {
    hide Level, Refill, Acquire;
    var start := Run(l, None, before, true).0;
    assert Clock(before) && Clock(window) by {
      assert forall i :: 0 <= i < |before| ==> before[i] == (before + window)[i];
      assert forall i :: 0 <= i < |window| ==> window[i] == (before + window)[|before| + i];
    }
    RunOk(l, before);
    ExpiryNeverMatters(l, start, window);
    RunLength(l, start, window, true);
    TokensConserved(l, start, window);
    LevelRange(l, start, window[0].now);
    LevelRange(l, Run(l, start, window, false).0, window[|window| - 1].now);
  }

  lemma {:induction false} RunOk(l: Limit, reqs: seq<Request>)
    requires l.Valid()
    ensures BucketOk(l, Run(l, None, reqs, true).0)
  {
    hide Level, Acquire, BucketOk;
    if reqs == [] {
      FreshOk(l);
    } else {
      var n := |reqs| - 1;
      RunOk(l, reqs[..n]);
      SeenOk(l, Run(l, None, reqs[..n], true).0, reqs[n].now);
      AcquireOk(l, Visible(Run(l, None, reqs[..n], true).0, reqs[n].now), reqs[n].now, reqs[n].cost);
    }
  }

  lemma FreshOk(l: Limit)
    requires l.Valid()
    ensures BucketOk(l, None)
  {
  }

  lemma SeenOk(l: Limit, st: Option<Bucket>, now: int)
    requires BucketOk(l, st)
    ensures BucketOk(l, Visible(st, now))
  {
  }

  // --- As Redis keeps it ---

  /** The key of one bucket. */
  class BucketKey {
    const limit: Limit
    var key: Option<Bucket>

    ghost predicate Valid()
      reads this
    {
      BucketOk(limit, key)
    }

    constructor (limit: Limit)
      requires limit.Valid()
      ensures Valid() && this.limit == limit && key == None
    {
      this.limit, key := limit, None;
    }

    /** The `ACQUIRE` script at server time `now`. */
    method RunAcquire(now: int, cost: nat) returns (reply: Reply)
      requires Valid()
      modifies this
      ensures Valid() && (key, reply) == Acquire(limit, Visible(old(key), now), now, cost)
    {
      hide BucketOk;
      key := Visible(key, now);
      assert BucketOk(limit, key) by { SeenOk(limit, old(key), now); }
      AcquireOk(limit, key, now, cost);
      var capacity := limit.capacity as real;
      var tokens, ts := capacity, now;
      if key.Some? {
        tokens, ts := key.value.tokens, key.value.ts;
      }
      var elapsed := Most(now - ts, 0);
      assert Refill(limit, 0) == 0.0;
      tokens := Lower(capacity, tokens + Refill(limit, elapsed));
      if cost > limit.capacity {
        return Reply(false, -1, tokens.Floor);
      }
      var allowed, retryAfter := false, 0;
      if tokens >= cost as real {
        tokens := tokens - cost as real;
        allowed := true;
      } else {
        retryAfter := Ceil(TimeFor(limit, cost as real - tokens));
      }
      var untilFull := Ceil(TimeFor(limit, capacity - tokens));
      key := Some(Bucket(tokens, now, now + Most(untilFull, 1)));
      reply := Reply(allowed, retryAfter, tokens.Floor);
    }
  }
}
