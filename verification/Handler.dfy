/** Handling one run: decode, reduce, and pass it to the handler in chunks. */
module Handler {
  import opened Wrappers
  import opened Events
  import opened Algebra

  /** How the handler answers a chunk. A chunk that fails transiently is passed
      again until it is answered otherwise. */
  datatype Answer = Succeeds | Unrecoverable | Retryable

  /** The registered handlers: what they know of every type tag. `decode` is
      `None` for a record whose associativity or payload doesn't fit its type. */
  datatype Handlers<!P, !E> = Handlers(
    algebra: Tag -> Option<Algebra<E>>,
    decode: (Tag, P) -> Option<E>,
    encode: (Tag, E) -> Option<P>,
    maxBatch: Tag -> nat)

  /** Batches hold at least one event. */
  ghost predicate HandlersOk<P, E>(h: Handlers<P, E>) {
    forall tag: Tag :: h.maxBatch(tag) > 0
  }

  /** A finished handler call: its events, and whether they were applied (or dropped). */
  datatype Call<E> = Call(events: seq<E>, applied: bool)

  /** How handling a run ended: no chunk is left, or one asked for a retry and
      `remainder` holds the payloads from there on. */
  datatype RunResult<P> = Done | Failed(remainder: seq<P>)

  function DecodedRun<P, E>(h: Handlers<P, E>, tag: Tag, payloads: seq<P>): seq<E> {
    if payloads == [] then []
    else
      var n := |payloads| - 1;
      DecodedRun(h, tag, payloads[..n]) +
      (match h.decode(tag, payloads[n]) case Some(e) => [e] case None => [])
  }

  function Encoded<P, E>(h: Handlers<P, E>, tag: Tag, events: seq<E>): seq<P> {
    if events == [] then []
    else
      var n := |events| - 1;
      Encoded(h, tag, events[..n]) +
      (match h.encode(tag, events[n]) case Some(p) => [p] case None => [])
  }

  /** The events handled for a run. */
  function ReducedRun<P, E(==)>(h: Handlers<P, E>, tag: Tag, payloads: seq<P>): seq<E> {
    match h.algebra(tag)
    case None => []
    case Some(alg) => Reduced(alg, DecodedRun(h, tag, payloads))
  }

  /** The chunks before `handled`, with their answers. */
  function CallsTo<E>(events: seq<E>, m: nat, replies: nat -> Answer, handled: nat): seq<Call<E>>
    requires m > 0 && handled <= |events|
  {
    if handled == 0 then []
    else
      var start := (handled - 1) / m * m;
      assert start <= handled - 1 by { ChunkStart(handled - 1, m); }
      CallsTo(events, m, replies, start) +
      [Call(events[start..handled], replies(start).Succeeds?)]
  }

  lemma ChunkStart(x: nat, m: nat)
    requires m > 0
    ensures x / m * m <= x < x / m * m + m
    ensures x % m == 0 ==> x / m * m == x
  {
  }

  /** A chunk starting at `start` and ending at `end`. */
  lemma ChunkOf(start: nat, end: nat, m: nat)
    requires m > 0 && start % m == 0 && start < end <= start + m
    ensures (end - 1) / m * m == start
  {
    var q := start / m;
    assert start == q * m;
    assert (end - 1) / m == q by {
      assert q * m <= end - 1 < q * m + m;
      DivIs(end - 1, q, m);
    }
  }

  lemma DivIs(x: nat, q: nat, m: nat)
    requires m > 0 && q * m <= x < q * m + m
    ensures x / m == q
  {
    var d := x / m;
    assert d * m <= x < d * m + m;
    if d < q {
      Scale(d, q, m);
    } else if d > q {
      Scale(q, d, m);
    }
  }

  method DecodeRun<P, E(==)>(h: Handlers<P, E>, tag: Tag, alg: Algebra<E>, payloads: seq<P>) returns (events: seq<E>)
    ensures events == Reduced(alg, DecodedRun(h, tag, payloads))
  {
    events := [];
    for i := 0 to |payloads|
      invariant events == DecodedRun(h, tag, payloads[..i])
    {
      assert payloads[..i + 1][..i] == payloads[..i];
      var decoded := h.decode(tag, payloads[i]);
      if decoded.Some? {
        events := events + [decoded.value];
      }
    }
    assert payloads[..|payloads|] == payloads;
    events := Reduce(alg, events);
  }

  method EncodeRun<P, E>(h: Handlers<P, E>, tag: Tag, events: seq<E>) returns (payloads: seq<P>)
    ensures payloads == Encoded(h, tag, events)
  {
    payloads := [];
    for i := 0 to |events|
      invariant payloads == Encoded(h, tag, events[..i])
    {
      assert events[..i + 1][..i] == events[..i];
      var encoded := h.encode(tag, events[i]);
      if encoded.Some? {
        payloads := payloads + [encoded.value];
      }
    }
    assert events[..|events|] == events;
  }

  /** Handles `run` in chunks. The chunks before `handled` were answered and
      not retryable; `handled` is either the end of the reduced run, or the
      start of the first retryable chunk, from which on the run is serialized. */
  method HandleEvents<P, E(==)>(h: Handlers<P, E>, tag: Tag, payloads: seq<P>, replies: nat -> Answer)
    returns (result: RunResult<P>, handled: nat, calls: seq<Call<E>>)
    requires HandlersOk(h)
    ensures handled <= |ReducedRun(h, tag, payloads)|
    ensures calls == CallsTo(ReducedRun(h, tag, payloads), h.maxBatch(tag), replies, handled)
    ensures forall start :: 0 <= start < handled && start % h.maxBatch(tag) == 0 ==> !replies(start).Retryable?
    ensures match result
      case Done => handled == |ReducedRun(h, tag, payloads)|
      case Failed(remainder) =>
        && handled < |ReducedRun(h, tag, payloads)|
        && handled % h.maxBatch(tag) == 0
        && replies(handled).Retryable?
        && remainder == Encoded(h, tag, ReducedRun(h, tag, payloads)[handled..])
  {
    var alg := h.algebra(tag);
    if alg.None? {
      return Done, 0, [];
    }
    var events := DecodeRun(h, tag, alg.value, payloads);
    var m := h.maxBatch(tag);
    var start := 0;
    calls := [];
    while start < |events|
      invariant start <= |events|
      invariant start < |events| ==> start % m == 0
      invariant calls == CallsTo(events, m, replies, start)
      invariant forall s :: 0 <= s < start && s % m == 0 ==> !replies(s).Retryable?
    {
      var end := Least(start + m, |events|);
      match replies(start) {
        case Succeeds =>
        case Unrecoverable =>
        case Retryable =>
          var remainder := EncodeRun(h, tag, events[start..]);
          return Failed(remainder), start, calls;
      }
      calls := calls + [Call(events[start..end], replies(start).Succeeds?)];
      ChunkOf(start, end, m);
      forall s | start < s < end
        ensures s % m != 0
      {
        ChunkInside(start, s, m);
      }
      NextChunk(start, m);
      start := end;
    }
    result, handled := Done, |events|;
  }

  lemma ChunkInside(start: nat, s: nat, m: nat)
    requires m > 0 && start % m == 0 && start < s < start + m
    ensures s % m != 0
  {
    var q := start / m;
    assert start == q * m;
    DivIs(s, q, m);
  }

  lemma NextChunk(start: nat, m: nat)
    requires m > 0 && start % m == 0
    ensures (start + m) % m == 0
  {
    var q := start / m;
    assert start + m == (q + 1) * m;
    DivIs(start + m, q + 1, m);
  }

  ghost function CalledEvents<E>(calls: seq<Call<E>>): seq<E> {
    if calls == [] then [] else CalledEvents(calls[..|calls| - 1]) + calls[|calls| - 1].events
  }

  lemma CalledSnoc<E>(calls: seq<Call<E>>, last: Call<E>)
    ensures CalledEvents(calls + [last]) == CalledEvents(calls) + last.events
  {
    assert (calls + [last])[..|calls|] == calls;
  }

  /** The last chunk before `handled`. */
  lemma LastChunk<E>(events: seq<E>, m: nat, replies: nat -> Answer, handled: nat) returns (start: nat)
    requires m > 0 && 0 < handled <= |events|
    ensures start < handled <= start + m && start % m == 0
    ensures CallsTo(events, m, replies, handled) ==
            CallsTo(events, m, replies, start) + [Call(events[start..handled], replies(start).Succeeds?)]
  {
    start := (handled - 1) / m * m;
    ChunkStart(handled - 1, m);
    MultipleOf((handled - 1) / m, m);
  }

  lemma MultipleOf(q: nat, m: nat)
    requires m > 0
    ensures (q * m) % m == 0
  {
    DivIs(q * m, q, m);
  }

  /** The `k`-th chunk holds the `k`-th batch of events, is full unless it is the
      last, and is applied if its handler succeeded. */
  lemma {:induction false} CallsExactly<E>(events: seq<E>, m: nat, replies: nat -> Answer, handled: nat)
    requires m > 0 && handled <= |events|
    ensures handled <= |CallsTo(events, m, replies, handled)| * m < handled + m
    ensures forall k: nat :: k < |CallsTo(events, m, replies, handled)| ==> CallIs(events, m, replies, handled, k)
    decreases handled
  {
    if handled > 0 {
      hide CallsTo;
      var start := LastChunk(events, m, replies, handled);
      var before := CallsTo(events, m, replies, start);
      CallsExactly(events, m, replies, start);
      var n := |before|;
      LastStart(start, handled, m, n);
      forall k: nat | k < n + 1
        ensures CallIs(events, m, replies, handled, k)
      {
        if k < n {
          assert CallIs(events, m, replies, start, k);
          EarlierChunk(k, n, m);
        }
      }
    } else {
      assert CallsTo(events, m, replies, handled) == [];
    }
  }

  ghost predicate CallIs<E>(events: seq<E>, m: nat, replies: nat -> Answer, handled: nat, k: nat)
    requires m > 0 && handled <= |events|
  {
    var calls := CallsTo(events, m, replies, handled);
    && k < |calls| && k * m < handled
    && calls[k] == Call(events[k * m..Least(k * m + m, handled)], replies(k * m).Succeeds?)
  }

  lemma LastStart(start: nat, handled: nat, m: nat, n: nat)
    requires m > 0 && start < handled <= start + m && start % m == 0 && start <= n * m < start + m
    ensures start == n * m && handled <= (n + 1) * m < handled + m
  {
    var q := start / m;
    assert start == q * m;
    if n > q {
      Scale(q, n, m);
    }
    assert (n + 1) * m == n * m + m;
  }

  lemma EarlierChunk(k: nat, n: nat, m: nat)
    requires k < n
    ensures k * m + m <= n * m
  {
    Scale(k, n, m);
  }

  /** The chunks handled are, in order, the events before the failing chunk: each once. */
  lemma {:induction false} CallsAreEvents<E>(events: seq<E>, m: nat, replies: nat -> Answer, handled: nat)
    requires m > 0 && handled <= |events|
    ensures CalledEvents(CallsTo(events, m, replies, handled)) == events[..handled]
    ensures forall c :: c in CallsTo(events, m, replies, handled) ==> 0 < |c.events| <= m
    decreases handled
  {
    if handled == 0 {
      assert CalledEvents(CallsTo(events, m, replies, handled)) == [];
    } else {
      hide CalledEvents, CallsTo;
      var start := LastChunk(events, m, replies, handled);
      CallsAreEvents(events, m, replies, start);
      CalledSnoc(CallsTo(events, m, replies, start), Call(events[start..handled], replies(start).Succeeds?));
      assert events[..handled] == events[..start] + events[start..handled];
    }
  }
}
