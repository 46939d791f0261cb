/** A reader-writer lock with leases: one key for the writer, one for all
    readers, and both expire on their own. */
module RwLock {
  import opened Wrappers

  type Token = int

  datatype WriterKey = WriterKey(token: Token, expires: int)

  /** When each reader's lease ends, and when the key of all of them expires. */
  datatype ReadersKey = ReadersKey(scores: map<Token, int>, expires: int)

  datatype Keys = Keys(writer: Option<WriterKey>, readers: Option<ReadersKey>)

  /** The keys that haven't expired, taken at the earliest moment Redis may drop them. */
  function Seen(k: Keys, now: int): Keys {
    Keys(if k.writer.Some? && now >= k.writer.value.expires then None else k.writer,
         if k.readers.Some? && now >= k.readers.value.expires then None else k.readers)
  }

  /** A sorted set holding `scores`; an empty one doesn't exist. */
  function SetOf(scores: map<Token, int>, expires: int): Option<ReadersKey> {
    if scores == map[] then None else Some(ReadersKey(scores, expires))
  }

  function Scores(k: Keys): map<Token, int> {
    if k.readers.Some? then k.readers.value.scores else map[]
  }

  /** The scores after `now`. */
  function Running(scores: map<Token, int>, now: int): map<Token, int> {
    map t | t in scores && scores[t] > now :: scores[t]
  }

  /** The expiry of the readers key after it was given at least `ttl`. */
  function Prolonged(k: Keys, kept: map<Token, int>, now: int, ttl: nat): int {
    if kept != map[] && k.readers.Some? && k.readers.value.expires - now >= ttl then k.readers.value.expires else now + ttl
  }

  // --- The scripts ---

  function ReadAcquire(raw: Keys, now: int, token: Token, ttl: nat): (Keys, bool) {
    var k := Seen(raw, now);
    if k.writer.Some? then (k, false)
    else
      var kept := Running(Scores(k), now);
      (k.(readers := Some(ReadersKey(kept[token := now + ttl], Prolonged(k, kept, now, ttl)))), true)
  }

  function ReadRelease(raw: Keys, now: int, token: Token): (Keys, bool) {
    var k := Seen(raw, now);
    if k.readers.None? || token !in k.readers.value.scores then (k, false)
    else
      var r := k.readers.value;
      (k.(readers := SetOf(r.scores - {token}, r.expires)), r.scores[token] > now)
  }

  function ReadExtend(raw: Keys, now: int, token: Token, ttl: nat): (Keys, bool) {
    var k := Seen(raw, now);
    if k.readers.None? || token !in k.readers.value.scores || k.readers.value.scores[token] <= now then (k, false)
    else
      var r := k.readers.value;
      (k.(readers := Some(ReadersKey(r.scores[token := now + ttl], if r.expires - now >= ttl then r.expires else now + ttl))), true)
  }

  function WriteAcquire(raw: Keys, now: int, token: Token, ttl: nat): (Keys, bool) {
    var k := Seen(raw, now);
    var kept := Running(Scores(k), now);
    var k' := k.(readers := if k.readers.Some? then SetOf(kept, k.readers.value.expires) else None);
    if kept != map[] || k.writer.Some? then (k', false)
    else (k'.(writer := Some(WriterKey(token, now + ttl))), true)
  }

  function Extend(raw: Keys, now: int, token: Token, ttl: nat): (Keys, bool) {
    var k := Seen(raw, now);
    if k.writer.Some? && k.writer.value.token == token then (k.(writer := Some(WriterKey(token, now + ttl))), true)
    else (k, false)
  }

  function Release(raw: Keys, now: int, token: Token): (Keys, bool) {
    var k := Seen(raw, now);
    if k.writer.Some? && k.writer.value.token == token then (k.(writer := None), true) else (k, false)
  }

  // --- The clients ---

  datatype Lease = Lease(write: bool, expires: int)

  datatype Op =
    | TryRead(token: Token) | TryWrite(token: Token)
    | RenewRead(token: Token) | RenewWrite(token: Token)
    | DropRead(token: Token) | DropWrite(token: Token)

  /** The keys, the server clock, the leases granted and not released, and every
      token ever used. */
  datatype World = World(keys: Keys, now: int, leases: map<Token, Lease>, used: set<Token>)

  /** A lease is running. */
  predicate Live(w: World, t: Token) {
    t in w.leases && w.now < w.leases[t].expires
  }

  function Run(w: World, op: Op, ttl: nat): (Keys, bool) {
    match op
    case TryRead(t) => ReadAcquire(w.keys, w.now, t, ttl)
    case TryWrite(t) => WriteAcquire(w.keys, w.now, t, ttl)
    case RenewRead(t) => ReadExtend(w.keys, w.now, t, ttl)
    case RenewWrite(t) => Extend(w.keys, w.now, t, ttl)
    case DropRead(t) => ReadRelease(w.keys, w.now, t)
    case DropWrite(t) => Release(w.keys, w.now, t)
  }

  /** Acquiring uses a fresh token; the others need one granted for their side. */
  ghost predicate Allowed(w: World, op: Op) {
    match op
    case TryRead(t) => t !in w.used
    case TryWrite(t) => t !in w.used
    case RenewRead(t) => t in w.leases && !w.leases[t].write
    case RenewWrite(t) => t in w.leases && w.leases[t].write
    case DropRead(t) => t in w.leases && !w.leases[t].write
    case DropWrite(t) => t in w.leases && w.leases[t].write
  }

  /** A client runs a script at time `now`. */
  ghost function Step(w: World, now: int, op: Op, ttl: nat): World {
    var at := w.(now := now);
    var (keys, granted) := Run(at, op, ttl);
    var drops := op.DropRead? || op.DropWrite?;
    var write := op.TryWrite? || op.RenewWrite?;
    World(keys, now,
          if drops then w.leases - {op.token}
          else if granted then w.leases[op.token := Lease(write, now + ttl)]
          else w.leases,
          w.used + {op.token})
  }

  // --- Invariant ---

  /** The writer key stands for the live write lease. */
  ghost predicate WriterOk(w: World) {
    && (w.keys.writer.Some? ==>
          w.keys.writer.value.token in w.used
          && (w.now < w.keys.writer.value.expires ==>
                w.keys.writer.value.token in w.leases
                && w.leases[w.keys.writer.value.token] == Lease(true, w.keys.writer.value.expires)))
    && (forall t :: Live(w, t) && w.leases[t].write ==> w.keys.writer == Some(WriterKey(t, w.leases[t].expires)))
  }

  /** The scores that are running are the live read leases, and the key
      outlives them all. */
  ghost predicate ReadersOk(w: World) {
    && (w.keys.readers.Some? ==>
          && forall t :: t in w.keys.readers.value.scores ==>
               && t in w.used
               && w.keys.readers.value.scores[t] <= w.keys.readers.value.expires
               && (w.keys.readers.value.scores[t] > w.now ==> t in w.leases && w.leases[t] == Lease(false, w.keys.readers.value.scores[t])))
    && (forall t :: Live(w, t) && !w.leases[t].write ==>
          w.keys.readers.Some? && t in w.keys.readers.value.scores && w.keys.readers.value.scores[t] == w.leases[t].expires)
  }

  /** A live write lease excludes every other live lease. */
  ghost predicate Exclusive(w: World) {
    forall t, u :: Live(w, t) && Live(w, u) && w.leases[t].write && t != u ==> false
  }

  ghost predicate Inv(w: World) {
    && WriterOk(w)
    && ReadersOk(w)
    && Exclusive(w)
    && w.leases.Keys <= w.used
  }

  /** Time passing, and the expiry of keys, change no live lease. */
  lemma Passes(w: World, now: int)
    requires Inv(w) && w.now <= now
    ensures Inv(w.(now := now)) && Inv(w.(now := now, keys := Seen(w.keys, now)))
  {
    var at := w.(now := now);
    assert forall t :: Live(at, t) ==> Live(w, t);
  }

  /** A writer key that hasn't expired stands for a live lease. */
  lemma WriterLive(w: World)
    requires Inv(w) && w.keys == Seen(w.keys, w.now)
    ensures w.keys.writer.Some? ==> Live(w, w.keys.writer.value.token) && w.leases[w.keys.writer.value.token].write
  {
  }

  lemma TryReadOk(w: World, now: int, t: Token, ttl: nat)
    requires Inv(w) && w.now == now && ttl > 0 && t !in w.used && w.keys == Seen(w.keys, now)
    ensures Inv(Step(w, now, TryRead(t), ttl))
    ensures Run(w, TryRead(t), ttl).1 <==> forall u :: Live(w, u) ==> !w.leases[u].write
  {
    var w' := Step(w, now, TryRead(t), ttl);
    WriterLive(w);
    if w.keys.writer.Some? {
      assert forall u :: Live(w', u) <==> Live(w, u);
    } else {
      assert forall u :: Live(w', u) <==> Live(w, u) || u == t;
    }
  }

  lemma TryWriteOk(w: World, now: int, t: Token, ttl: nat)
    requires Inv(w) && w.now == now && ttl > 0 && t !in w.used && w.keys == Seen(w.keys, now)
    ensures Inv(Step(w, now, TryWrite(t), ttl))
    ensures Run(w, TryWrite(t), ttl).1 <==> forall u :: !Live(w, u)
  {
    var w' := Step(w, now, TryWrite(t), ttl);
    var kept := Running(Scores(w.keys), now);
    WriterLive(w);
    if kept != map[] {
      SomeToken(kept);
      var u: Token :| u in kept;
      assert Live(w, u);
    }
    forall u | Live(w, u) && !w.leases[u].write
      ensures u in kept
    {
    }
  }

  lemma SomeToken(m: map<Token, int>)
    ensures m == map[] || exists t: Token :: t in m
  {
    if forall t: Token :: t !in m {
      assert m == map[];
    }
  }

  lemma RenewReadOk(w: World, now: int, t: Token, ttl: nat)
    requires Inv(w) && w.now == now && ttl > 0 && Allowed(w, RenewRead(t)) && w.keys == Seen(w.keys, now)
    ensures Inv(Step(w, now, RenewRead(t), ttl))
    ensures Run(w, RenewRead(t), ttl).1 <==> Live(w, t)
  {
    var w' := Step(w, now, RenewRead(t), ttl);
    assert forall u :: Live(w', u) <==> Live(w, u);
  }

  lemma RenewWriteOk(w: World, now: int, t: Token, ttl: nat)
    requires Inv(w) && w.now == now && ttl > 0 && Allowed(w, RenewWrite(t)) && w.keys == Seen(w.keys, now)
    ensures Inv(Step(w, now, RenewWrite(t), ttl))
    ensures Run(w, RenewWrite(t), ttl).1 <==> Live(w, t)
  {
    var w' := Step(w, now, RenewWrite(t), ttl);
    assert forall u :: Live(w', u) <==> Live(w, u);
  }

  lemma DropReadOk(w: World, now: int, t: Token, ttl: nat)
    requires Inv(w) && w.now == now && Allowed(w, DropRead(t)) && w.keys == Seen(w.keys, now)
    ensures Inv(Step(w, now, DropRead(t), ttl))
    ensures Run(w, DropRead(t), ttl).1 <==> Live(w, t)
  {
    var w' := Step(w, now, DropRead(t), ttl);
    assert forall u :: Live(w', u) <==> Live(w, u) && u != t;
    forall u | Live(w', u) && !w'.leases[u].write
      ensures w'.keys.readers.Some? && u in w'.keys.readers.value.scores
    {
      assert u in Scores(w.keys) - {t};
    }
  }

  lemma DropWriteOk(w: World, now: int, t: Token, ttl: nat)
    requires Inv(w) && w.now == now && Allowed(w, DropWrite(t)) && w.keys == Seen(w.keys, now)
    ensures Inv(Step(w, now, DropWrite(t), ttl))
    ensures Run(w, DropWrite(t), ttl).1 <==> Live(w, t)
  {
    var w' := Step(w, now, DropWrite(t), ttl);
    assert forall u :: Live(w', u) <==> Live(w, u) && u != t;
  }

  lemma SeenTwice(k: Keys, now: int)
    ensures Seen(Seen(k, now), now) == Seen(k, now)
  {
  }

  /** What every script answers: a read lease is granted exactly when no write
      lease is live, a write lease exactly when no lease is live at all, and a
      lease is renewed or reported released exactly when it was still live. */
  ghost predicate Answers(w: World, op: Op, granted: bool) {
    match op
    case TryRead(_) => granted <==> forall u :: Live(w, u) ==> !w.leases[u].write
    case TryWrite(_) => granted <==> forall u :: !Live(w, u)
    case _ => granted <==> Live(w, op.token)
  }

  lemma StepOk(w: World, now: int, op: Op, ttl: nat)
    requires Inv(w) && w.now <= now && ttl > 0 && Allowed(w, op)
    ensures Inv(Step(w, now, op, ttl))
    ensures Answers(w.(now := now), op, Run(w.(now := now), op, ttl).1)
  {
    hide Inv;
    var at := w.(now := now, keys := Seen(w.keys, now));
    Passes(w, now);
    SeenTwice(w.keys, now);
    assert Step(w, now, op, ttl) == Step(at, now, op, ttl);
    assert forall u :: Live(at, u) <==> Live(w.(now := now), u);
    match op
    case TryRead(t) => TryReadOk(at, now, t, ttl);
    case TryWrite(t) => TryWriteOk(at, now, t, ttl);
    case RenewRead(t) => RenewReadOk(at, now, t, ttl);
    case RenewWrite(t) => RenewWriteOk(at, now, t, ttl);
    case DropRead(t) => DropReadOk(at, now, t, ttl);
    case DropWrite(t) => DropWriteOk(at, now, t, ttl);
  }

  // --- Whole runs ---

  /** A script run by some client at some time, with the lease time it asks for. */
  datatype Call = Call(now: int, op: Op, ttl: nat)

  ghost predicate Start(w: World) {
    w.keys == Keys(None, None) && w.leases == map[] && w.used == {}
  }

  ghost function After(w: World, calls: seq<Call>): World
    decreases |calls|
  {
    if calls == [] then w else After(Step(w, calls[0].now, calls[0].op, calls[0].ttl), calls[1..])
  }

  ghost predicate Behaves(w: World, calls: seq<Call>)
    decreases |calls|
  {
    calls != [] ==>
      && w.now <= calls[0].now && calls[0].ttl > 0 && Allowed(w, calls[0].op)
      && Behaves(Step(w, calls[0].now, calls[0].op, calls[0].ttl), calls[1..])
  }

  lemma {:induction false} InvAfter(w: World, calls: seq<Call>)
    requires Inv(w) && Behaves(w, calls)
    ensures Inv(After(w, calls))
    decreases |calls|
  {
    hide Inv, Step, Allowed;
    if calls != [] {
      StepOk(w, calls[0].now, calls[0].op, calls[0].ttl);
      InvAfter(Step(w, calls[0].now, calls[0].op, calls[0].ttl), calls[1..]);
    }
  }

  /** However clients interleave and however long they wait, the keys that
      haven't expired hold exactly the live leases: the writer key the write
      lease, and the running scores the read leases. */
  lemma KeysHoldLeases(w: World, calls: seq<Call>, now: int, t: Token)
    requires Start(w) && Behaves(w, calls) && After(w, calls).now <= now
    ensures
      var end, seen := After(w, calls).(now := now), Seen(After(w, calls).keys, now);
      && (Live(end, t) && end.leases[t].write <==> seen.writer.Some? && seen.writer.value.token == t)
      && (Live(end, t) && !end.leases[t].write <==> t in Running(Scores(seen), now))
      && (t in Running(Scores(seen), now) ==> Scores(seen)[t] == end.leases[t].expires)
  {
    hide After, Behaves;
    InvAfter(w, calls);
    Passes(After(w, calls), now);
    SeenTwice(After(w, calls).keys, now);
  }

  /** Two leases live at once are both read leases, and nobody holds the writer key. */
  lemma MutualExclusion(w: World, calls: seq<Call>, now: int, t: Token, u: Token)
    requires Start(w) && Behaves(w, calls) && After(w, calls).now <= now
    requires Live(After(w, calls).(now := now), t) && Live(After(w, calls).(now := now), u) && t != u
    ensures !After(w, calls).leases[t].write && !After(w, calls).leases[u].write
    ensures Seen(After(w, calls).keys, now).readers.Some? && Seen(After(w, calls).keys, now).writer.None?
    ensures t in Scores(Seen(After(w, calls).keys, now)) && u in Scores(Seen(After(w, calls).keys, now))
  {
    hide After, Behaves;
    InvAfter(w, calls);
    var end := After(w, calls).(now := now, keys := Seen(After(w, calls).keys, now));
    Passes(After(w, calls), now);
    assert Live(end, t) && Live(end, u);
    SeenTwice(After(w, calls).keys, now);
    WriterLive(end);
  }

  /** Granting a read lease, and trying for a write lease, drop the scores of
      leases that ended: what remains are the live read leases. */
  lemma AcquireSweeps(w: World, now: int, op: Op, ttl: nat)
    requires Inv(w) && w.now <= now && ttl > 0 && Allowed(w, op)
    requires op.TryWrite? || (op.TryRead? && Run(w.(now := now), op, ttl).1)
    ensures
      var w' := Step(w, now, op, ttl);
      forall t :: t in Scores(w'.keys) <==> Live(w', t) && !w'.leases[t].write
  {
    hide Inv;
    StepOk(w, now, op, ttl);
    var w' := Step(w, now, op, ttl);
    forall t
      ensures t in Scores(w'.keys) ==> Scores(w'.keys)[t] > now
    {
    }
    ScoresLive(w');
  }

  lemma ScoresLive(w: World)
    requires Inv(w) && forall t :: t in Scores(w.keys) ==> Scores(w.keys)[t] > w.now
    ensures forall t :: t in Scores(w.keys) <==> Live(w, t) && !w.leases[t].write
  {
  }

  /** The call asks for a read lease, or for more of one, that would end by `end`. */
  predicate EndsBy(call: Call, end: int) {
    call.op.TryRead? || call.op.RenewRead? ==> call.now + call.ttl <= end
  }

  predicate ExpiresBy(k: Keys, end: int) {
    k.readers.Some? ==> k.readers.value.expires <= end
  }

  /** The readers' key expires no later than the latest end of any read lease
      that was asked for. */
  lemma {:induction false} ReadersExpire(w: World, calls: seq<Call>, end: int)
    requires ExpiresBy(w.keys, end) && forall i :: 0 <= i < |calls| ==> EndsBy(calls[i], end)
    ensures ExpiresBy(After(w, calls).keys, end)
    decreases |calls|
  {
    if calls != [] {
      ReadersExpire(Step(w, calls[0].now, calls[0].op, calls[0].ttl), calls[1..], end);
    }
  }

  // --- As Redis runs the scripts ---

  /** The two keys of one lock. */
  class LockKeys {
    var writer: Option<WriterKey>
    var scores: map<Token, int>
    /** Expiry of the readers key, if it has one. */
    var expires: Option<int>

    ghost predicate Valid()
      reads this
    {
      scores != map[] ==> expires.Some?
    }

    ghost function Value(): Keys
      reads this
      requires Valid()
    {
      Keys(writer, if scores == map[] then None else Some(ReadersKey(scores, expires.value)))
    }

    constructor ()
      ensures Valid() && Value() == Keys(None, None)
    {
      writer, scores, expires := None, map[], None;
    }

    /** Redis drops what expired. */
    method Expire(now: int)
      requires Valid()
      modifies this
      ensures Valid() && Value() == Seen(old(Value()), now)
    {
      if writer.Some? && now >= writer.value.expires {
        writer := None;
      }
      if scores != map[] && now >= expires.value {
        scores, expires := map[], None;
      }
    }

    /** `ZREMRANGEBYSCORE readers -inf now`. */
    method RemoveEnded(now: int)
      modifies this
      ensures scores == Running(old(scores), now) && writer == old(writer)
      ensures expires == if scores == map[] then None else old(expires)
    {
      scores := Running(scores, now);
      if scores == map[] {
        expires := None;
      }
    }

    /** `if PTTL(readers) < ttl then PEXPIRE(readers, ttl)`. */
    method Prolong(now: int, ttl: nat)
      requires scores != map[]
      modifies this`expires
      ensures expires == if old(expires).Some? && old(expires).value - now >= ttl then old(expires) else Some(now + ttl)
    {
      var pttl := if expires.Some? then expires.value - now else -1;
      if pttl < ttl {
        expires := Some(now + ttl);
      }
    }

    method RunReadAcquire(now: int, token: Token, ttl: nat) returns (granted: bool)
      requires Valid()
      modifies this
      ensures Valid() && (Value(), granted) == ReadAcquire(old(Value()), now, token, ttl)
    {
      Expire(now);
      if writer.Some? {
        return false;
      }
      RemoveEnded(now);
      scores := scores[token := now + ttl];
      assert token in scores;
      Prolong(now, ttl);
      granted := true;
    }

    method RunReadRelease(now: int, token: Token) returns (live: bool)
      requires Valid()
      modifies this
      ensures Valid() && (Value(), live) == ReadRelease(old(Value()), now, token)
    {
      Expire(now);
      if token !in scores {
        return false;
      }
      var expiry := scores[token];
      scores := scores - {token};
      live := expiry > now;
    }

    method RunReadExtend(now: int, token: Token, ttl: nat) returns (live: bool)
      requires Valid()
      modifies this
      ensures Valid() && (Value(), live) == ReadExtend(old(Value()), now, token, ttl)
    {
      Expire(now);
      if token !in scores || scores[token] <= now {
        return false;
      }
      scores := scores[token := now + ttl];
      assert token in scores;
      Prolong(now, ttl);
      live := true;
    }

    method RunWriteAcquire(now: int, token: Token, ttl: nat) returns (granted: bool)
      requires Valid()
      modifies this
      ensures Valid() && (Value(), granted) == WriteAcquire(old(Value()), now, token, ttl)
    {
      Expire(now);
      RemoveEnded(now);
      if scores != map[] {
        return false;
      }
      if writer.Some? {
        return false;
      }
      writer := Some(WriterKey(token, now + ttl));
      granted := true;
    }

    method RunExtend(now: int, token: Token, ttl: nat) returns (live: bool)
      requires Valid()
      modifies this
      ensures Valid() && (Value(), live) == Extend(old(Value()), now, token, ttl)
    {
      Expire(now);
      if writer.Some? && writer.value.token == token {
        writer := Some(WriterKey(token, now + ttl));
        return true;
      }
      live := false;
    }

    method RunRelease(now: int, token: Token) returns (live: bool)
      requires Valid()
      modifies this
      ensures Valid() && (Value(), live) == Release(old(Value()), now, token)
    {
      Expire(now);
      if writer.Some? && writer.value.token == token {
        writer := None;
        return true;
      }
      live := false;
    }
  }
}
