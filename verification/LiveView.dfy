/** A versioned body kept as a base and diffs: the scripts that change it, and
    the subscriptions that follow it in batched reads while it is squashed. */
module LiveView {
  import opened Wrappers

  /** Versions count from 1. */
  datatype Versioned<B> = Versioned(version: nat, body: B)

  datatype EntryId = EntryId(ms: nat, sq: nat)
  {
    predicate After(o: EntryId) {
      ms > o.ms || (ms == o.ms && sq > o.sq)
    }
  }

  /** A history entry: a body, a diff from the version before, or both. */
  datatype LogEntry<B, D> = LogEntry(id: EntryId, base: Option<B>, diff: Option<D>)

  /** A change seen by a subscription. */
  datatype Event<B, D> = Diff(version: nat, diff: D) | Snapshot(body: Versioned<B>)

  datatype Commit = Committed(version: nat) | Conflict(head: nat) | Absent

  datatype Parsed<T> = Ok(value: T) | Corrupted

  /** What Redis holds for a view. */
  datatype Stored<B, D> = Stored(head: Option<Versioned<B>>, log: seq<LogEntry<B, D>>)

  datatype History<B, D> = History(base: Versioned<B>, diffs: seq<D>)

  /** What a subscription holds: the version of its last event, the last entry
      it read, and the entries it read but didn't output. */
  datatype Subscriber<B, D> = Subscriber(version: nat, after: EntryId, pending: seq<LogEntry<B, D>>)

  /** Entries read at once. */
  const READ_BATCH := 128

  // --- What the scripts do ---

  function Create<B, D>(st: Stored<B, D>, body: B): (Stored<B, D>, bool) {
    if st.head.Some? then (st, false)
    else (Stored(Some(Versioned(1, body)), [LogEntry(EntryId(1, 0), Some(body), None)]), true)
  }

  function CommitTo<B, D>(st: Stored<B, D>, maxDiffs: nat, parent: nat, diff: D, body: B): (Stored<B, D>, Commit) {
    if st.head.None? then (st, Absent)
    else if st.head.value.version != parent then (st, Conflict(st.head.value.version))
    else
      var version := parent + 1;
      var id := EntryId(version, 0);
      var log := if |st.log| > maxDiffs then [LogEntry(id, Some(body), Some(diff))]
                 else st.log + [LogEntry(id, None, Some(diff))];
      (Stored(Some(Versioned(version, body)), log), Committed(version))
  }

  function Updated<B, D>(apply: (B, D) -> B, view: Versioned<B>, event: Event<B, D>): Versioned<B> {
    match event
    case Diff(version, diff) => Versioned(version, apply(view.body, diff))
    case Snapshot(body) => body
  }

  function EntryVersion<B, D>(entry: LogEntry<B, D>): Parsed<nat> {
    if entry.id.sq != 0 then Corrupted else Ok(entry.id.ms)
  }

  /** What a reader at version `current` makes of an entry. */
  function ParseEvent<B, D>(entry: LogEntry<B, D>, current: nat): Parsed<Event<B, D>> {
    match EntryVersion(entry)
    case Corrupted => Corrupted
    case Ok(version) =>
      if version == current + 1 && entry.diff.Some? then Ok(Diff(version, entry.diff.value))
      else if entry.base.None? then Corrupted
      else Ok(Snapshot(Versioned(version, entry.base.value)))
  }

  /** The first entries after `after`, at most `n`. */
  function EntriesAfter<B, D>(log: seq<LogEntry<B, D>>, after: EntryId, n: nat): (read: seq<LogEntry<B, D>>)
    ensures |read| <= n
    decreases |log|
  {
    if log == [] || n == 0 then []
    else if log[0].id.After(after) then [log[0]] + EntriesAfter(log[1..], after, n - 1)
    else EntriesAfter(log[1..], after, n)
  }

  /** The subscription after it read a batch, if it had nothing left. */
  function Filled<B, D>(sub: Subscriber<B, D>, log: seq<LogEntry<B, D>>): Subscriber<B, D> {
    if sub.pending != [] then sub
    else
      var read := EntriesAfter(log, sub.after, READ_BATCH);
      if read == [] then sub else Subscriber(sub.version, read[|read| - 1].id, read)
  }

  function VersionOf<B, D>(event: Event<B, D>): nat {
    match event
    case Diff(version, _) => version
    case Snapshot(body) => body.version
  }

  /** The next event, or `None` while there is none to wait for. */
  function Receive<B, D>(sub: Subscriber<B, D>, log: seq<LogEntry<B, D>>): (Subscriber<B, D>, Option<Parsed<Event<B, D>>>) {
    var filled := Filled(sub, log);
    if filled.pending == [] then (filled, None)
    else
      var popped := filled.(pending := filled.pending[1..]);
      match ParseEvent(filled.pending[0], sub.version)
      case Corrupted => (popped, Some(Corrupted))
      case Ok(event) => (popped.(version := VersionOf(event)), Some(Ok(event)))
  }

  function Replay<B, D>(apply: (B, D) -> B, base: Versioned<B>, diffs: seq<D>): Versioned<B> {
    if diffs == [] then base
    else
      var n := |diffs| - 1;
      var before := Replay(apply, base, diffs[..n]);
      Versioned(before.version + 1, apply(before.body, diffs[n]))
  }

  // --- The true bodies ---

  /** An entry tells the truth about the bodies at its version and before. */
  ghost predicate True<B, D>(apply: (B, D) -> B, bodies: seq<B>, e: LogEntry<B, D>) {
    && e.id.sq == 0 && 1 <= e.id.ms <= |bodies|
    && (e.base.Some? ==> e.base.value == bodies[e.id.ms - 1])
    && (e.diff.Some? ==> e.id.ms >= 2 && bodies[e.id.ms - 1] == apply(bodies[e.id.ms - 2], e.diff.value))
    && (e.diff.None? ==> e.id.ms == 1)
  }

  /** Entries of consecutive versions, of which only the first may be a base. */
  ghost predicate Contiguous<B, D>(log: seq<LogEntry<B, D>>) {
    forall i :: 0 < i < |log| ==> log[i].id.ms == log[0].id.ms + i && log[i].base.None?
  }

  /** `bodies` holds the body of every version so far: the head is the last,
      and the history is a true base followed by at most `maxDiffs` true diffs
      up to the head. */
  ghost predicate ViewOk<B, D>(apply: (B, D) -> B, maxDiffs: nat, bodies: seq<B>, st: Stored<B, D>) {
    if st.head.None? then bodies == [] && st.log == []
    else
      && bodies != []
      && st.head.value == Versioned(|bodies|, bodies[|bodies| - 1])
      && 1 <= |st.log| <= maxDiffs + 1
      && Contiguous(st.log)
      && (forall i :: 0 <= i < |st.log| ==> True(apply, bodies, st.log[i]))
      && st.log[0].base.Some?
      && st.log[|st.log| - 1].id.ms == |bodies|
  }

  /** The subscription can go on: what it buffered follows its version, or
      starts over from a base, and ends where it read to. */
  ghost predicate SubOk<B, D>(apply: (B, D) -> B, bodies: seq<B>, sub: Subscriber<B, D>) {
    && 1 <= sub.version <= |bodies|
    && sub.after.sq == 0 && sub.after.ms <= |bodies|
    && Contiguous(sub.pending)
    && (forall i :: 0 <= i < |sub.pending| ==> True(apply, bodies, sub.pending[i]))
    && (sub.pending == [] ==> sub.after.ms == sub.version)
    && (sub.pending != [] ==>
          && sub.after.ms == sub.pending[|sub.pending| - 1].id.ms
          && sub.pending[0].id.ms > sub.version
          && (sub.pending[0].id.ms == sub.version + 1 || sub.pending[0].base.Some?))
  }

  lemma CreateOk<B, D>(apply: (B, D) -> B, maxDiffs: nat, bodies: seq<B>, st: Stored<B, D>, body: B)
    requires ViewOk(apply, maxDiffs, bodies, st)
    ensures ViewOk(apply, maxDiffs, if st.head.Some? then bodies else [body], Create(st, body).0)
  {
  }

  /** A commit's entry is true, and what was true stays so. */
  lemma CommitTrue<B, D>(apply: (B, D) -> B, bodies: seq<B>, log: seq<LogEntry<B, D>>, diff: D, body: B, base: Option<B>)
    requires bodies != [] && body == apply(bodies[|bodies| - 1], diff) && (base.Some? ==> base.value == body)
    requires forall i :: 0 <= i < |log| ==> True(apply, bodies, log[i])
    ensures True(apply, bodies + [body], LogEntry(EntryId(|bodies| + 1, 0), base, Some(diff)))
    ensures forall i :: 0 <= i < |log| ==> True(apply, bodies + [body], log[i])
  {
    forall i | 0 <= i < |log|
      ensures True(apply, bodies + [body], log[i])
    {
      TrueGrows(apply, bodies, body, log[i]);
    }
  }

  /** Committing the parent's body with the diff applied keeps head and history in agreement. */
  lemma CommitOk<B, D>(apply: (B, D) -> B, maxDiffs: nat, bodies: seq<B>, st: Stored<B, D>, parent: nat, diff: D, body: B)
    requires ViewOk(apply, maxDiffs, bodies, st)
    requires st.head.Some? && st.head.value.version == parent ==> body == apply(st.head.value.body, diff)
    ensures
      var (st', reply) := CommitTo(st, maxDiffs, parent, diff, body);
      && ViewOk(apply, maxDiffs, if reply.Committed? then bodies + [body] else bodies, st')
      && (reply.Committed? <==> bodies != [] && parent == |bodies|)
      && (reply.Committed? ==> reply.version == |bodies| + 1)
      && (reply.Conflict? ==> reply.head == |bodies|)
      && (reply.Absent? <==> bodies == [])
  {
    hide True;
    var (st', reply) := CommitTo(st, maxDiffs, parent, diff, body);
    if reply.Committed? {
      if |st.log| > maxDiffs {
        CommitTrue(apply, bodies, [], diff, body, Some(body));
      } else {
        CommitTrue(apply, bodies, st.log, diff, body, None);
        AppendContiguous(st.log, st'.log[|st.log|]);
      }
    }
  }

  lemma AppendContiguous<B, D>(log: seq<LogEntry<B, D>>, e: LogEntry<B, D>)
    requires log != [] && Contiguous(log) && e.id.ms == log[|log| - 1].id.ms + 1 && e.base.None?
    ensures Contiguous(log + [e])
  {
  }

  lemma TrueGrows<B, D>(apply: (B, D) -> B, bodies: seq<B>, body: B, e: LogEntry<B, D>)
    requires True(apply, bodies, e)
    ensures True(apply, bodies + [body], e)
  {
  }

  /** What a subscription buffered stays usable whatever is committed or squashed meanwhile. */
  lemma SubGrows<B, D>(apply: (B, D) -> B, bodies: seq<B>, body: B, sub: Subscriber<B, D>)
    requires SubOk(apply, bodies, sub)
    ensures SubOk(apply, bodies + [body], sub)
  {
    forall i | 0 <= i < |sub.pending|
      ensures True(apply, bodies + [body], sub.pending[i])
    {
      TrueGrows(apply, bodies, body, sub.pending[i]);
    }
  }

  lemma Rest<B, D>(log: seq<LogEntry<B, D>>)
    requires |log| > 1 && Contiguous(log) && forall i :: 0 <= i < |log| ==> log[i].id.sq == 0
    ensures Contiguous(log[1..]) && forall i :: 0 <= i < |log| - 1 ==> log[1..][i].id.sq == 0
    ensures log[1..][0].id.ms == log[0].id.ms + 1
  {
    forall i | 0 <= i < |log| - 1
      ensures log[1..][i] == log[i + 1]
    {
    }
  }

  lemma {:induction false} AllAfter<B, D>(log: seq<LogEntry<B, D>>, v: nat, n: nat)
    requires log != [] && Contiguous(log) && (forall i :: 0 <= i < |log| ==> log[i].id.sq == 0) && log[0].id.ms > v
    ensures EntriesAfter(log, EntryId(v, 0), n) == log[..Least(n, |log|)]
    decreases |log|
  {
    if n > 0 && |log| > 1 {
      Rest(log);
      AllAfter(log[1..], v, n - 1);
      assert [log[0]] + log[1..][..Least(n - 1, |log| - 1)] == log[..Least(n, |log|)];
    }
  }

  /** Reading after version `v` gives the entries from there on, at most `n`. */
  lemma {:induction false} EntriesAre<B, D>(log: seq<LogEntry<B, D>>, v: nat, n: nat)
    requires log != [] && Contiguous(log) && forall i :: 0 <= i < |log| ==> log[i].id.sq == 0
    ensures
      var from := if v < log[0].id.ms then 0 else v + 1 - log[0].id.ms;
      EntriesAfter(log, EntryId(v, 0), n) == if from >= |log| then [] else log[from..Least(from + n, |log|)]
    decreases |log|
  {
    if v < log[0].id.ms {
      AllAfter(log, v, n);
    } else if |log| > 1 {
      Rest(log);
      EntriesAre(log[1..], v, n);
      var from := v + 1 - log[0].id.ms;
      if from < |log| {
        assert log[1..][from - 1..Least(from - 1 + n, |log| - 1)] == log[from..Least(from + n, |log|)];
      }
    }
  }

  /** Part of a true history is true, and its versions are where they were. */
  lemma SliceOk<B, D>(apply: (B, D) -> B, bodies: seq<B>, log: seq<LogEntry<B, D>>, from: nat, to: nat)
    requires Contiguous(log) && (forall i :: 0 <= i < |log| ==> True(apply, bodies, log[i])) && from < to <= |log|
    ensures Contiguous(log[from..to]) && forall i :: 0 <= i < to - from ==> True(apply, bodies, log[from..to][i])
    ensures log[from].id.ms == log[0].id.ms + from && log[to - 1].id.ms == log[0].id.ms + to - 1
    ensures log[to - 1].id.sq == 0
  {
    hide True;
    assert True(apply, bodies, log[to - 1]);
    TrueSq(apply, bodies, log[to - 1]);
  }

  lemma TrueSq<B, D>(apply: (B, D) -> B, bodies: seq<B>, e: LogEntry<B, D>)
    requires True(apply, bodies, e)
    ensures e.id.sq == 0 && e.id.ms <= |bodies|
  {
  }

  /** A batched read keeps the subscription going, and reads something unless
      it already has everything up to the head. */
  lemma FilledOk<B, D>(apply: (B, D) -> B, maxDiffs: nat, bodies: seq<B>, st: Stored<B, D>, sub: Subscriber<B, D>)
    requires ViewOk(apply, maxDiffs, bodies, st) && SubOk(apply, bodies, sub)
    ensures SubOk(apply, bodies, Filled(sub, st.log)) && Filled(sub, st.log).version == sub.version
    ensures Filled(sub, st.log).pending == [] <==> sub.pending == [] && sub.version == |bodies|
  {
    hide True, Contiguous, EntriesAfter;
    if sub.pending == [] {
      forall i | 0 <= i < |st.log|
        ensures st.log[i].id.sq == 0
      {
        TrueSq(apply, bodies, st.log[i]);
      }
      EntriesAre(st.log, sub.version, READ_BATCH);
      assert sub.after == EntryId(sub.version, 0);
      var first := st.log[0].id.ms;
      var from := if sub.version < first then 0 else sub.version + 1 - first;
      SliceOk(apply, bodies, st.log, 0, |st.log|);
      if from < |st.log| {
        var to := Least(from + READ_BATCH, |st.log|);
        SliceOk(apply, bodies, st.log, from, to);
        TrueSq(apply, bodies, st.log[to - 1]);
      }
    }
  }

  /** Every event follows the version before it: a subscription never meets an
      entry it can't use, its version grows, and whoever holds the true body at
      the version before holds the true body after. Without an event, it is up
      to date. */
  lemma ReceiveOk<B, D>(apply: (B, D) -> B, maxDiffs: nat, bodies: seq<B>, st: Stored<B, D>, sub: Subscriber<B, D>)
    requires ViewOk(apply, maxDiffs, bodies, st) && SubOk(apply, bodies, sub)
    ensures
      var (sub', result) := Receive(sub, st.log);
      && SubOk(apply, bodies, sub')
      && match result
         case None => sub' == sub && sub.version == |bodies|
         case Some(parsed) =>
           && parsed.Ok?
           && sub.version < sub'.version
           && Updated(apply, Versioned(sub.version, bodies[sub.version - 1]), parsed.value) == Versioned(sub'.version, bodies[sub'.version - 1])
  {
    FilledOk(apply, maxDiffs, bodies, st, sub);
    var filled := Filled(sub, st.log);
    if filled.pending != [] {
      var e := filled.pending[0];
      assert True(apply, bodies, e);
      var rest := filled.pending[1..];
      assert forall i :: 0 <= i < |rest| ==> rest[i] == filled.pending[i + 1];
    }
  }

  /** Replaying the history gives the true body at its end. */
  lemma {:induction false} ReplayIs<B, D>(apply: (B, D) -> B, bodies: seq<B>, log: seq<LogEntry<B, D>>, diffs: seq<D>)
    requires |diffs| < |log| && Contiguous(log) && (forall i :: 0 <= i < |log| ==> True(apply, bodies, log[i])) && log[0].base.Some?
    requires forall i :: 0 <= i < |diffs| ==> log[i + 1].diff == Some(diffs[i])
    ensures
      var v := log[0].id.ms + |diffs|;
      1 <= v <= |bodies| && Replay(apply, Versioned(log[0].id.ms, log[0].base.value), diffs) == Versioned(v, bodies[v - 1])
    decreases |diffs|
  {
    assert True(apply, bodies, log[|diffs|]);
    if diffs != [] {
      ReplayIs(apply, bodies, log, diffs[..|diffs| - 1]);
    }
  }

  // --- The exact history, and the exact events ---

  /** The entry of version `v`: what was committed for it, and the body if the
      history starts there. */
  ghost function EntryOf<B, D>(bodies: seq<B>, diffs: seq<D>, v: nat, first: bool): LogEntry<B, D>
    requires 1 <= v <= |bodies| && |bodies| == |diffs| + 1
  {
    LogEntry(EntryId(v, 0), if first then Some(bodies[v - 1]) else None, if v == 1 then None else Some(diffs[v - 2]))
  }

  /** How many versions the history goes back when the head is at version `n`. */
  function Kept(maxDiffs: nat, n: nat): nat {
    if n == 0 then 0 else (n - 1) % (maxDiffs + 1) + 1
  }

  lemma KeptNext(maxDiffs: nat, n: nat)
    ensures Kept(maxDiffs, n) <= n && Kept(maxDiffs, n) <= maxDiffs + 1 && (n > 0 ==> Kept(maxDiffs, n) > 0)
    ensures Kept(maxDiffs, n + 1) == if Kept(maxDiffs, n) <= maxDiffs then Kept(maxDiffs, n) + 1 else 1
  {
    if n > 0 {
      Remainder(n - 1, maxDiffs + 1);
    }
  }

  lemma Remainder(x: nat, m: nat)
    requires m > 0
    ensures x % m <= x
    ensures (x + 1) % m == if x % m + 1 < m then x % m + 1 else 0
  {
    var q, r := x / m, x % m;
    assert x == q * m + r;
    if r + 1 < m {
      RemainderIs(x + 1, q, r + 1, m);
    } else {
      assert x + 1 == (q + 1) * m;
      RemainderIs(x + 1, q + 1, 0, m);
    }
  }

  lemma RemainderIs(x: nat, q: nat, r: nat, m: nat)
    requires r < m && x == q * m + r
    ensures x % m == r
  {
    var d := x / m;
    assert x == d * m + x % m;
    if d < q {
      Scale(d, q, m);
    } else if d > q {
      Scale(q, d, m);
    }
  }

  /** The history holds the entry of every version it goes back to, and goes
      back as far as `maxDiffs` allows: it starts over only when it is full. */
  ghost predicate HistoryIs<B, D>(maxDiffs: nat, bodies: seq<B>, diffs: seq<D>, log: seq<LogEntry<B, D>>) {
    if bodies == [] then diffs == [] && log == []
    else
      var n := |log|;
      && |bodies| == |diffs| + 1
      && n == Kept(maxDiffs, |bodies|) <= |bodies|
      && forall i :: 0 <= i < n ==> log[i] == EntryOf(bodies, diffs, |bodies| - n + 1 + i, i == 0)
  }

  /** What is buffered is what was committed. */
  ghost predicate PendingIs<B, D>(bodies: seq<B>, diffs: seq<D>, pending: seq<LogEntry<B, D>>) {
    && |bodies| == |diffs| + 1
    && forall i :: 0 <= i < |pending| ==> Authentic(bodies, diffs, pending[i])
  }

  ghost predicate Authentic<B, D>(bodies: seq<B>, diffs: seq<D>, e: LogEntry<B, D>)
    requires |bodies| == |diffs| + 1
  {
    1 <= e.id.ms <= |bodies| && e == EntryOf(bodies, diffs, e.id.ms, e.base.Some?)
  }

  lemma CreateHistory<B, D>(maxDiffs: nat, st: Stored<B, D>, body: B)
    requires st.head.None?
    ensures HistoryIs(maxDiffs, [body], [], Create(st, body).0.log)
  {
    Remainder(0, maxDiffs + 1);
    assert 0 % (maxDiffs + 1) == 0 by { RemainderIs(0, 0, 0, maxDiffs + 1); }
  }

  lemma EntryStays<B, D>(bodies: seq<B>, diffs: seq<D>, body: B, diff: D, v: nat, first: bool)
    requires 1 <= v <= |bodies| + 1 && |bodies| == |diffs| + 1
    ensures EntryOf(bodies + [body], diffs + [diff], v, first) ==
            if v <= |bodies| then EntryOf(bodies, diffs, v, first)
            else LogEntry(EntryId(v, 0), if first then Some(body) else None, Some(diff))
  {
  }

  lemma AppendedHistory<B, D>(maxDiffs: nat, bodies: seq<B>, diffs: seq<D>, log: seq<LogEntry<B, D>>, body: B, diff: D)
    requires bodies != [] && HistoryIs(maxDiffs, bodies, diffs, log) && |log| <= maxDiffs
    ensures HistoryIs(maxDiffs, bodies + [body], diffs + [diff], log + [LogEntry(EntryId(|bodies| + 1, 0), None, Some(diff))])
  {
    hide Kept, EntryOf;
    KeptNext(maxDiffs, |bodies|);
    var log' := log + [LogEntry(EntryId(|bodies| + 1, 0), None, Some(diff))];
    forall i | 0 <= i < |log'|
      ensures log'[i] == EntryOf(bodies + [body], diffs + [diff], |bodies| - |log| + 1 + i, i == 0)
    {
      EntryStays(bodies, diffs, body, diff, |bodies| - |log| + 1 + i, i == 0);
    }
  }

  lemma SquashedHistory<B, D>(maxDiffs: nat, bodies: seq<B>, diffs: seq<D>, log: seq<LogEntry<B, D>>, body: B, diff: D)
    requires bodies != [] && HistoryIs(maxDiffs, bodies, diffs, log) && |log| > maxDiffs
    ensures HistoryIs(maxDiffs, bodies + [body], diffs + [diff], [LogEntry(EntryId(|bodies| + 1, 0), Some(body), Some(diff))])
  {
    hide Kept, EntryOf;
    KeptNext(maxDiffs, |bodies|);
    EntryStays(bodies, diffs, body, diff, |bodies| + 1, true);
  }

  /** A commit adds its own diff to the history, which starts over only if it was full. */
  lemma CommitHistory<B, D>(apply: (B, D) -> B, maxDiffs: nat, bodies: seq<B>, diffs: seq<D>, st: Stored<B, D>,
                            parent: nat, diff: D, body: B)
    requires ViewOk(apply, maxDiffs, bodies, st) && HistoryIs(maxDiffs, bodies, diffs, st.log)
    ensures
      var (st', reply) := CommitTo(st, maxDiffs, parent, diff, body);
      if reply.Committed? then HistoryIs(maxDiffs, bodies + [body], diffs + [diff], st'.log) else st' == st
  {
    hide True, Contiguous, HistoryIs;
    var (st', reply) := CommitTo(st, maxDiffs, parent, diff, body);
    if reply.Committed? {
      if |st.log| > maxDiffs {
        SquashedHistory(maxDiffs, bodies, diffs, st.log, body, diff);
      } else {
        AppendedHistory(maxDiffs, bodies, diffs, st.log, body, diff);
      }
    }
  }

  lemma PendingGrows<B, D>(bodies: seq<B>, diffs: seq<D>, pending: seq<LogEntry<B, D>>, body: B, diff: D)
    requires PendingIs(bodies, diffs, pending)
    ensures PendingIs(bodies + [body], diffs + [diff], pending)
  {
  }

  lemma SliceIs<B, D>(maxDiffs: nat, bodies: seq<B>, diffs: seq<D>, log: seq<LogEntry<B, D>>, from: nat, to: nat)
    requires HistoryIs(maxDiffs, bodies, diffs, log) && bodies != [] && from <= to <= |log|
    ensures PendingIs(bodies, diffs, log[from..to])
  {
    hide Kept;
  }

  /** What a batched read buffers. */
  lemma FilledIs<B, D>(apply: (B, D) -> B, maxDiffs: nat, bodies: seq<B>, diffs: seq<D>, st: Stored<B, D>, sub: Subscriber<B, D>)
    requires ViewOk(apply, maxDiffs, bodies, st) && HistoryIs(maxDiffs, bodies, diffs, st.log) && SubOk(apply, bodies, sub)
    requires PendingIs(bodies, diffs, sub.pending)
    ensures PendingIs(bodies, diffs, Filled(sub, st.log).pending)
    ensures
      var first := |bodies| - |st.log| + 1;
      sub.pending == [] && sub.version < |bodies| ==>
        var pending := Filled(sub, st.log).pending;
        pending != [] && pending[0].id.ms == (if sub.version + 1 >= first then sub.version + 1 else first)
        && (pending[0].base.Some? <==> pending[0].id.ms == first)
  {
    hide True, EntriesAfter, Kept;
    if sub.pending == [] {
      forall i | 0 <= i < |st.log|
        ensures st.log[i].id.sq == 0
      {
        TrueSq(apply, bodies, st.log[i]);
      }
      EntriesAre(st.log, sub.version, READ_BATCH);
      assert sub.after == EntryId(sub.version, 0);
      var first := st.log[0].id.ms;
      assert first == |bodies| - |st.log| + 1;
      var from := if sub.version < first then 0 else sub.version + 1 - first;
      if from < |st.log| {
        var to := Least(from + READ_BATCH, |st.log|);
        SliceIs(maxDiffs, bodies, diffs, st.log, from, to);
        assert st.log[from..to][0] == st.log[from];
      }
    }
  }

  /** The next event, exactly: the diff committed for the next version, if it is
      buffered or still in the history; otherwise the body the history starts
      with, or the one that was buffered. */
  lemma ReceiveExactly<B, D>(apply: (B, D) -> B, maxDiffs: nat, bodies: seq<B>, diffs: seq<D>, st: Stored<B, D>, sub: Subscriber<B, D>)
    requires ViewOk(apply, maxDiffs, bodies, st) && HistoryIs(maxDiffs, bodies, diffs, st.log)
    requires SubOk(apply, bodies, sub) && PendingIs(bodies, diffs, sub.pending)
    ensures
      var (sub', result) := Receive(sub, st.log);
      && PendingIs(bodies, diffs, sub'.pending)
      && Expected(bodies, diffs, |st.log|, sub, result)
  {
    hide True, EntriesAfter, Kept, Contiguous, HistoryIs;
    FilledOk(apply, maxDiffs, bodies, st, sub);
    FilledIs(apply, maxDiffs, bodies, diffs, st, sub);
    var filled := Filled(sub, st.log);
    if filled.pending != [] {
      assert Authentic(bodies, diffs, filled.pending[0]);
      assert forall i :: 0 <= i < |filled.pending| - 1 ==> filled.pending[1..][i] == filled.pending[i + 1];
    }
  }

  /** What a subscription receives next of a history of `n` entries. */
  ghost predicate Expected<B, D>(bodies: seq<B>, diffs: seq<D>, n: nat, sub: Subscriber<B, D>, result: Option<Parsed<Event<B, D>>>) {
    && |bodies| == |diffs| + 1 && 1 <= sub.version <= |bodies|
    && if sub.pending == [] && sub.version == |bodies| then result == None
       else
         var first := if sub.pending == [] then |bodies| - n + 1 else sub.pending[0].id.ms;
         if first <= sub.version + 1 then
           sub.version < |bodies| && result == Some(Ok(Diff(sub.version + 1, diffs[sub.version - 1])))
         else
           1 <= first <= |bodies| && result == Some(Ok(Snapshot(Versioned(first, bodies[first - 1]))))
  }

  // --- As the source keeps it ---

  class View<B(!new), D(!new)> {
    var head: Option<Versioned<B>>
    var log: seq<LogEntry<B, D>>
    const maxDiffs: nat
    const apply: (B, D) -> B
    /** The body of every version so far, and the diffs committed. */
    ghost var bodies: seq<B>
    ghost var diffs: seq<D>

    ghost predicate Valid()
      reads this
    {
      ViewOk(apply, maxDiffs, bodies, Value()) && HistoryIs(maxDiffs, bodies, diffs, log)
    }

    ghost function Value(): Stored<B, D>
      reads this
    {
      Stored(head, log)
    }

    constructor (maxDiffs: nat, apply: (B, D) -> B)
      ensures Valid() && Value() == Stored(None, []) && this.maxDiffs == maxDiffs && this.apply == apply
    {
      this.maxDiffs, this.apply := maxDiffs, apply;
      head, log, bodies, diffs := None, [], [], [];
    }

    /** The `CREATE` script. */
    method RunCreate(body: B) returns (created: bool)
      requires Valid()
      modifies this
      ensures Valid() && (Value(), created) == Create(old(Value()), body)
      ensures created ==> bodies == [body] && diffs == []
      ensures !created ==> bodies == old(bodies) && diffs == old(diffs)
    {
      hide HistoryIs;
      CreateOk(apply, maxDiffs, bodies, Value(), body);
      if head.Some? {
        return false;
      }
      CreateHistory(maxDiffs, Value(), body);
      head := Some(Versioned(1, body));
      log := [];
      log := log + [LogEntry(EntryId(1, 0), Some(body), None)];
      assert log == [LogEntry(EntryId(1, 0), Some(body), None)];
      bodies, diffs := [body], [];
      created := true;
    }

    /** The `COMMIT` script. */
    method RunCommit(parent: nat, diff: D, body: B) returns (reply: Commit)
      requires Valid()
      requires head.Some? && head.value.version == parent ==> body == apply(head.value.body, diff)
      modifies this
      ensures Valid() && (Value(), reply) == CommitTo(old(Value()), maxDiffs, parent, diff, body)
      ensures reply.Committed? ==> bodies == old(bodies) + [body] && diffs == old(diffs) + [diff]
      ensures !reply.Committed? ==> bodies == old(bodies) && diffs == old(diffs)
      ensures reply.Committed? <==> old(bodies) != [] && parent == |old(bodies)|
    {
      hide HistoryIs, True, Contiguous;
      CommitOk(apply, maxDiffs, bodies, Value(), parent, diff, body);
      CommitHistory(apply, maxDiffs, bodies, diffs, Value(), parent, diff, body);
      if head.None? {
        return Absent;
      }
      if head.value.version != parent {
        return Conflict(head.value.version);
      }
      var version := head.value.version + 1;
      head := Some(Versioned(version, body));
      if |log| > maxDiffs {
        log := [];
        log := log + [LogEntry(EntryId(version, 0), Some(body), Some(diff))];
        assert log == [LogEntry(EntryId(version, 0), Some(body), Some(diff))];
      } else {
        log := log + [LogEntry(EntryId(version, 0), None, Some(diff))];
      }
      bodies, diffs := bodies + [body], diffs + [diff];
      reply := Committed(version);
    }

    /** Reads the history back: it is never corrupted, is the base the view keeps
        with every diff committed since, and replaying it gives the head. */
    method ReadHistory() returns (result: Parsed<Option<History<B, D>>>)
      requires Valid()
      ensures result.Ok?
      ensures result.value.None? <==> head.None?
      ensures result.value.Some? ==>
                var n := Kept(maxDiffs, |bodies|);
                && 1 <= n <= |bodies| == |diffs| + 1
                && result.value.value == History(Versioned(|bodies| - n + 1, bodies[|bodies| - n]), diffs[|bodies| - n..])
                && |result.value.value.diffs| <= maxDiffs
                && Some(Replay(apply, result.value.value.base, result.value.value.diffs)) == head
    {
      hide Kept;
      KeptNext(maxDiffs, |bodies|);
      var entries := log;
      if entries == [] {
        return Ok(None);
      }
      var first := entries[0];
      if first.base.None? {
        return Corrupted;
      }
      var baseVersion := EntryVersion(first);
      if baseVersion.Corrupted? {
        return Corrupted;
      }
      var base := Versioned(baseVersion.value, first.base.value);
      var diffs: seq<D> := [];
      var version := base.version;
      assert forall i :: 0 < i < |entries| ==> True(apply, bodies, entries[i]) && entries[i].diff.Some?;
      for n := 1 to |entries|
        invariant version == base.version + n - 1 && |diffs| == n - 1
        invariant forall i :: 0 <= i < n - 1 ==> entries[i + 1].diff == Some(diffs[i])
      {
        var parsed := ParseEvent(entries[n], version);
        if parsed.Corrupted? || parsed.value.Snapshot? {
          return Corrupted;
        }
        version := parsed.value.version;
        diffs := diffs + [parsed.value.diff];
      }
      ReplayIs(apply, bodies, entries, diffs);
      DiffsAre(maxDiffs, bodies, this.diffs, entries, diffs);
      result := Ok(Some(History(base, diffs)));
    }
  }

  /** The diffs read from a history are those committed since its base. */
  lemma DiffsAre<B, D>(maxDiffs: nat, bodies: seq<B>, diffs: seq<D>, log: seq<LogEntry<B, D>>, read: seq<D>)
    requires bodies != [] && HistoryIs(maxDiffs, bodies, diffs, log) && log != [] && |read| == |log| - 1
    requires forall i :: 0 <= i < |read| ==> log[i + 1].diff == Some(read[i])
    ensures |log| <= |bodies| && read == diffs[|bodies| - |log|..]
    ensures log[0].id.ms == |bodies| - |log| + 1 && log[0].base == Some(bodies[|bodies| - |log|])
  {
    hide Kept;
    forall i | 0 <= i < |read|
      ensures read[i] == diffs[|bodies| - |log| + i]
    {
      assert log[i + 1] == EntryOf(bodies, diffs, |bodies| - |log| + 2 + i, false);
    }
  }

  /** Applies the diffs of a history to its base. */
  method IntoLatest<B, D>(apply: (B, D) -> B, history: History<B, D>) returns (latest: Versioned<B>)
    ensures latest == Replay(apply, history.base, history.diffs)
  {
    latest := history.base;
    for i := 0 to |history.diffs|
      invariant latest == Replay(apply, history.base, history.diffs[..i])
    {
      assert history.diffs[..i + 1][..i] == history.diffs[..i];
      latest := Versioned(latest.version + 1, apply(latest.body, history.diffs[i]));
    }
    assert history.diffs[..|history.diffs|] == history.diffs;
  }

  /** Reads a stream in batches. */
  class StreamCursor<B(!new), D(!new)> {
    var after: EntryId
    var pending: seq<LogEntry<B, D>>

    constructor (after: EntryId)
      ensures this.after == after && pending == []
    {
      this.after, pending := after, [];
    }

    /** The next entry of `log`, `None` if there is none. */
    method Next(log: seq<LogEntry<B, D>>) returns (entry: Option<LogEntry<B, D>>)
      modifies this
      ensures
        var filled := Filled(Subscriber(0, old(after), old(pending)), log);
        && after == filled.after
        && if filled.pending == [] then entry == None && pending == []
           else entry == Some(filled.pending[0]) && pending == filled.pending[1..]
    {
      if pending != [] {
        entry, pending := Some(pending[0]), pending[1..];
        return;
      }
      var entries := EntriesAfter(log, after, READ_BATCH);
      if entries == [] {
        return None;
      }
      after := entries[|entries| - 1].id;
      pending := entries;
      entry, pending := Some(pending[0]), pending[1..];
    }
  }

  /** A subscription together with the body its events are applied to. */
  class Subscription<B(!new), D(!new)> {
    const cursor: StreamCursor<B, D>
    var version: nat
    var view: Versioned<B>

    ghost function Value(): Subscriber<B, D>
      reads this, cursor
    {
      Subscriber(version, cursor.after, cursor.pending)
    }

    /** The subscription holds the true body at its version. */
    ghost predicate Follows(apply: (B, D) -> B, bodies: seq<B>, diffs: seq<D>)
      reads this, cursor
    {
      && SubOk(apply, bodies, Value())
      && PendingIs(bodies, diffs, cursor.pending)
      && view == Versioned(version, bodies[version - 1])
    }

    /** Follows a view from the body at a version it had. */
    constructor (view: Versioned<B>, ghost apply: (B, D) -> B, ghost bodies: seq<B>, ghost diffs: seq<D>)
      requires 1 <= view.version <= |bodies| == |diffs| + 1 && view.body == bodies[view.version - 1]
      ensures Follows(apply, bodies, diffs) && fresh(cursor) && this.view == view
    {
      this.version := view.version;
      this.view := view;
      this.cursor := new StreamCursor(EntryId(view.version, 0));
    }

    /** Receives the next change and applies it: it is never corrupted, the
        version grows and the body is the true one at the new version; nothing
        is received exactly when the body is the head's. The change is the diff
        committed for the next version unless that was squashed before it was read. */
    method Recv(stored: View<B, D>) returns (event: Option<Parsed<Event<B, D>>>)
      requires stored.Valid() && Follows(stored.apply, stored.bodies, stored.diffs)
      modifies this, cursor
      ensures Follows(stored.apply, stored.bodies, stored.diffs)
      ensures Expected(stored.bodies, stored.diffs, |stored.log|, old(Value()), event)
      ensures (Value(), event) == Receive(old(Value()), stored.log)
      ensures event.Some? ==> event.value.Ok? && old(version) < version
      ensures event.None? ==> view == old(view)
      ensures event.None? <==> Some(old(view)) == stored.head && old(cursor.pending) == []
    {
      hide True, Contiguous, EntriesAfter, HistoryIs, PendingIs, Expected;
      ReceiveExactly(stored.apply, stored.maxDiffs, stored.bodies, stored.diffs, stored.Value(), Value());
      ReceiveOk(stored.apply, stored.maxDiffs, stored.bodies, stored.Value(), Value());
      FilledOk(stored.apply, stored.maxDiffs, stored.bodies, stored.Value(), Value());
      var entry := cursor.Next(stored.log);
      if entry.None? {
        return None;
      }
      var parsed := ParseEvent(entry.value, version);
      if parsed.Corrupted? {
        return Some(Corrupted);
      }
      view := Updated(stored.apply, view, parsed.value);
      version := VersionOf(parsed.value);
      event := Some(parsed);
    }
  }

  // --- Whole runs ---

  /** A client creates the view again or commits, or the subscription looks for
      its next event. */
  datatype Op<B, D> = Creates(body: B) | Commits(parent: nat, diff: D, body: B) | Receives

  /** The view, the bodies and diffs committed, a subscription with its body, and
      the versions committed and received. */
  datatype World<B, D> = World(st: Stored<B, D>, bodies: seq<B>, diffs: seq<D>, sub: Subscriber<B, D>, body: Versioned<B>,
                               versions: seq<nat>, received: seq<nat>, failed: bool)

  ghost function Step<B, D>(apply: (B, D) -> B, maxDiffs: nat, w: World<B, D>, op: Op<B, D>): World<B, D> {
    match op
    case Creates(body) => w.(st := Create(w.st, body).0)
    case Commits(parent, diff, body) =>
      var (st, reply) := CommitTo(w.st, maxDiffs, parent, diff, body);
      w.(st := st,
         bodies := if reply.Committed? then w.bodies + [body] else w.bodies,
         diffs := if reply.Committed? then w.diffs + [diff] else w.diffs,
         versions := if reply.Committed? then w.versions + [reply.version] else w.versions)
    case Receives =>
      var (sub, result) := Receive(w.sub, w.st.log);
      if result.None? then w.(sub := sub)
      else if result.value.Corrupted? then w.(sub := sub, failed := true)
      else w.(sub := sub, body := Updated(apply, w.body, result.value.value), received := w.received + [sub.version])
  }

  /** Writers build on the body they name. */
  ghost predicate Honest<B, D>(apply: (B, D) -> B, w: World<B, D>, op: Op<B, D>) {
    op.Commits? && w.st.head.Some? && w.st.head.value.version == op.parent ==> op.body == apply(w.st.head.value.body, op.diff)
  }

  ghost predicate Runs<B, D>(apply: (B, D) -> B, maxDiffs: nat, w: World<B, D>, ops: seq<Op<B, D>>)
    decreases |ops|
  {
    ops != [] ==> Honest(apply, w, ops[0]) && Runs(apply, maxDiffs, Step(apply, maxDiffs, w, ops[0]), ops[1..])
  }

  ghost function After<B, D>(apply: (B, D) -> B, maxDiffs: nat, w: World<B, D>, ops: seq<Op<B, D>>): World<B, D>
    decreases |ops|
  {
    if ops == [] then w else After(apply, maxDiffs, Step(apply, maxDiffs, w, ops[0]), ops[1..])
  }

  ghost predicate WorldOk<B, D>(apply: (B, D) -> B, maxDiffs: nat, w: World<B, D>) {
    && ViewOk(apply, maxDiffs, w.bodies, w.st) && w.st.head.Some? && HistoryIs(maxDiffs, w.bodies, w.diffs, w.st.log)
    && SubOk(apply, w.bodies, w.sub) && PendingIs(w.bodies, w.diffs, w.sub.pending)
    && w.body == Versioned(w.sub.version, w.bodies[w.sub.version - 1])
    && |w.versions| == |w.bodies| - 1
    && (forall i :: 0 <= i < |w.versions| ==> w.versions[i] == i + 2)
    && Ascending(w.received, w.sub.version + 1)
    && !w.failed
  }

  /** Subscribing, or resuming from the body at any version the view had. */
  lemma ResumeOk<B, D>(apply: (B, D) -> B, maxDiffs: nat, bodies: seq<B>, diffs: seq<D>, st: Stored<B, D>, version: nat)
    requires ViewOk(apply, maxDiffs, bodies, st) && HistoryIs(maxDiffs, bodies, diffs, st.log) && 1 <= version <= |bodies|
    ensures WorldOk(apply, maxDiffs, World(st, bodies, diffs, Subscriber(version, EntryId(version, 0), []),
                                           Versioned(version, bodies[version - 1]), seq(|bodies| - 1, i => i + 2), [], false))
  {
  }

  lemma StepOk<B, D>(apply: (B, D) -> B, maxDiffs: nat, w: World<B, D>, op: Op<B, D>)
    requires WorldOk(apply, maxDiffs, w) && Honest(apply, w, op)
    ensures WorldOk(apply, maxDiffs, Step(apply, maxDiffs, w, op))
  {
    hide True, Contiguous, ViewOk, SubOk, Filled, ParseEvent, HistoryIs, PendingIs, Expected;
    if op.Commits? {
      CommitOk(apply, maxDiffs, w.bodies, w.st, op.parent, op.diff, op.body);
      CommitHistory(apply, maxDiffs, w.bodies, w.diffs, w.st, op.parent, op.diff, op.body);
      PendingGrows(w.bodies, w.diffs, w.sub.pending, op.body, op.diff);
      SubGrows(apply, w.bodies, op.body, w.sub);
      SubRange(apply, w.bodies, w.sub);
    } else if op.Receives? {
      SubRange(apply, w.bodies, w.sub);
      ReceiveOk(apply, maxDiffs, w.bodies, w.st, w.sub);
      ReceiveExactly(apply, maxDiffs, w.bodies, w.diffs, w.st, w.sub);
      SubRange(apply, w.bodies, Receive(w.sub, w.st.log).0);
    }
  }

  lemma SubRange<B, D>(apply: (B, D) -> B, bodies: seq<B>, sub: Subscriber<B, D>)
    requires SubOk(apply, bodies, sub)
    ensures 1 <= sub.version <= |bodies|
  {
  }

  /** However commits and squashes interleave with batched reads: the history
      and the head agree, the history holds exactly what was committed since it
      last was full, every version above 1 came from exactly one commit,
      and the subscription never fails, moves forward, and holds the true body
      at its version. */
  lemma {:induction false} RunsOk<B, D>(apply: (B, D) -> B, maxDiffs: nat, w: World<B, D>, ops: seq<Op<B, D>>)
    requires WorldOk(apply, maxDiffs, w) && Runs(apply, maxDiffs, w, ops)
    ensures WorldOk(apply, maxDiffs, After(apply, maxDiffs, w, ops))
    decreases |ops|
  {
    hide WorldOk, Step, Honest;
    if ops != [] {
      StepOk(apply, maxDiffs, w, ops[0]);
      RunsOk(apply, maxDiffs, Step(apply, maxDiffs, w, ops[0]), ops[1..]);
    }
  }

  /** A subscription catches up: with no commits in between, it reaches the head
      after at most as many events as versions it is behind. */
  lemma {:induction false} Drains<B, D>(apply: (B, D) -> B, maxDiffs: nat, w: World<B, D>, n: nat)
    requires WorldOk(apply, maxDiffs, w) && n >= |w.bodies| - w.sub.version
    ensures Some(After(apply, maxDiffs, w, seq(n, _ => Receives)).body) == w.st.head
    decreases n
  {
    hide True, Contiguous, SubOk, Filled, ParseEvent, ViewOk, HistoryIs, PendingIs;
    var ops: seq<Op<B, D>> := seq(n, _ => Receives);
    HeadIs(apply, maxDiffs, w.bodies, w.st);
    SubRange(apply, w.bodies, w.sub);
    if n > 0 {
      ReceiveOk(apply, maxDiffs, w.bodies, w.st, w.sub);
      StepOk(apply, maxDiffs, w, Receives);
      var w' := Step(apply, maxDiffs, w, Receives);
      SubRange(apply, w.bodies, w'.sub);
      assert ops[1..] == seq(n - 1, _ => Receives);
      Drains(apply, maxDiffs, w', n - 1);
    }
  }

  lemma HeadIs<B, D>(apply: (B, D) -> B, maxDiffs: nat, bodies: seq<B>, st: Stored<B, D>)
    requires ViewOk(apply, maxDiffs, bodies, st) && st.head.Some?
    ensures bodies != [] && st.head.value == Versioned(|bodies|, bodies[|bodies| - 1])
  {
  }
}
