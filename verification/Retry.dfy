/** Which retry records are pending and when their keys are due: as values, with
    what every read and attempt keeps, and as the object that holds them. */
module Retry {
  import opened Wrappers
  import opened Events

  /** A key's pending records, by offset, how many attempts failed in this round,
      and when the next one is due (ms). */
  datatype KeyRetry = KeyRetry(records: seq<nat>, attempt: nat, dueAt: int)

  datatype Schedule = Schedule(keys: map<Key, KeyRetry>, pending: nat)

  /** What became of a key that was attempted. */
  datatype Finish = Drained | Scheduled(attempt: nat, delay: nat) | GaveUp(dropped: nat)

  /** The wait after `attempt` failures. */
  function DelayFor(delays: seq<nat>, attempt: nat): (delay: nat)
    ensures delays != [] ==> delay == delays[Least(attempt, |delays| - 1)]
  {
    if attempt < |delays| then delays[attempt]
    else if delays != [] then delays[|delays| - 1]
    else 0
  }

  function Monus(a: int, b: int): nat {
    if a > b then a - b else 0
  }

  /** The pending records whose offset is not in `offsets`. */
  function Without(records: seq<nat>, offsets: seq<nat>): seq<nat> {
    if records == [] then []
    else
      var n := |records| - 1;
      Without(records[..n], offsets) + (if records[n] in offsets then [] else [records[n]])
  }

  function Enqueued(st: Schedule, delays: seq<nat>, key: Key, offset: nat, failedAt: nat, now: int, nowMs: nat): Schedule {
    var retry := if key in st.keys then st.keys[key]
                 else KeyRetry([], 0, now + Monus(DelayFor(delays, 0), Monus(nowMs, failedAt)));
    Schedule(st.keys[key := retry.(records := retry.records + [offset])], st.pending + 1)
  }

  /** The key after an attempt, and what happened to it. */
  function Attempted(retry: KeyRetry, delays: seq<nat>, resolved: seq<nat>, failed: seq<nat>, now: int): (KeyRetry, Finish) {
    var kept := Without(retry.records, resolved);
    if failed == [] then
      (KeyRetry(kept, retry.attempt, now), Scheduled(retry.attempt, 0))
    else if retry.attempt + 1 < |delays| then
      var delay := delays[retry.attempt + 1];
      (KeyRetry(kept, retry.attempt + 1, now + delay), Scheduled(retry.attempt + 1, delay))
    else
      var left := Without(kept, failed);
      (KeyRetry(left, 0, now), GaveUp(Monus(|kept|, |left|)))
  }

  function Finished(st: Schedule, delays: seq<nat>, key: Key, resolved: seq<nat>, failed: seq<nat>, now: int): (Schedule, Finish) {
    if key !in st.keys then (st, Drained)
    else
      var (retry, finish) := Attempted(st.keys[key], delays, resolved, failed, now);
      var pending := Monus(st.pending, |st.keys[key].records| - |retry.records|);
      if retry.records == [] then
        (Schedule(st.keys - {key}, pending), if failed == [] then Drained else finish)
      else
        (Schedule(st.keys[key := retry], pending), finish)
  }

  /** Record `o` is pending. */
  ghost predicate Pending(st: Schedule, o: nat) {
    exists k: Key :: k in st.keys && o in st.keys[k].records
  }

  lemma Inhabited(keys: set<Key>)
    ensures keys == {} || exists k: Key :: k in keys
  {
    if forall k: Key :: k !in keys {
      assert keys == {};
    }
  }

  /** Records over the keys. */
  ghost function TotalLen(keys: map<Key, KeyRetry>): nat {
    if keys.Keys == {} then 0
    else
      Inhabited(keys.Keys);
      var k: Key :| k in keys.Keys;
      |keys[k].records| + TotalLen(keys - {k})
  }

  /** No key has an empty queue, queues are in offset order and were read, no
      record is in two queues, `pending` counts them, and a key that is still
      scheduled has delays left. */
  ghost predicate Valid(st: Schedule, delays: seq<nat>, nextRead: nat) {
    && delays != []
    && (forall k :: k in st.keys ==>
          && st.keys[k].records != []
          && Increasing(st.keys[k].records)
          && st.keys[k].attempt < |delays|
          && forall o: nat :: o in st.keys[k].records ==> o < nextRead)
    && (forall k, k', o: nat :: k in st.keys && k' in st.keys && o in st.keys[k].records && o in st.keys[k'].records ==> k == k')
    && st.pending == TotalLen(st.keys)
  }

  lemma {:induction false} TotalRemove(keys: map<Key, KeyRetry>, k: Key)
    requires k in keys
    ensures TotalLen(keys) == |keys[k].records| + TotalLen(keys - {k})
    decreases |keys|
  {
    Inhabited(keys.Keys);
    var k': Key :| k' in keys.Keys && TotalLen(keys) == |keys[k'].records| + TotalLen(keys - {k'});
    if k' != k {
      TotalRemove(keys - {k'}, k);
      TotalRemove(keys - {k}, k');
      assert keys - {k'} - {k} == keys - {k} - {k'};
    }
  }

  lemma TotalUpdate(keys: map<Key, KeyRetry>, k: Key, r: KeyRetry)
    ensures TotalLen(keys[k := r]) == TotalLen(keys - {k}) + |r.records|
  {
    TotalRemove(keys[k := r], k);
    assert keys[k := r] - {k} == keys - {k};
  }

  lemma {:induction false} WithoutMember(records: seq<nat>, offsets: seq<nat>, o: nat)
    ensures o in Without(records, offsets) <==> o in records && o !in offsets
  {
    if records != [] {
      var n := |records| - 1;
      WithoutMember(records[..n], offsets, o);
      assert records == records[..n] + [records[n]];
    }
  }

  /** Nothing is removed, or the queue gets shorter. */
  lemma {:induction false} WithoutShorter(records: seq<nat>, offsets: seq<nat>)
    ensures Without(records, offsets) == records || |Without(records, offsets)| < |records|
  {
    if records != [] {
      var n := |records| - 1;
      WithoutShorter(records[..n], offsets);
      assert records == records[..n] + [records[n]];
    }
  }

  lemma {:induction false} WithoutIncreasing(records: seq<nat>, offsets: seq<nat>)
    requires Increasing(records)
    ensures Increasing(Without(records, offsets))
  {
    if records != [] {
      var n := |records| - 1;
      var rest := Without(records[..n], offsets);
      WithoutIncreasing(records[..n], offsets);
      forall a | 0 <= a < |rest|
        ensures rest[a] < records[n]
      {
        WithoutMember(records[..n], offsets, rest[a]);
      }
    }
  }

  lemma WithoutIs(records: seq<nat>, offsets: seq<nat>)
    ensures forall o: nat :: o in Without(records, offsets) <==> o in records && o !in offsets
    ensures Increasing(records) ==> Increasing(Without(records, offsets))
    ensures Without(records, offsets) == records || |Without(records, offsets)| < |records|
  {
    forall o: nat
      ensures o in Without(records, offsets) <==> o in records && o !in offsets
    {
      WithoutMember(records, offsets, o);
    }
    if Increasing(records) {
      WithoutIncreasing(records, offsets);
    }
    WithoutShorter(records, offsets);
  }

  /** A key after an attempt keeps, in order, what was neither resolved nor
      given up. */
  lemma AttemptedIs(retry: KeyRetry, delays: seq<nat>, resolved: seq<nat>, failed: seq<nat>, now: int)
    ensures
      var (r, f) := Attempted(retry, delays, resolved, failed, now);
      && (forall o: nat :: o in r.records <==>
            o in retry.records && o !in resolved && !(f.GaveUp? && o in failed))
      && (failed == [] ==> !f.GaveUp? && r.attempt == retry.attempt && r.dueAt == now)
      && (Increasing(retry.records) ==> Increasing(r.records))
      && |r.records| <= |retry.records|
  {
    hide Without, Increasing;
    WithoutIs(retry.records, resolved);
    WithoutIs(Without(retry.records, resolved), failed);
  }

  /** What `Finished` does to its key and to the others. */
  lemma FinishedIs(st: Schedule, delays: seq<nat>, key: Key, resolved: seq<nat>, failed: seq<nat>, now: int)
    requires key in st.keys
    ensures
      var (st', finish) := Finished(st, delays, key, resolved, failed, now);
      var (r, f) := Attempted(st.keys[key], delays, resolved, failed, now);
      && (finish == if failed == [] && r.records == [] then Drained else f)
      && (f.GaveUp? ==> failed != [])
      && (forall k :: k in st.keys && k != key ==> k in st'.keys && st'.keys[k] == st.keys[k])
      && (forall k :: k in st'.keys ==> k in st.keys && (k != key ==> st'.keys[k] == st.keys[k]))
      && (key in st'.keys <==> r.records != [])
      && (r.records != [] ==> st'.keys[key] == r)
  {
    hide Without;
  }

  lemma EnqueuedPending(st: Schedule, delays: seq<nat>, key: Key, offset: nat, failedAt: nat, now: int, nowMs: nat, x: nat)
    ensures Pending(Enqueued(st, delays, key, offset, failedAt, now, nowMs), x) <==> Pending(st, x) || x == offset
  {
    var st' := Enqueued(st, delays, key, offset, failedAt, now, nowMs);
    assert offset in st'.keys[key].records;
    if Pending(st, x) {
      var k: Key :| k in st.keys && x in st.keys[k].records;
      assert x in st'.keys[k].records;
    }
  }

  lemma EnqueueValid(st: Schedule, delays: seq<nat>, nextRead: nat, key: Key, offset: nat, failedAt: nat, now: int, nowMs: nat)
    requires Valid(st, delays, nextRead) && offset >= nextRead
    ensures Valid(Enqueued(st, delays, key, offset, failedAt, now, nowMs), delays, offset + 1)
  {
    var st' := Enqueued(st, delays, key, offset, failedAt, now, nowMs);
    TotalUpdate(st.keys, key, st'.keys[key]);
    if key in st.keys {
      TotalRemove(st.keys, key);
      var records := st.keys[key].records;
      assert forall i :: 0 <= i < |records| ==> records[i] in records;
    } else {
      assert st.keys - {key} == st.keys;
    }
  }

  /** An attempt keeps the schedule valid and never touches other keys. */
  lemma FinishValid(st: Schedule, delays: seq<nat>, nextRead: nat, key: Key, resolved: seq<nat>, failed: seq<nat>, now: int)
    requires Valid(st, delays, nextRead)
    ensures Valid(Finished(st, delays, key, resolved, failed, now).0, delays, nextRead)
    ensures forall o: nat :: Pending(Finished(st, delays, key, resolved, failed, now).0, o) ==> Pending(st, o)
    ensures forall k :: k in st.keys && k != key ==>
              k in Finished(st, delays, key, resolved, failed, now).0.keys
              && Finished(st, delays, key, resolved, failed, now).0.keys[k] == st.keys[k]
  {
    if key in st.keys {
      AttemptedIs(st.keys[key], delays, resolved, failed, now);
      var r := Attempted(st.keys[key], delays, resolved, failed, now).0;
      TotalRemove(st.keys, key);
      TotalUpdate(st.keys, key, r);
    }
  }

  /** `committable` is the greatest offset with nothing pending up to it. */
  ghost predicate IsCommittable(st: Schedule, nextRead: nat, committable: Option<nat>) {
    var count := if committable.Some? then committable.value + 1 else 0;
    && count <= nextRead
    && (forall o: nat :: Pending(st, o) ==> count <= o)
    && (count == nextRead || Pending(st, count))
  }

  /** What can be committed is determined by what is pending. */
  lemma CommittableUnique(st: Schedule, nextRead: nat, a: Option<nat>, b: Option<nat>)
    requires IsCommittable(st, nextRead, a) && IsCommittable(st, nextRead, b)
    requires forall o: nat :: Pending(st, o) ==> o < nextRead
    ensures a == b
  {
  }

  /** Reading further and finishing attempts never move the commit back. */
  lemma CommittableMonotone(st: Schedule, nextRead: nat, a: Option<nat>, st': Schedule, nextRead': nat, b: Option<nat>)
    requires IsCommittable(st, nextRead, a) && IsCommittable(st', nextRead', b) && nextRead <= nextRead'
    requires forall o: nat :: Pending(st', o) ==> Pending(st, o) || o >= nextRead
    ensures a.Some? ==> b.Some? && a.value <= b.value
  {
  }

  // --- Termination ---

  /** Outcome of one attempt: the records of completed and of failed runs. */
  datatype Report = Report(resolved: seq<nat>, failed: seq<nat>, now: int)

  /** What an execution of every pending record reports: either all completed,
      or some run failed, whose records are pending and not completed. */
  ghost predicate ReportOf(records: seq<nat>, r: Report) {
    if r.failed == [] then forall o: nat :: o in records ==> o in r.resolved
    else forall o: nat :: o in r.failed ==> o in records && o !in r.resolved
  }

  ghost function Rank(retry: KeyRetry, delays: seq<nat>): int {
    |retry.records| * |delays| + |delays| - retry.attempt
  }

  lemma FirstOf(s: seq<nat>)
    ensures s == [] || s[0] in s
  {
  }

  /** Every attempt drains the key, or leaves fewer records, or as many and
      fewer delays before it gives up. */
  lemma AttemptDecreases(retry: KeyRetry, delays: seq<nat>, r: Report)
    requires retry.attempt < |delays| && Increasing(retry.records) && ReportOf(retry.records, r)
    ensures
      var (next, _) := Attempted(retry, delays, r.resolved, r.failed, r.now);
      || next.records == []
      || ((|next.records| < |retry.records|
           || (|next.records| == |retry.records| && next.attempt > retry.attempt))
          && next.attempt < |delays|
          && Rank(next, delays) < Rank(retry, delays))
  {
    var (next, finish) := Attempted(retry, delays, r.resolved, r.failed, r.now);
    AttemptedIs(retry, delays, r.resolved, r.failed, r.now);
    WithoutIs(retry.records, r.resolved);
    WithoutIs(Without(retry.records, r.resolved), r.failed);
    if r.failed == [] {
      assert forall o: nat :: o !in next.records;
      FirstOf(next.records);
    } else if next.records != [] {
      if finish.GaveUp? {
        assert r.failed[0] in r.failed && r.failed[0] in retry.records && r.failed[0] !in next.records;
      }
      if |next.records| < |retry.records| {
        Scale(|next.records|, |retry.records|, |delays|);
      }
    }
  }

  /** Attempts on one key, none of which drained it before the last. */
  ghost predicate AttemptsOk(retry: KeyRetry, delays: seq<nat>, reports: seq<Report>)
    decreases |reports|
  {
    reports != [] ==>
      && retry.records != []
      && ReportOf(retry.records, reports[0])
      && AttemptsOk(Attempted(retry, delays, reports[0].resolved, reports[0].failed, reports[0].now).0, delays, reports[1..])
  }

  /** With no new arrivals a key drains after finitely many attempts, whatever
      the handlers answer. */
  lemma {:induction false} KeyDrains(retry: KeyRetry, delays: seq<nat>, reports: seq<Report>)
    requires retry.attempt < |delays| && Increasing(retry.records) && AttemptsOk(retry, delays, reports)
    ensures |reports| <= Rank(retry, delays)
    decreases |reports|
  {
    if reports != [] {
      var r := reports[0];
      var next := Attempted(retry, delays, r.resolved, r.failed, r.now).0;
      AttemptedIs(retry, delays, r.resolved, r.failed, r.now);
      AttemptDecreases(retry, delays, r);
      if next.records == [] {
        assert |reports[1..]| == 0;
        Scale(0, |retry.records|, |delays|);
      } else {
        KeyDrains(next, delays, reports[1..]);
      }
    } else {
      Scale(0, |retry.records| + 1, |delays|);
    }
  }

  /** The key after a sequence of attempts. */
  ghost function AttemptedAll(retry: KeyRetry, delays: seq<nat>, reports: seq<Report>): KeyRetry
    decreases |reports|
  {
    if reports == [] then retry
    else
      var r := reports[0];
      AttemptedAll(Attempted(retry, delays, r.resolved, r.failed, r.now).0, delays, reports[1..])
  }

  lemma {:induction false} NeverReturns(retry: KeyRetry, delays: seq<nat>, reports: seq<Report>, o: nat)
    requires o !in retry.records
    ensures o !in AttemptedAll(retry, delays, reports).records
    decreases |reports|
  {
    if reports != [] {
      var r := reports[0];
      AttemptedIs(retry, delays, r.resolved, r.failed, r.now);
      NeverReturns(Attempted(retry, delays, r.resolved, r.failed, r.now).0, delays, reports[1..], o);
    }
  }

  /** A record whose run fails in as many consecutive attempts as there are
      delays is dropped. */
  lemma {:induction false} FailedRunDropped(retry: KeyRetry, delays: seq<nat>, reports: seq<Report>, o: nat)
    requires retry.attempt < |delays| && |reports| >= |delays| - retry.attempt
    requires forall i :: 0 <= i < |reports| ==> o in reports[i].failed
    ensures o !in AttemptedAll(retry, delays, reports).records
    decreases |reports|
  {
    var r := reports[0];
    var (next, finish) := Attempted(retry, delays, r.resolved, r.failed, r.now);
    AttemptedIs(retry, delays, r.resolved, r.failed, r.now);
    if finish.GaveUp? {
      NeverReturns(next, delays, reports[1..], o);
    } else {
      FailedRunDropped(next, delays, reports[1..], o);
    }
  }

  // --- Delays ---

  lemma {:induction false} AttemptedAllSnoc(retry: KeyRetry, delays: seq<nat>, reports: seq<Report>, r: Report)
    ensures AttemptedAll(retry, delays, reports + [r]) ==
            Attempted(AttemptedAll(retry, delays, reports), delays, r.resolved, r.failed, r.now).0
    decreases |reports|
  {
    hide Attempted;
    if reports != [] {
      assert (reports + [r])[1..] == reports[1..] + [r];
      AttemptedAllSnoc(Attempted(retry, delays, reports[0].resolved, reports[0].failed, reports[0].now).0, delays, reports[1..], r);
    }
  }

  lemma WithoutLast(records: seq<nat>, offsets: seq<nat>)
    ensures records == [] ==> Without(records, offsets) == []
    ensures records != [] ==>
              |Without(records, offsets)| ==
              |Without(records[..|records| - 1], offsets)| + (if records[|records| - 1] in offsets then 0 else 1)
  {
  }

  /** The records of a queue that are among `offsets`. */
  function Hits(records: seq<nat>, offsets: seq<nat>): set<nat> {
    set o | o in records && o in offsets
  }

  lemma HitsLast(records: seq<nat>, offsets: seq<nat>)
    requires records != [] && Increasing(records)
    ensures
      var n := |records| - 1;
      |Hits(records, offsets)| == |Hits(records[..n], offsets)| + (if records[n] in offsets then 1 else 0)
  {
    var n := |records| - 1;
    var last := records[n];
    assert forall o: nat :: o in records <==> o in records[..n] || o == last;
    assert last !in records[..n];
    if last in offsets {
      assert Hits(records, offsets) == Hits(records[..n], offsets) + {last};
    } else {
      assert Hits(records, offsets) == Hits(records[..n], offsets);
    }
  }

  /** What is removed of a queue is counted. */
  lemma {:induction false} WithoutCount(records: seq<nat>, offsets: seq<nat>)
    requires Increasing(records)
    ensures |records| - |Without(records, offsets)| == |Hits(records, offsets)|
  {
    hide Without;
    WithoutLast(records, offsets);
    if records == [] {
      assert Hits(records, offsets) == {};
    } else {
      WithoutCount(records[..|records| - 1], offsets);
      HitsLast(records, offsets);
    }
  }

  /** Since it was scheduled or gave up, a key that fails `n` times in a row waits
      `delays[n]` from the last failure on, and is told so; when no delay is
      left, its failed records are given up, and their number is told. */
  lemma {:induction false} Backoff(retry: KeyRetry, delays: seq<nat>, reports: seq<Report>)
    requires retry.attempt == 0 && Increasing(retry.records) && 0 < |reports| <= |delays|
    requires forall i :: 0 <= i < |reports| ==> reports[i].failed != []
    ensures
      var n, last := |reports|, reports[|reports| - 1];
      var before := AttemptedAll(retry, delays, reports[..n - 1]);
      var (after, finish) := Attempted(before, delays, last.resolved, last.failed, last.now);
      && after == AttemptedAll(retry, delays, reports)
      && if n < |delays| then after.attempt == n && after.dueAt == last.now + delays[n] && finish == Scheduled(n, delays[n])
         else after.attempt == 0 && after.dueAt == last.now
              && finish == GaveUp(|set o | o in before.records && o !in last.resolved && o in last.failed|)
  {
    hide Without;
    var n, last := |reports|, reports[|reports| - 1];
    assert reports == reports[..n - 1] + [last];
    AttemptedAllSnoc(retry, delays, reports[..n - 1], last);
    if n > 1 {
      Backoff(retry, delays, reports[..n - 1]);
    }
    var before := AttemptedAll(retry, delays, reports[..n - 1]);
    QueuesIncrease(retry, delays, reports[..n - 1]);
    var kept := Without(before.records, last.resolved);
    WithoutIs(before.records, last.resolved);
    WithoutIs(kept, last.failed);
    WithoutCount(kept, last.failed);
    assert Hits(kept, last.failed) == (set o | o in before.records && o !in last.resolved && o in last.failed);
  }

  lemma {:induction false} QueuesIncrease(retry: KeyRetry, delays: seq<nat>, reports: seq<Report>)
    requires Increasing(retry.records)
    ensures Increasing(AttemptedAll(retry, delays, reports).records)
    decreases |reports|
  {
    if reports != [] {
      var r := reports[0];
      AttemptedIs(retry, delays, r.resolved, r.failed, r.now);
      QueuesIncrease(Attempted(retry, delays, r.resolved, r.failed, r.now).0, delays, reports[1..]);
    }
  }

  /** A new key waits for the first delay, which starts with the writing of its
      record; more records don't postpone it. */
  lemma FirstDue(st: Schedule, delays: seq<nat>, key: Key, offset: nat, failedAt: nat, now: int, nowMs: nat)
    requires delays != []
    ensures
      var after := Enqueued(st, delays, key, offset, failedAt, now, nowMs).keys;
      && key in after
      && if key in st.keys then after[key].dueAt == st.keys[key].dueAt && after[key].attempt == st.keys[key].attempt
         else
           && after[key].attempt == 0
           && (nowMs < failedAt ==> after[key].dueAt == now + delays[0])
           && (failedAt <= nowMs < failedAt + delays[0] ==> after[key].dueAt - now == failedAt + delays[0] - nowMs)
           && (failedAt + delays[0] <= nowMs ==> after[key].dueAt == now)
  {
  }

  // --- As the source keeps it ---

  class RetryState {
    var keys: map<Key, KeyRetry>
    /** Records over all keys. */
    var pending: nat
    const delays: seq<nat>

    ghost function Value(): Schedule
      reads this
    {
      Schedule(keys, pending)
    }

    constructor (delays: seq<nat>)
      requires delays != []
      ensures this.delays == delays && Value() == Schedule(map[], 0)
      ensures Valid(Value(), delays, 0)
    {
      this.keys, this.pending, this.delays := map[], 0, delays;
    }

    /** Schedules the retry record at `offset`. */
    method Enqueue(key: Key, offset: nat, failedAt: nat, now: int, nowMs: nat)
      modifies this
      ensures Value() == Enqueued(old(Value()), delays, key, offset, failedAt, now, nowMs)
    {
      if key !in keys {
        var elapsed := Monus(nowMs, failedAt);
        keys := keys[key := KeyRetry([], 0, now + Monus(DelayFor(delays, 0), elapsed))];
      }
      keys := keys[key := keys[key].(records := keys[key].records + [offset])];
      pending := pending + 1;
    }

    method IsQuarantined(key: Key) returns (quarantined: bool)
      ensures quarantined <==> key in keys
    {
      quarantined := key in keys;
    }

    /** Removes the records with one of `offsets`, in place. */
    static method RemoveOffsets(records: seq<nat>, offsets: seq<nat>) returns (kept: seq<nat>, removed: nat)
      ensures kept == Without(records, offsets) && removed == |records| - |kept|
    {
      kept := [];
      for i := 0 to |records|
        invariant kept == Without(records[..i], offsets) && |kept| <= i
      {
        assert records[..i + 1][..i] == records[..i];
        if records[i] !in offsets {
          kept := kept + [records[i]];
        }
      }
      assert records[..|records|] == records;
      removed := |records| - |kept|;
    }

    /** Takes what an attempt resolved out of a key, and postpones or gives up what
        it failed. */
    static method Settle(before: KeyRetry, delays: seq<nat>, resolved: seq<nat>, failed: seq<nat>, now: int)
      returns (retry: KeyRetry, finish: Finish, removed: nat, dropped: nat)
      ensures (retry, finish) == Attempted(before, delays, resolved, failed, now)
      ensures |retry.records| + removed + dropped == |before.records|
    {
      hide Without;
      var kept;
      kept, removed := RemoveOffsets(before.records, resolved);
      retry, dropped := before.(records := kept), 0;
      if failed == [] {
        retry := retry.(dueAt := now);
        finish := Scheduled(retry.attempt, 0);
      } else {
        var next := retry.attempt + 1;
        if next < |delays| {
          retry := retry.(attempt := next, dueAt := now + delays[next]);
          finish := Scheduled(next, delays[next]);
        } else {
          var left;
          left, dropped := RemoveOffsets(retry.records, failed);
          retry := KeyRetry(left, 0, now);
          finish := GaveUp(dropped);
        }
      }
    }

    /** Settles an attempt on `key`, which leaves the schedule when it has no
        records left. */
    method Finish(key: Key, resolved: seq<nat>, failed: seq<nat>, now: int) returns (finish: Finish)
      requires key in keys ==> |keys[key].records| <= pending
      modifies this
      ensures (Value(), finish) == Finished(old(Value()), delays, key, resolved, failed, now)
    {
      if key !in keys {
        return Drained;
      }
      hide Attempted;
      var retry, removed, dropped;
      retry, finish, removed, dropped := Settle(keys[key], delays, resolved, failed, now);
      pending := Monus(Monus(pending, removed), dropped);
      if retry.records == [] {
        keys := keys - {key};
        if failed == [] {
          return Drained;
        }
      } else {
        keys := keys[key := retry];
      }
    }

    /** How far the retry partition can be stored as consumed. */
    method Committable(nextRead: nat) returns (committable: Option<nat>)
      requires Valid(Value(), delays, nextRead)
      ensures IsCommittable(Value(), nextRead, committable)
    {
      var first: nat := nextRead;
      var rest := keys.Keys;
      while rest != {}
        invariant rest <= keys.Keys && first <= nextRead
        invariant first == nextRead || Pending(Value(), first)
        invariant forall k :: k in keys && k !in rest ==> first <= keys[k].records[0]
        decreases |rest|
      {
        Inhabited(rest);
        var k: Key :| k in rest;
        rest := rest - {k};
        if keys[k].records[0] < first {
          first := keys[k].records[0];
          assert first in keys[k].records;
        }
      }
      forall o: nat | Pending(Value(), o)
        ensures first <= o
      {
        var k: Key :| k in keys && o in keys[k].records;
        assert keys[k].records[0] <= o;
      }
      committable := if first == 0 then None else Some(first - 1);
    }
  }
}
