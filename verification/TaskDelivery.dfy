/** At least once: in `NoEventLose` no event is lost, wherever the process crashes. */
module TaskDelivery {
  import opened Wrappers
  import opened Events
  import opened PlanOrder
  import opened Planner
  import opened Work
  import opened Encode
  import opened Execution
  import opened Replan
  import opened Retry
  import opened Task

  /** The event was handled (applied or reported unrecoverable) or dropped with an error. */
  ghost predicate SettledEvent(s: State, o: nat) {
    o in s.dropped || exists p :: 0 <= p < |s.hist| && s.hist[p].origin == o
  }

  ghost predicate In(entries: seq<Entry<nat>>, o: nat) {
    exists x :: 0 <= x < |entries| && entries[x].item == o
  }

  /** What is stored as consumed is settled or in the retry partition, and what
      is stored as consumed there is settled. */
  ghost predicate Safe(s: State) {
    && (forall o: nat :: o < s.storedMain ==> SettledEvent(s, o) || In(s.retry, o))
    && (forall x: nat :: x < s.storedRetry && x < |s.retry| ==> SettledEvent(s, s.retry[x].item))
  }

  /** Every retry record read so far is settled or pending. */
  ghost predicate ReadSafe(s: State) {
    forall x: nat :: x < s.read && x < |s.retry| ==> SettledEvent(s, s.retry[x].item) || Pending(s.schedule, x)
  }

  ghost predicate BatchSafe(c: Config, s: State) {
    forall o: nat :: s.next <= o < Bound(s) && o < |c.log| ==>
      || SettledEvent(s, o)
      || In(Full(s), o)
      || (s.phase.Working? && c.log[o].parses && KeyAt(c, o) in s.phase.keys)
  }

  ghost predicate StoredOk(s: State) {
    && s.storedMain == s.next && s.storedRetry <= s.read
    && (forall x: nat :: Pending(s.schedule, x) ==> x >= s.storedRetry)
    && (s.retryStored.Some? ==> s.retryStored.value + 1 == s.storedRetry)
  }

  ghost predicate DeliveryInv(c: Config, s: State) {
    && Safe(s)
    && ReadSafe(s)
    && BatchSafe(c, s)
    && StoredOk(s)
  }

  /** Nothing is forgotten. */
  lemma StaysSettled(s: State, s': State, o: nat)
    requires SettledEvent(s, o) && s.dropped <= s'.dropped && s.hist <= s'.hist
    ensures SettledEvent(s', o)
  {
    if o !in s.dropped {
      var p :| 0 <= p < |s.hist| && s.hist[p].origin == o;
      assert s'.hist[p] == s.hist[p];
    }
  }

  lemma HandledSettled(s: State, s': State, src: seq<nat>, done: seq<nat>, answers: seq<bool>, again: set<nat>, i: nat)
    requires |answers| == |done| && forall p :: 0 <= p < |done| ==> done[p] < |src|
    requires s'.hist == s.hist + Handlings(src, done, answers, again)
    requires i in done && i < |src|
    ensures SettledEvent(s', src[i])
  {
    var p :| 0 <= p < |done| && done[p] == i;
    assert s'.hist[|s.hist| + p].origin == src[i];
  }

  lemma ConcatIn(xs: seq<Entry<nat>>, ys: seq<Entry<nat>>, o: nat)
    requires In(xs, o) || In(ys, o)
    ensures In(xs + ys, o)
  {
    if In(xs, o) {
      var x :| 0 <= x < |xs| && xs[x].item == o;
      assert (xs + ys)[x].item == o;
    } else {
      var y :| 0 <= y < |ys| && ys[y].item == o;
      assert (xs + ys)[|xs| + y].item == o;
    }
  }

  /** A step that settles more and keeps every retry record and what is stored. */
  lemma SafeStays(s: State, s': State)
    requires Safe(s) && s.dropped <= s'.dropped && s.hist <= s'.hist && s.retry <= s'.retry
    requires s.storedRetry <= |s.retry|
    requires s'.storedMain == s.storedMain && s'.storedRetry == s.storedRetry
    ensures Safe(s')
  {
    forall o: nat | o < s.storedMain
      ensures SettledEvent(s', o) || In(s'.retry, o)
    {
      if SettledEvent(s, o) {
        StaysSettled(s, s', o);
      } else {
        ConcatIn(s.retry, s'.retry[|s.retry|..], o);
        assert s'.retry == s.retry + s'.retry[|s.retry|..];
      }
    }
    forall x: nat | x < s.storedRetry
      ensures SettledEvent(s', s'.retry[x].item)
    {
      StaysSettled(s, s', s.retry[x].item);
    }
  }

  /** A completed attempt settles every record it removes. */
  lemma RemovedSettled(c: Config, s: State, s': State, t: Try, i: nat)
    requires AttemptStep(c, s, s', t) && i < |s.schedule.keys[t.key].records|
    ensures Pending(s'.schedule, s.schedule.keys[t.key].records[i]) || SettledEvent(s', s.retry[s.schedule.keys[t.key].records[i]].item)
  {
    hide KeyOk, OutcomeOk, HandledAt, Precedes, Without, Attempted, Finished, At, Executes, Kept;
    var queue := s.schedule.keys[t.key].records;
    var items := Items(Queue(s, queue));
    AttemptedIs(s.schedule.keys[t.key], c.delays, t.resolved, t.failed, t.now);
    FinishedIs(s.schedule, c.delays, t.key, t.resolved, t.failed, t.now);
    var r := Attempted(s.schedule.keys[t.key], c.delays, t.resolved, t.failed, t.now).0;
    if queue[i] in r.records {
      assert t.key in s'.schedule.keys && queue[i] in s'.schedule.keys[t.key].records;
    } else if queue[i] in t.resolved && i in Good(c, items) {
      ResolvedHandled(c, s, t, i);
      HandledSettled(s, s', items, t.done, t.answers, Kept(c, s, t), i);
    } else {
      assert items[i] in AttemptDrops(c, s, t);
    }
  }

  lemma ResolvedHandled(c: Config, s: State, t: Try, i: nat)
    requires AttemptOk(c, s, t) && i < |s.schedule.keys[t.key].records|
    requires s.schedule.keys[t.key].records[i] in t.resolved
    requires i in Good(c, Items(Queue(s, s.schedule.keys[t.key].records)))
    ensures i in t.done
  {
    hide KeyOk, OutcomeOk, HandledAt, Precedes, At;
    var queue := s.schedule.keys[t.key].records;
    var rs := Headers(t.key, Queue(s, queue));
    var good := Good(c, Items(Queue(s, queue)));
    assert InDone(t.stages, t.out, i);
    var g: nat, b: nat :| At(t.stages, g, b, i) && RunDone(t.out, g, b);
    DoneHandled(rs, t.key, t.stages, good, t.out, g, b, i);
  }

  lemma AttemptDelivers(c: Config, s: State, s': State, t: Try)
    requires Inv(c, s) && DeliveryInv(c, s) && AttemptStep(c, s, s', t)
    ensures DeliveryInv(c, s')
  {
    hide AttemptOk, Safe, Finished, SettledEvent, Valid, EntriesOk, KeyedOk;
    SafeStays(s, s');
    assert Full(s') == Full(s);
    FinishValid(s.schedule, c.delays, s.read, t.key, t.resolved, t.failed, t.now);
    forall x: nat | x < s.read
      ensures SettledEvent(s', s.retry[x].item) || Pending(s'.schedule, x)
    {
      if SettledEvent(s, s.retry[x].item) {
        StaysSettled(s, s', s.retry[x].item);
      } else {
        PendingAfter(c, s, s', t, x);
      }
    }
    forall o: nat | s.next <= o < Bound(s) && o < |c.log| && SettledEvent(s, o)
      ensures SettledEvent(s', o)
    {
      StaysSettled(s, s', o);
    }
  }

  lemma PendingAfter(c: Config, s: State, s': State, t: Try, x: nat)
    requires AttemptStep(c, s, s', t) && x < |s.retry| && Pending(s.schedule, x)
    ensures SettledEvent(s', s.retry[x].item) || Pending(s'.schedule, x)
  {
    hide Executes, Finished, SettledEvent, OffsetsOf, AttemptDrops, Handlings;
    var k: Key :| k in s.schedule.keys && x in s.schedule.keys[k].records;
    FinishedIs(s.schedule, c.delays, t.key, t.resolved, t.failed, t.now);
    if k != t.key {
      assert s'.schedule.keys[k] == s.schedule.keys[k];
    } else {
      var i :| 0 <= i < |s.schedule.keys[k].records| && s.schedule.keys[k].records[i] == x;
      RemovedSettled(c, s, s', t, i);
    }
  }

  /** Every record of an executed or diverted key is settled or written. */
  lemma ProcessedSettled(c: Config, s: State, s': State, key: Key, src: seq<nat>, stages: seq<Stage>, progress: Progress,
                         done: seq<nat>, answers: seq<bool>, written: seq<Entry<nat>>, o: nat)
    requires Processes(c, s, key, src) && Writes(Records(c, src), key, stages, Good(c, src), progress, written)
    requires forall p :: 0 <= p < |written| ==> written[p].item < |src|
    requires |answers| == |done| && forall p :: 0 <= p < |done| ==> done[p] < |src|
    requires s'.hist == s.hist + Handlings(src, done, answers, {})
    requires forall i: nat :: HandledAt(RecordWork(stages, Good(c, src)), progress, i) ==> i in done
    requires Undecoded(c, src, key) <= s'.dropped
    requires o in src && KeyAt(c, o) == key
    ensures SettledEvent(s', o) || In(Renamed(src, written), o)
  {
    hide Writes, HandledAt, KeptApart, FencedBetween, RecordWork;
    var i :| 0 <= i < |src| && src[i] == o;
    EncodingKeeps(Records(c, src), key, stages, Good(c, src), progress, written);
    if i !in Good(c, src) {
      assert src[i] in Undecoded(c, src, key);
    } else if HandledAt(RecordWork(stages, Good(c, src)), progress, i) {
      HandledSettled(s, s', src, done, answers, {}, i);
    } else {
      var p :| 0 <= p < |written| && written[p].item == i;
      assert Renamed(src, written)[p].item == o;
    }
  }

  lemma NothingHandled(work: Work<nat>, i: nat)
    ensures !HandledAt(work, Untouched, i)
  {
  }

  /** Processing a key keeps the invariant, if it settles or writes its records. */
  lemma ProcessedDelivers(c: Config, s: State, s': State, key: Key, src: seq<nat>, more: seq<Entry<nat>>)
    requires Inv(c, s) && DeliveryInv(c, s) && Processes(c, s, key, src)
    requires s.dropped <= s'.dropped && s.hist <= s'.hist
    requires s' == s.(phase := Working(s.phase.count, s.phase.keys - {key}, s.phase.entries + more), hist := s'.hist, dropped := s'.dropped)
    requires forall o: nat :: o in src && KeyAt(c, o) == key ==> SettledEvent(s', o) || In(more, o)
    ensures DeliveryInv(c, s')
  {
    hide Safe, SettledEvent, Valid, EntriesOk, KeyedOk, In;
    SafeStays(s, s');
    assert Full(s') == Full(s) + more;
    forall x: nat | x < s.read && SettledEvent(s, s.retry[x].item)
      ensures SettledEvent(s', s.retry[x].item)
    {
      StaysSettled(s, s', s.retry[x].item);
    }
    forall o: nat | s.next <= o < Bound(s) && o < |c.log|
      ensures SettledEvent(s', o) || In(Full(s'), o) || (c.log[o].parses && KeyAt(c, o) in s'.phase.keys)
    {
      if SettledEvent(s, o) {
        StaysSettled(s, s', o);
      } else if In(Full(s), o) || In(more, o) {
        ConcatIn(Full(s), more, o);
      }
    }
  }

  lemma DivertDelivers(c: Config, s: State, s': State, key: Key, src: seq<nat>, stages: seq<Stage>, written: seq<Entry<nat>>)
    requires Inv(c, s) && DeliveryInv(c, s) && DivertStep(c, s, s', key, src, stages, written)
    ensures DeliveryInv(c, s')
  {
    hide Writes, SettledEvent, DeliveryInv, Inv, In, HandledAt;
    forall o: nat | o in src && KeyAt(c, o) == key
      ensures SettledEvent(s', o) || In(Renamed(src, written), o)
    {
      assert s'.hist == s.hist + Handlings(src, [], [], {});
      forall i: nat ensures !HandledAt(RecordWork(stages, Good(c, src)), Untouched, i) {
        NothingHandled(RecordWork(stages, Good(c, src)), i);
      }
      ProcessedSettled(c, s, s', key, src, stages, Untouched, [], [], written, o);
    }
    ProcessedDelivers(c, s, s', key, src, Renamed(src, written));
  }

  /** A key that completed has nothing left to write. */
  lemma CompletedWritesNothing(rs: seq<PlanRecord>, key: Key, stages: seq<Stage>, good: set<nat>, out: Outcome, written: seq<Entry<nat>>)
    requires Writes(rs, key, stages, good, Reached(out), written) && out.stop == |stages|
    ensures written == []
  {
    hide KeyOk, OutcomeOk, HandledAt, KeptApart, FencedBetween, RecordWork, KeyEntries, LeftWork;
    EncodingKeeps(rs, key, stages, good, Reached(out), written);
    if written != [] {
      var i := written[0].item;
      var g, b := PlaceOf(rs, key, stages, i);
      DoneHandled(rs, key, stages, good, out, g, b, i);
      assert false;
    }
  }

  lemma ExecuteDelivers(c: Config, s: State, s': State, key: Key, src: seq<nat>, stages: seq<Stage>, out: Outcome,
                        done: seq<nat>, answers: seq<bool>, written: seq<Entry<nat>>)
    requires Inv(c, s) && DeliveryInv(c, s) && ExecuteStep(c, s, s', key, src, stages, out, done, answers, written)
    ensures DeliveryInv(c, s')
  {
    hide Writes, SettledEvent, DeliveryInv, Inv, In, HandledAt, KeyOk, Precedes;
    var renamed := Renamed(src, written);
    var more := if out.stop < |stages| then Backlogged(c, s, renamed) else [];
    forall o: nat | o in src && KeyAt(c, o) == key
      ensures SettledEvent(s', o) || In(more, o)
    {
      ProcessedSettled(c, s, s', key, src, stages, Reached(out), done, answers, written, o);
      if In(renamed, o) {
        if out.stop == |stages| {
          CompletedWritesNothing(Records(c, src), key, stages, Good(c, src), out, written);
          assert renamed == more;
        }
        InDropped(s, s', renamed, more, o);
      }
    }
    ProcessedDelivers(c, s, s', key, src, more);
  }

  lemma InDropped(s: State, s': State, renamed: seq<Entry<nat>>, more: seq<Entry<nat>>, o: nat)
    requires In(renamed, o) && (more == renamed || ItemSet(renamed) <= s'.dropped)
    ensures SettledEvent(s', o) || In(more, o)
  {
    if more != renamed {
      var x :| 0 <= x < |renamed| && renamed[x].item == o;
      assert renamed[x] in renamed;
    }
  }

  lemma PollDelivers(c: Config, s: State, s': State, count: nat)
    requires Inv(c, s) && DeliveryInv(c, s) && c.mode.NoEventLose? && PollStep(c, s, s', count)
    ensures DeliveryInv(c, s')
  {
    hide SettledEvent, Valid, EntriesOk, KeyedOk, In, Safe;
    SafeStays(s, s');
    forall x: nat | x < s.read && SettledEvent(s, s.retry[x].item)
      ensures SettledEvent(s', s.retry[x].item)
    {
      StaysSettled(s, s', s.retry[x].item);
    }
    if count > 0 {
      forall o: nat | s.next <= o < s.next + count
        ensures SettledEvent(s', o) || (c.log[o].parses && KeyAt(c, o) in s'.phase.keys)
      {
        if !c.log[o].parses {
          DroppedSettled(s', o);
        }
      }
    }
  }

  lemma DroppedSettled(s: State, o: nat)
    requires o in s.dropped
    ensures SettledEvent(s, o)
  {
  }

  lemma FinishDelivers(c: Config, s: State, s': State)
    requires Inv(c, s) && DeliveryInv(c, s) && c.mode.NoEventLose? && FinishStep(c, s, s')
    ensures DeliveryInv(c, s')
  {
    hide Valid, EntriesOk, KeyedOk, In;
    assert Full(s) == s.retry;
    forall o: nat | o < s'.storedMain
      ensures SettledEvent(s', o) || In(s'.retry, o)
    {
      assert o < s.next || o < Bound(s);
      assert SettledEvent(s, o) ==> SettledEvent(s', o);
    }
  }

  lemma SendDelivers(c: Config, s: State, s': State)
    requires Inv(c, s) && DeliveryInv(c, s) && SendStep(c, s, s')
    ensures DeliveryInv(c, s')
  {
    hide Valid, EntriesOk, KeyedOk, In, SettledEvent, Safe;
    SafeStays(s, s');
    assert Full(s') == Full(s);
    forall o: nat | SettledEvent(s, o)
      ensures SettledEvent(s', o)
    {
      StaysSettled(s, s', o);
    }
  }

  lemma ReadDelivers(c: Config, s: State, s': State, failedAt: nat, now: int, nowMs: nat)
    requires Inv(c, s) && DeliveryInv(c, s) && c.mode.NoEventLose? && ReadStep(c, s, s', failedAt, now, nowMs)
    ensures DeliveryInv(c, s')
  {
    hide Valid, EntriesOk, KeyedOk, In, SettledEvent, Safe;
    SafeStays(s, s');
    forall o: nat
      ensures SettledEvent(s', o) <== SettledEvent(s, o)
    {
      if SettledEvent(s, o) {
        StaysSettled(s, s', o);
      }
    }
    forall x: nat
      ensures Pending(s'.schedule, x) <==> Pending(s.schedule, x) || x == s.read
    {
      EnqueuedPending(s.schedule, c.delays, KeyAt(c, s.retry[s.read].item), s.read, failedAt, now, nowMs, x);
    }
  }

  lemma CommitDelivers(c: Config, s: State, s': State, offset: nat)
    requires Inv(c, s) && DeliveryInv(c, s) && CommitStep(c, s, s', offset)
    ensures DeliveryInv(c, s') && s'.storedRetry >= s.storedRetry
  {
    hide Valid, EntriesOk, KeyedOk, In, SettledEvent;
    forall o: nat
      ensures SettledEvent(s', o) <== SettledEvent(s, o)
    {
      if SettledEvent(s, o) {
        StaysSettled(s, s', o);
      }
    }
  }

  lemma CrashDelivers(c: Config, s: State, s': State, partial: seq<Handling>)
    requires Inv(c, s) && DeliveryInv(c, s) && CrashStep(c, s, s', partial)
    ensures DeliveryInv(c, s')
  {
    hide Valid, EntriesOk, KeyedOk, In, SettledEvent, Safe, InProgress;
    SafeStays(s, s');
    StoredSafe(s');
  }

  lemma StoredSafe(s: State)
    requires Safe(s) && s.read == s.storedRetry
    ensures ReadSafe(s)
  {
  }

  lemma DeliveryStep(c: Config, s: State, s': State, step: Step)
    requires Inv(c, s) && DeliveryInv(c, s) && c.mode.NoEventLose? && NextStep(c, s, s', step)
    ensures DeliveryInv(c, s') && s'.storedRetry >= s.storedRetry && s'.storedMain >= s.storedMain
  {
    hide AttemptStep, DivertStep, ExecuteStep, ReadStep, Inv, DeliveryInv, PollStep, SendStep, FinishStep, CommitStep, CrashStep;
    assert s'.storedRetry >= s.storedRetry && s'.storedMain >= s.storedMain by { StoredGrows(c, s, s', step); }
    match step
    case Read(failedAt, now, nowMs) => ReadDelivers(c, s, s', failedAt, now, nowMs);
    case Drained => assert DeliveryInv(c, s') by { QuietDelivers(c, s, s'); }
    case Attempt(t) => AttemptDelivers(c, s, s', t);
    case Commit(offset) => CommitDelivers(c, s, s', offset);
    case Poll(count) => PollDelivers(c, s, s', count);
    case Divert(key, src, stages, written) => DivertDelivers(c, s, s', key, src, stages, written);
    case Execute(key, src, stages, out, done, answers, written) =>
      ExecuteDelivers(c, s, s', key, src, stages, out, done, answers, written);
    case Send => SendDelivers(c, s, s');
    case Finish => FinishDelivers(c, s, s');
    case Crash(partial) => CrashDelivers(c, s, s', partial);
  }

  lemma QuietDelivers(c: Config, s: State, s': State)
    requires DeliveryInv(c, s) && DrainedStep(c, s, s')
    ensures DeliveryInv(c, s')
  {
    assert Full(s') == Full(s);
    assert forall o: nat :: SettledEvent(s, o) <==> SettledEvent(s', o);
  }

  /** What is stored as consumed never moves back. */
  lemma StoredGrows(c: Config, s: State, s': State, step: Step)
    requires Inv(c, s) && DeliveryInv(c, s) && c.mode.NoEventLose? && NextStep(c, s, s', step)
    ensures s'.storedRetry >= s.storedRetry && s'.storedMain >= s.storedMain
  {
    hide Safe, ReadSafe, BatchSafe, Valid, EntriesOk, KeyedOk, Executes, Writes;
    if step.Commit? {
      CommitDelivers(c, s, s', step.offset);
    }
  }

  lemma {:induction false} Delivered(c: Config, states: seq<State>, steps: seq<Step>, i: nat)
    requires Behaves(c, states, steps) && i < |states| && c.mode.NoEventLose?
    ensures DeliveryInv(c, states[i])
  {
    hide DeliveryInv, Inv, NextStep;
    if i > 0 {
      Delivered(c, states, steps, i - 1);
      InvReached(c, states, steps, i - 1);
      DeliveryStep(c, states[i - 1], states[i], steps[i - 1]);
    } else {
      StartDelivers(c, states[0]);
    }
  }

  lemma StartDelivers(c: Config, s: State)
    requires Init(c, s)
    ensures DeliveryInv(c, s)
  {
  }
}
