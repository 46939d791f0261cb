/** What the consumer never exceeds: the backlog of retry records, the events it
    drops, and the pace of retry attempts. */
module TaskLimits {
  import opened Wrappers
  import opened Events
  import opened PlanOrder
  import opened Planner
  import opened Work
  import opened Encode
  import opened Execution
  import opened Replan
  import opened Retry
  import opened Task
  import opened TaskDelivery
  import opened TaskOnce

  // --- The backlog ---

  /** Record `o` of the batch has key `key` and a header that parses. */
  ghost predicate InKey(c: Config, s: State, key: Key, o: nat) {
    s.next <= o < Bound(s) && o < |c.log| && c.log[o].parses && KeyAt(c, o) == key
  }

  /** It doesn't decode. */
  ghost predicate BadInKey(c: Config, s: State, key: Key, o: nat) {
    InKey(c, s, key, o) && !c.log[o].decodes
  }

  ghost predicate HandledSince(s: State, s': State, o: nat) {
    exists p :: |s.hist| <= p < |s'.hist| && s'.hist[p].origin == o
  }

  /** The events of the key that the step to `s'` left unhandled. */
  ghost function Unhandled(c: Config, s: State, s': State, key: Key): set<nat> {
    set o: nat | s.next <= o < Bound(s) && InKey(c, s, key, o) && c.log[o].decodes && !HandledSince(s, s', o)
  }

  /** Writing what is left of the key stays within the backlog limit. */
  ghost predicate Fits(c: Config, s: State, left: set<nat>)
    requires s.phase.Working?
  {
    s.schedule.pending + |s.phase.entries| + |left| <= c.maxPending
  }

  lemma {:induction false} ItemCount(entries: seq<Entry<nat>>)
    requires forall p, q :: 0 <= p < q < |entries| ==> entries[p].item != entries[q].item
    ensures |ItemSet(entries)| == |entries|
  {
    if entries == [] {
      assert ItemSet(entries) == {};
    } else {
      var n := |entries| - 1;
      ItemCount(entries[..n]);
      assert forall e :: e in entries <==> e in entries[..n] || e == entries[n];
      assert ItemSet(entries) == ItemSet(entries[..n]) + {entries[n].item};
      assert entries[n].item !in ItemSet(entries[..n]);
    }
  }

  lemma SinceIs(s: State, s': State, src: seq<nat>, done: seq<nat>, answers: seq<bool>, again: set<nat>, o: nat)
    requires |answers| == |done| && forall p :: 0 <= p < |done| ==> done[p] < |src|
    requires s'.hist == s.hist + Handlings(src, done, answers, again)
    ensures HandledSince(s, s', o) <==> exists p :: 0 <= p < |done| && src[done[p]] == o
  {
    if HandledSince(s, s', o) {
      var p :| |s.hist| <= p < |s'.hist| && s'.hist[p].origin == o;
      assert src[done[p - |s.hist|]] == o;
    }
    if p :| 0 <= p < |done| && src[done[p]] == o {
      assert s'.hist[|s.hist| + p].origin == o;
    }
  }

  /** What would be written of an executed key is exactly what it left unhandled. */
  lemma WrittenUnhandled(c: Config, s: State, s': State, key: Key, src: seq<nat>, stages: seq<Stage>, out: Outcome,
                         done: seq<nat>, answers: seq<bool>, written: seq<Entry<nat>>)
    requires ExecuteStep(c, s, s', key, src, stages, out, done, answers, written)
    ensures ItemSet(Renamed(src, written)) == Unhandled(c, s, s', key) && |written| == |Unhandled(c, s, s', key)|
  {
    hide Writes, Executes, HandledAt, Undecoded, InKey, HandledSince, Batch, Unhandled;
    var renamed := Renamed(src, written);
    WrittenDistinct(c, s, key, src, stages, Reached(out), written);
    ItemCount(renamed);
    forall o: nat
      ensures o in ItemSet(renamed) <==> o in Unhandled(c, s, s', key)
    {
      SinceIs(s, s', src, done, answers, {}, o);
      if o in ItemSet(renamed) {
        var p :| 0 <= p < |renamed| && renamed[p].item == o;
        WrittenLeft(c, s, key, src, stages, out, done, written, p);
        InUnhandled(c, s, s', key, src, o);
      }
      if o in Unhandled(c, s, s', key) {
        InUnhandled(c, s, s', key, src, o);
        var p := LeftWritten(c, s, key, src, stages, out, done, written, o);
        assert renamed[p] in renamed;
      }
    }
  }

  lemma InUnhandled(c: Config, s: State, s': State, key: Key, src: seq<nat>, o: nat)
    requires Processes(c, s, key, src)
    ensures o in Unhandled(c, s, s', key) <==> o in src && KeyAt(c, o) == key && c.log[o].decodes && !HandledSince(s, s', o)
  {
    hide HandledSince, InKey;
    InKeyIs(c, s, key, src, o);
  }

  lemma LeftWritten(c: Config, s: State, key: Key, src: seq<nat>, stages: seq<Stage>, out: Outcome, done: seq<nat>,
                    written: seq<Entry<nat>>, o: nat) returns (p: nat)
    requires Processes(c, s, key, src) && Executes(Records(c, src), key, stages, Good(c, src), out, done)
    requires Writes(Records(c, src), key, stages, Good(c, src), Reached(out), written)
    requires o in src && KeyAt(c, o) == key && c.log[o].decodes
    requires forall q :: 0 <= q < |done| && done[q] < |src| ==> src[done[q]] != o
    ensures p < |written| && written[p].item < |src| && src[written[p].item] == o
  {
    hide Writes, HandledAt, KeptApart, FencedBetween, RecordWork, KeyOk, OutcomeOk, Precedes, Batch;
    EncodingKeeps(Records(c, src), key, stages, Good(c, src), Reached(out), written);
    var i :| 0 <= i < |src| && src[i] == o;
    assert i !in done;
    p :| 0 <= p < |written| && written[p].item == i;
  }

  lemma InKeyIs(c: Config, s: State, key: Key, src: seq<nat>, o: nat)
    requires Processes(c, s, key, src)
    ensures InKey(c, s, key, o) <==> o in src && KeyAt(c, o) == key
    ensures InKey(c, s, key, o) ==> s.next <= o < Bound(s) && o < |c.log|
  {
  }

  lemma WrittenLeft(c: Config, s: State, key: Key, src: seq<nat>, stages: seq<Stage>, out: Outcome, done: seq<nat>,
                    written: seq<Entry<nat>>, p: nat)
    requires Processes(c, s, key, src) && Executes(Records(c, src), key, stages, Good(c, src), out, done)
    requires Writes(Records(c, src), key, stages, Good(c, src), Reached(out), written) && p < |written|
    ensures written[p].item < |src| && KeyAt(c, src[written[p].item]) == key && c.log[src[written[p].item]].decodes
    ensures forall q :: 0 <= q < |done| && done[q] < |src| ==> src[done[q]] != src[written[p].item]
  {
    hide Writes, HandledAt, KeptApart, FencedBetween, RecordWork, KeyOk, OutcomeOk, Precedes, Batch;
    EncodingKeeps(Records(c, src), key, stages, Good(c, src), Reached(out), written);
    SrcIncreasing(c, s, key, src);
    forall q | 0 <= q < |done| && done[q] < |src|
      ensures src[done[q]] != src[written[p].item]
    {
      assert done[q] in done;
      SrcDistinct(src, done[q], written[p].item);
    }
  }

  /** What a step that executes a key collects and drops: what the key left
      unhandled is collected if it fits the backlog and dropped if it doesn't,
      as a whole, and besides only records that don't decode are dropped. */
  lemma BacklogExactly(c: Config, s: State, s': State, key: Key, src: seq<nat>, stages: seq<Stage>, out: Outcome,
                       done: seq<nat>, answers: seq<bool>, written: seq<Entry<nat>>)
    requires ExecuteStep(c, s, s', key, src, stages, out, done, answers, written)
    ensures s'.phase.Working? && s.phase.entries <= s'.phase.entries && s'.schedule == s.schedule
    ensures
      var left, n := Unhandled(c, s, s', key), |s.phase.entries|;
      && (Fits(c, s, left) ==> ItemSet(s'.phase.entries[n..]) == left && |s'.phase.entries| == n + |left|)
      && (!Fits(c, s, left) ==> s'.phase.entries == s.phase.entries)
      && forall o: nat :: o in s'.dropped <==>
           o in s.dropped || BadInKey(c, s, key, o) || (!Fits(c, s, left) && o in left)
  {
    hide Writes, Executes, BadInKey, Processes, Unhandled, Undecoded, Backlogged;
    StartsWorking(c, s, s', key, src, stages, out, done, answers, written);
    WrittenUnhandled(c, s, s', key, src, stages, out, done, answers, written);
    Collects(c, s, s', key, src, stages, out, done, answers, written);
    NoItems();
    forall o: nat
      ensures o in Undecoded(c, src, key) <==> BadInKey(c, s, key, o)
    {
      UndecodedIs(c, s, key, src, o);
    }
  }

  lemma Collects(c: Config, s: State, s': State, key: Key, src: seq<nat>, stages: seq<Stage>, out: Outcome,
                 done: seq<nat>, answers: seq<bool>, written: seq<Entry<nat>>)
    requires ExecuteStep(c, s, s', key, src, stages, out, done, answers, written)
    ensures
      var renamed, fits := Renamed(src, written), Fits(c, s, Unhandled(c, s, s', key));
      && s'.phase == Working(s.phase.count, s.phase.keys - {key}, s.phase.entries + (if fits then renamed else []))
      && s'.dropped == s.dropped + Undecoded(c, src, key) + (if fits then {} else ItemSet(renamed))
  {
    hide Writes, Batch, Unhandled, Undecoded, KeyOk, HandledAt, Precedes;
    StartsWorking(c, s, s', key, src, stages, out, done, answers, written);
    WrittenUnhandled(c, s, s', key, src, stages, out, done, answers, written);
    NoItems();
    if out.stop == |stages| {
      CompletedWritesNothing(Records(c, src), key, stages, Good(c, src), out, written);
    }
  }

  lemma NoItems()
    ensures ItemSet([]) == {}
  {
  }

  lemma UndecodedIs(c: Config, s: State, key: Key, src: seq<nat>, o: nat)
    requires Processes(c, s, key, src)
    ensures o in Undecoded(c, src, key) <==> BadInKey(c, s, key, o)
  {
    if BadInKey(c, s, key, o) {
      var i :| 0 <= i < |src| && src[i] == o;
      assert src[i] in Undecoded(c, src, key);
    }
  }

  /** The entries to send never grow beyond the backlog limit by a key that was
      executed and failed. */
  lemma BacklogBounded(c: Config, s: State, s': State, key: Key, src: seq<nat>, stages: seq<Stage>, out: Outcome,
                       done: seq<nat>, answers: seq<bool>, written: seq<Entry<nat>>)
    requires ExecuteStep(c, s, s', key, src, stages, out, done, answers, written)
    ensures s'.phase.Working?
    ensures s'.phase.entries != s.phase.entries ==> s'.schedule.pending + |s'.phase.entries| <= c.maxPending
  {
    hide ExecuteStep, Unhandled;
    BacklogExactly(c, s, s', key, src, stages, out, done, answers, written);
  }

  // --- What is dropped ---

  /** Why a step may drop an event: its header doesn't parse, its payload doesn't
      decode, the backlog is full, or its run failed in the last attempt its key has. */
  ghost predicate MayDrop(c: Config, s: State, s': State, step: Step, o: nat) {
    match step
    case Poll(count) => s.next <= o < s.next + count && o < |c.log| && !c.log[o].parses
    case Divert(key, _, _, _) => BadInKey(c, s, key, o)
    case Execute(key, _, _, _, _, _, _) =>
      && s.phase.Working?
      && (|| BadInKey(c, s, key, o)
          || (o in Unhandled(c, s, s', key) && !Fits(c, s, Unhandled(c, s, s', key))))
    case Attempt(t) => LastTryFails(c, s, t, o)
    case _ => false
  }

  /** A pending record of the event is in a failed run of an attempt after which
      the key has no delay left. */
  ghost predicate LastTryFails(c: Config, s: State, t: Try, o: nat) {
    && t.key in s.schedule.keys && s.schedule.keys[t.key].attempt + 1 >= |c.delays|
    && exists i: nat :: FailsAt(s, t, o, i)
  }

  ghost predicate FailsAt(s: State, t: Try, o: nat, i: nat)
    requires t.key in s.schedule.keys
  {
    var queue := s.schedule.keys[t.key].records;
    i < |queue| && queue[i] < |s.retry| && s.retry[queue[i]].item == o && InFailed(t.stages, t.out, i)
  }

  lemma GivesUp(c: Config, s: State, t: Try)
    requires t.key in s.schedule.keys
    ensures Finishing(c, s, t).1.GaveUp? <==> t.failed != [] && s.schedule.keys[t.key].attempt + 1 >= |c.delays|
  {
    hide Without;
  }

  lemma AttemptDropped(c: Config, s: State, s': State, t: Try, o: nat)
    requires Inv(c, s) && AttemptStep(c, s, s', t)
    ensures o in s'.dropped <==> o in s.dropped || LastTryFails(c, s, t, o)
  {
    hide Executes, InFailed, Finished, Handlings, KeyedOk, Kept, Without;
    var queue := s.schedule.keys[t.key].records;
    GivesUp(c, s, t);
    forall i: nat | i < |queue|
      ensures i in Good(c, Items(Queue(s, queue)))
      ensures queue[i] in t.failed <==> InFailed(t.stages, t.out, i)
    {
      QueueLive(c, s, t.key, i);
      assert i in FailedSet(t.stages, t.out, |queue|) <==> InFailed(t.stages, t.out, i);
    }
    if o in AttemptDrops(c, s, t) {
      var i: nat :| i < |queue| && s.retry[queue[i]].item == o && queue[i] in t.failed && Finishing(c, s, t).1.GaveUp?;
      assert FailsAt(s, t, o, i);
    }
    if LastTryFails(c, s, t, o) {
      var i: nat :| FailsAt(s, t, o, i);
      assert queue[i] in t.failed;
    }
  }

  /** A step drops exactly what it may drop. */
  lemma DropsExactly(c: Config, s: State, s': State, step: Step, o: nat)
    requires Inv(c, s) && NextStep(c, s, s', step)
    ensures o in s'.dropped <==> o in s.dropped || MayDrop(c, s, s', step, o)
  {
    hide Inv, Executes, Writes, AttemptStep, LastTryFails, Unhandled, BadInKey, ExecuteStep, Batch, Undecoded, InProgress, ReadStep;
    match step
    case Attempt(t) => AttemptDropped(c, s, s', t, o);
    case Execute(key, src, stages, out, done, answers, written) =>
      StartsWorking(c, s, s', key, src, stages, out, done, answers, written);
      BacklogExactly(c, s, s', key, src, stages, out, done, answers, written);
    case Divert(key, src, stages, written) => UndecodedIs(c, s, key, src, o);
    case Read(failedAt, now, nowMs) => assert s'.dropped == s.dropped by { ReadDrops(c, s, s', failedAt, now, nowMs); }
    case _ =>
  }

  lemma StartsWorking(c: Config, s: State, s': State, key: Key, src: seq<nat>, stages: seq<Stage>, out: Outcome,
                      done: seq<nat>, answers: seq<bool>, written: seq<Entry<nat>>)
    requires ExecuteStep(c, s, s', key, src, stages, out, done, answers, written)
    ensures s.phase.Working?
  {
    hide Executes, Writes;
  }

  lemma ReadDrops(c: Config, s: State, s': State, failedAt: nat, now: int, nowMs: nat)
    requires ReadStep(c, s, s', failedAt, now, nowMs)
    ensures s'.dropped == s.dropped
  {
  }

  /** In every run an event was dropped only by a step that may drop it. */
  lemma {:induction false} DropsReached(c: Config, states: seq<State>, steps: seq<Step>, i: nat, o: nat) returns (k: nat)
    requires Behaves(c, states, steps) && i < |states| && o in states[i].dropped
    ensures k < i && MayDrop(c, states[k], states[k + 1], steps[k], o)
  {
    hide Init, NextStep, Inv, MayDrop;
    if i == 0 {
      NoneDropped(c, states[0]);
    } else if o in states[i - 1].dropped {
      k := DropsReached(c, states, steps, i - 1, o);
    } else {
      k := i - 1;
      InvReached(c, states, steps, k);
      DropsExactly(c, states[k], states[i], steps[k], o);
    }
  }

  lemma NoneDropped(c: Config, s: State)
    requires Init(c, s)
    ensures s.dropped == {}
  {
  }

  // --- The pace of attempts ---

  /** How often in a row attempts on the key failed before moment `i`, since it
      was scheduled or gave up. */
  ghost function Failures(c: Config, states: seq<State>, steps: seq<Step>, i: nat, key: Key): nat
    requires |states| == |steps| + 1 && i < |states|
  {
    if i == 0 || key !in states[i].schedule.keys then 0
    else
      var before := Failures(c, states, steps, i - 1, key);
      if steps[i - 1].Attempt? && steps[i - 1].try.key == key && steps[i - 1].try.failed != [] then
        if before + 1 == |c.delays| then 0 else before + 1
      else before
  }

  /** A key that isn't attempted stays due when it was. */
  lemma StaysDue(c: Config, s: State, s': State, step: Step, key: Key)
    requires NextStep(c, s, s', step) && !step.Crash? && !(step.Attempt? && step.try.key == key)
    requires key in s.schedule.keys
    ensures key in s'.schedule.keys
    ensures s'.schedule.keys[key].dueAt == s.schedule.keys[key].dueAt && s'.schedule.keys[key].attempt == s.schedule.keys[key].attempt
  {
    hide Executes, Writes, AttemptOk, Finished, Handlings, AttemptDrops;
    if step.Attempt? {
      OtherKept(c, s, step.try, key);
    }
  }

  lemma OtherKept(c: Config, s: State, t: Try, key: Key)
    requires AttemptOk(c, s, t) && key != t.key && key in s.schedule.keys
    ensures key in Finishing(c, s, t).0.keys && Finishing(c, s, t).0.keys[key] == s.schedule.keys[key]
  {
    hide Executes, OffsetsOf;
    FinishedIs(s.schedule, c.delays, t.key, t.resolved, t.failed, t.now);
  }

  /** A key appears with no failures. */
  lemma AppearsFresh(c: Config, s: State, s': State, step: Step, key: Key)
    requires NextStep(c, s, s', step) && key !in s.schedule.keys && key in s'.schedule.keys
    ensures step.Read? && s.read < |s.retry| && KeyAt(c, s.retry[s.read].item) == key && s'.schedule.keys[key].attempt == 0
  {
    hide Executes, Writes, AttemptOk, Finished, Handlings, AttemptDrops;
    if step.Attempt? {
      NoneAdded(c, s, step.try, key);
    }
  }

  lemma NoneAdded(c: Config, s: State, t: Try, key: Key)
    requires AttemptOk(c, s, t) && key in Finishing(c, s, t).0.keys
    ensures key in s.schedule.keys
  {
    hide Executes, OffsetsOf;
    FinishedIs(s.schedule, c.delays, t.key, t.resolved, t.failed, t.now);
  }

  /** What a failed attempt does to a key that stays. */
  lemma FailsAgain(c: Config, s: State, s': State, t: Try)
    requires Inv(c, s) && AttemptStep(c, s, s', t) && t.key in s'.schedule.keys
    ensures
      var n, r := s.schedule.keys[t.key].attempt, s'.schedule.keys[t.key];
      if t.failed == [] then r.attempt == n
      else if n + 1 < |c.delays| then
        r.attempt == n + 1 && r.dueAt == t.now + c.delays[n + 1] && Finishing(c, s, t).1 == Scheduled(n + 1, c.delays[n + 1])
      else n + 1 == |c.delays| && r.attempt == 0 && Finishing(c, s, t).1.GaveUp?
  {
    hide AttemptOk, Without, Handlings, AttemptDrops;
  }

  lemma {:induction false} FailuresAre(c: Config, states: seq<State>, steps: seq<Step>, i: nat, key: Key)
    requires Behaves(c, states, steps) && i < |states| && key in states[i].schedule.keys
    ensures states[i].schedule.keys[key].attempt == Failures(c, states, steps, i, key)
  {
    hide NextStep, Inv, Init;
    if i == 0 {
      NoneScheduled(c, states[0]);
    } else {
      InvReached(c, states, steps, i - 1);
      if key in states[i - 1].schedule.keys {
        FailuresAre(c, states, steps, i - 1, key);
        NextAttempt(c, states[i - 1], states[i], steps[i - 1], key);
      } else {
        AppearsFresh(c, states[i - 1], states[i], steps[i - 1], key);
      }
    }
  }

  /** How a step counts the failures of a key. */
  lemma NextAttempt(c: Config, s: State, s': State, step: Step, key: Key)
    requires Inv(c, s) && NextStep(c, s, s', step) && key in s.schedule.keys && key in s'.schedule.keys
    ensures
      var n := s.schedule.keys[key].attempt;
      s'.schedule.keys[key].attempt ==
      if step.Attempt? && step.try.key == key && step.try.failed != [] then (if n + 1 == |c.delays| then 0 else n + 1) else n
  {
    hide NextStep, Inv;
    if step.Attempt? && step.try.key == key {
      AttemptIs(c, s, s', step);
      FailsAgain(c, s, s', step.try);
    } else {
      NotCrashed(c, s, s', step, key);
      StaysDue(c, s, s', step, key);
    }
  }

  lemma AttemptIs(c: Config, s: State, s': State, step: Step)
    requires NextStep(c, s, s', step) && step.Attempt?
    ensures AttemptStep(c, s, s', step.try)
  {
  }

  lemma NotCrashed(c: Config, s: State, s': State, step: Step, key: Key)
    requires NextStep(c, s, s', step) && key in s'.schedule.keys
    ensures !step.Crash?
  {
  }

  lemma NoneScheduled(c: Config, s: State)
    requires Init(c, s)
    ensures s.schedule.keys == map[]
  {
  }

  /** From moment `i` to moment `j` the key is neither attempted nor lost in a crash. */
  ghost predicate Rests(steps: seq<Step>, i: nat, j: nat, key: Key) {
    j <= |steps| && forall k :: i <= k < j ==> !steps[k].Crash? && !(steps[k].Attempt? && steps[k].try.key == key)
  }

  lemma {:induction false} DueStays(c: Config, states: seq<State>, steps: seq<Step>, i: nat, j: nat, key: Key)
    requires Behaves(c, states, steps) && i <= j < |states| && Rests(steps, i, j, key) && key in states[i].schedule.keys
    ensures key in states[j].schedule.keys && states[j].schedule.keys[key].dueAt == states[i].schedule.keys[key].dueAt
    decreases j
  {
    hide NextStep, Init;
    if i < j {
      DueStays(c, states, steps, i, j - 1, key);
      StaysDue(c, states[j - 1], states[j], steps[j - 1], key);
    }
  }

  ghost predicate Tries(steps: seq<Step>, i: nat, key: Key) {
    i < |steps| && steps[i].Attempt? && steps[i].try.key == key
  }

  /** When an attempt is the `n`-th in a row that fails since the key was
      scheduled or gave up, and isn't the last one allowed, this is reported with
      the `n`-th delay, and the next attempt comes at least that much later. */
  lemma AttemptsApart(c: Config, states: seq<State>, steps: seq<Step>, i: nat, j: nat, key: Key)
    requires Behaves(c, states, steps) && i < j && Tries(steps, i, key) && Tries(steps, j, key) && Rests(steps, i + 1, j, key)
    requires Failures(c, states, steps, i + 1, key) > 0 && steps[i].try.failed != []
    ensures
      var n := Failures(c, states, steps, i + 1, key);
      && n < |c.delays|
      && Finishing(c, states[i], steps[i].try).1 == Scheduled(n, c.delays[n])
      && steps[j].try.now >= steps[i].try.now + c.delays[n]
  {
    hide Init, Inv, ReadStep, DivertStep, ExecuteStep, AttemptOk, Finished;
    InvReached(c, states, steps, i);
    AttemptIs(c, states[i], states[i + 1], steps[i]);
    AttemptIs(c, states[j], states[j + 1], steps[j]);
    OnlyScheduled(c, states[i], steps[i].try);
    OnlyScheduled(c, states[j], steps[j].try);
    FailuresAre(c, states, steps, i, key);
    FailsAgain(c, states[i], states[i + 1], steps[i].try);
    DueStays(c, states, steps, i + 1, j, key);
  }

  lemma OnlyScheduled(c: Config, s: State, t: Try)
    requires AttemptOk(c, s, t)
    ensures t.key in s.schedule.keys && s.schedule.keys[t.key].dueAt <= t.now
  {
    hide Executes;
  }

  /** The first attempt on a key waits for the first delay, which starts with the
      writing of its record, as the clock of its reading tells. */
  lemma FirstAttempt(c: Config, states: seq<State>, steps: seq<Step>, i: nat, j: nat, key: Key)
    requires Behaves(c, states, steps) && i < j && Tries(steps, j, key) && Rests(steps, i, j, key)
    requires i < |steps| && key !in states[i].schedule.keys && key in states[i + 1].schedule.keys
    ensures steps[i].Read?
    ensures
      var waited := steps[j].try.now - steps[i].now;
      && waited >= 0
      && (steps[i].nowMs < steps[i].failedAt ==> waited >= c.delays[0])
      && (steps[i].failedAt <= steps[i].nowMs ==> steps[i].nowMs + waited >= steps[i].failedAt + c.delays[0])
  {
    hide Inv, DivertStep, ExecuteStep, AttemptOk, Enqueued, NextStep;
    AppearsFresh(c, states[i], states[i + 1], steps[i], key);
    ReadIs(c, states[i], states[i + 1], steps[i], key);
    DueStays(c, states, steps, i + 1, j, key);
    AttemptIs(c, states[j], states[j + 1], steps[j]);
    OnlyScheduled(c, states[j], steps[j].try);
  }

  lemma ReadIs(c: Config, s: State, s': State, step: Step, key: Key)
    requires NextStep(c, s, s', step) && step.Read? && c.delays != []
    requires s.read < |s.retry| && KeyAt(c, s.retry[s.read].item) == key && key !in s.schedule.keys
    ensures key in s'.schedule.keys
    ensures
      var wait := s'.schedule.keys[key].dueAt - step.now;
      && wait >= 0
      && (step.nowMs < step.failedAt ==> wait == c.delays[0])
      && (step.failedAt <= step.nowMs ==> step.nowMs + wait >= step.failedAt + c.delays[0])
  {
    hide Enqueued;
    FirstDue(s.schedule, c.delays, key, s.read, step.failedAt, step.now, step.nowMs);
  }
}
