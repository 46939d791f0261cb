/** The loop of the consumer of one partition and its restarts: everything it
    does is a run of the state machine. */
module Consumer {
  import opened Wrappers
  import opened Events
  import opened Encode
  import opened Retry
  import opened Task
  import opened Runtime
  import TaskOnce

  /** When a retry record was written, and when it is read (ms). */
  datatype Times = Times(failedAt: nat, now: int, nowMs: nat)

  lemma BehavesSnoc(c: Config, states: seq<State>, steps: seq<Step>, s: State, step: Step)
    requires Behaves(c, states, steps) && NextStep(c, states[|states| - 1], s, step)
    ensures Behaves(c, states + [s], steps + [step])
  {
    hide NextStep, Init;
  }

  /** The key was attempted in a step from `from` on. */
  ghost predicate WasTried(steps: seq<Step>, from: nat, key: Key) {
    exists i :: from <= i < |steps| && steps[i].Attempt? && steps[i].try.key == key
  }

  lemma TriedSnoc(before: seq<Step>, steps: seq<Step>, from: nat, key: Key)
    requires from <= |before| && before <= steps && |steps| == |before| + 1
    requires steps[|before|].Attempt? && steps[|before|].try.key == key
    ensures WasTried(steps, from, key)
    ensures forall k :: WasTried(before, from, k) ==> WasTried(steps, from, k)
  {
    assert forall i :: 0 <= i < |before| ==> before[i] == steps[i];
  }

  class PartitionTask {
    const c: Config
    const maxBatch: Tag -> nat
    // kept by the server
    var retry: seq<Entry<nat>>
    var storedMain: nat
    var storedRetry: nat
    // lost in a crash
    var next: nat
    var read: nat
    var state: RetryState
    var retryStored: Option<nat>
    /** The run of the machine so far. */
    ghost var states: seq<State>
    ghost var steps: seq<Step>

    ghost function Now(): State
      reads this
      requires states != []
    {
      states[|states| - 1]
    }

    /** The fields are those of the last state of a run that is in `phase`. */
    ghost predicate At(phase: Phase)
      reads this, state
    {
      && states != [] && Behaves(c, states, steps) && Batches(maxBatch)
      && state.delays == c.delays
      && var s := Now();
      && s.phase == phase
      && s.retry == retry && s.storedMain == storedMain && s.storedRetry == storedRetry
      && s.next == next && s.read == read && s.schedule == state.Value() && s.retryStored == retryStored
    }

    constructor (c: Config, maxBatch: Tag -> nat)
      requires c.delays != [] && Batches(maxBatch)
      ensures At(Draining) && this.c == c && fresh(state) && steps == []
    {
      this.c, this.maxBatch := c, maxBatch;
      retry, storedMain, storedRetry := [], 0, 0;
      next, read, retryStored := 0, 0, None;
      state := new RetryState(c.delays);
      states, steps := [State([], 0, 0, 0, 0, Schedule(map[], 0), None, Draining, [], {}, [], [], false)], [];
    }

    /** Records a step of the machine. */
    ghost method Take(s: State, step: Step)
      requires states != [] && Behaves(c, states, steps) && NextStep(c, Now(), s, step)
      modifies this`states, this`steps
      ensures Behaves(c, states, steps) && states == old(states) + [s] && steps == old(steps) + [step]
    {
      BehavesSnoc(c, states, steps, s, step);
      states, steps := states + [s], steps + [step];
    }

    /** Schedules the next retry record, which is stored first in `NoDoubleConsume`. */
    method ReadNext(t: Times)
      requires At(Draining) && read < |retry|
      modifies this`storedRetry, this`read, this`states, this`steps, state
      ensures At(Draining) && old(states) <= states && read == old(read) + 1
    {
      hide Behaves, Enqueued;
      var key := KeyAt(c, retry[read].item);
      ghost var s := Now();
      state.Enqueue(key, read, t.failedAt, t.now, t.nowMs);
      if c.mode.NoDoubleConsume? {
        storedRetry := read + 1;
      }
      Take(s.(schedule := state.Value(), read := s.read + 1, taken := s.taken + [s.read], storedRetry := storedRetry),
           Step.Read(t.failedAt, t.now, t.nowMs));
      read := read + 1;
    }

    /** Schedules every retry record that is left to read. */
    method DrainRetry(times: nat -> Times)
      requires At(Draining) && read <= |retry|
      modifies this`storedRetry, this`read, this`states, this`steps, state
      ensures At(Running) && old(states) <= states && read == |retry|
      ensures c.mode.NoDoubleConsume? ==> storedRetry == read
    {
      hide Behaves;
      while read < |retry|
        invariant At(Draining) && read <= |retry| && old(states) <= states
      {
        ReadNext(times(read));
      }
      Stored(c, states, steps);
      Take(Now().(phase := Running), Step.Drained);
    }

    /** Attempts a due key. */
    method RunKey(key: Key, now: int, replies: Key -> Replies)
      requires At(Running) && key in state.keys && state.keys[key].dueAt <= now
      modifies this`states, this`steps, state
      ensures At(Running) && old(states) <= states
      ensures |steps| == |old(steps)| + 1 && old(steps) <= steps && steps[|old(steps)|].Attempt? && steps[|old(steps)|].try.key == key
      ensures forall k :: k in old(state.keys) && k != key ==> k in state.keys && state.keys[k] == old(state.keys)[k]
    {
      hide Behaves, AttemptOk, Inv, Finished, Finishing, Handlings;
      ghost var s := Now();
      Last(c, states, steps);
      var finish, calls;
      ghost var t;
      finish, calls, t := AttemptKey(c, maxBatch, s, retry, state, key, now, replies(key));
      OthersStay(c, s, t);
      AttemptTaken(c, s, t);
      Take(AfterAttempt(c, s, t), Attempt(t));
    }

    /** Attempts every due key. */
    method RunDue(now: int, replies: Key -> Replies)
      requires At(Running)
      modifies this`states, this`steps, state
      ensures At(Running) && old(states) <= states && old(steps) <= steps
      ensures forall k :: k in old(state.keys) && old(state.keys)[k].dueAt <= now ==> WasTried(steps, |old(steps)|, k)
    {
      hide At, WasTried;
      var due := set k | k in state.keys && state.keys[k].dueAt <= now;
      while due != {}
        invariant At(Running) && old(states) <= states && old(steps) <= steps
        invariant forall k :: k in old(state.keys) && old(state.keys)[k].dueAt <= now ==> k in due || WasTried(steps, |old(steps)|, k)
        invariant forall k :: k in due ==> k in state.keys && state.keys[k].dueAt <= now
        decreases |due|
      {
        Inhabited(due);
        var key: Key :| key in due;
        due := due - {key};
        ghost var before := steps;
        RunKey(key, now, replies);
        TriedSnoc(before, steps, |old(steps)|, key);
      }
    }

    /** What can be stored of the retry partition is stored. */
    ghost predicate Committed(offset: Option<nat>)
      reads this, state
    {
      && IsCommittable(state.Value(), read, offset)
      && (offset.Some? ==> retryStored.Some? && retryStored.value >= offset.value)
    }

    /** Stores how far the retry partition is consumed. */
    method Store()
      requires At(Running)
      modifies this`storedRetry, this`retryStored, this`states, this`steps
      ensures At(Running) && old(states) <= states
      ensures c.mode.NoEventLose? ==> exists offset :: Committed(offset) && (retryStored == offset || retryStored == old(retryStored))
    {
      hide Behaves, Inv, IsCommittable, Valid;
      if c.mode.NoEventLose? {
        Last(c, states, steps);
        ValidAt(c, Now());
        var offset := state.Committable(read);
        if offset.Some? && (retryStored.None? || offset.value > retryStored.value) {
          ghost var s := Now();
          storedRetry := offset.value + 1;
          retryStored := offset;
          Take(s.(storedRetry := storedRetry, retryStored := retryStored), Commit(offset.value));
        }
        assert Committed(offset);
      }
    }

    /** The server answers the poll of the main partition with `count` records. */
    method Polled(count: nat)
      requires At(Running) && next + count <= |c.log| && count > 0
      modifies this`storedMain, this`states, this`steps
      ensures At(Working(count, BatchKeys(c, next, count), [])) && old(states) <= states
      ensures c.mode.NoDoubleConsume? ==> storedMain == next + count
    {
      hide Behaves, BatchKeys, Unparsed;
      ghost var s := Now();
      if c.mode.NoDoubleConsume? {
        storedMain := next + count;
      }
      Take(s.(phase := Working(count, BatchKeys(c, next, count), []), planned := s.planned + seq(count, i requires 0 <= i < count => s.next + i),
              dropped := s.dropped + Unparsed(c, next, count), storedMain := storedMain), Poll(count));
    }

    /** Executes or diverts the keys of a batch. */
    method Process(count: nat, replies: Key -> Replies) returns (entries: seq<Entry<nat>>)
      requires next + count <= |c.log| && At(Working(count, BatchKeys(c, next, count), []))
      modifies this`states, this`steps
      ensures At(Working(count, {}, entries)) && old(states) <= states
    {
      hide Behaves, BatchKeys, Path;
      ghost var s := Now();
      entries := ProcessMain(c, maxBatch, s, state, next, count, replies);
      ghost var more, moves :| Processed(c, s, count, entries, more, moves);
      Continues(c, states, steps, more, moves);
      LastOf(states, more);
      states, steps := states + more[1..], steps + moves;
    }

    /** Sends the retry records of a batch. */
    method SendEntries(count: nat, entries: seq<Entry<nat>>)
      requires At(Working(count, {}, entries))
      modifies this`retry, this`states, this`steps
      ensures At(Sent(count)) && old(states) <= states && retry == old(retry) + entries
    {
      hide Behaves;
      retry := retry + entries;
      Take(Now().(retry := retry, phase := Sent(count)), Send);
    }

    /** Moves past a batch whose retry records were sent. */
    method MoveOn(count: nat)
      requires At(Sent(count))
      modifies this`storedMain, this`next, this`states, this`steps
      ensures At(Draining) && old(states) <= states && next == old(next) + count
      ensures storedMain == if c.mode.NoEventLose? then next else old(storedMain)
    {
      hide Behaves;
      if c.mode.NoEventLose? {
        storedMain := next + count;
      }
      Take(Now().(next := next + count, phase := Draining, storedMain := storedMain), Step.Finish);
      next := next + count;
    }

    /** The process died in `phase`, after `partial` of the work in progress, and
        a new one starts from the stored offsets. */
    method Restart(ghost phase: Phase, ghost partial: seq<Handling>)
      requires At(phase) && CutOff(c, Now(), partial)
      modifies this
      ensures At(Draining) && old(states) <= states && fresh(state)
      ensures retry == old(retry) && storedMain == old(storedMain) && storedRetry == old(storedRetry)
      ensures next == storedMain && read == storedRetry && state.Value() == Schedule(map[], 0)
      ensures Now().hist == old(Now()).hist + partial
    {
      hide Behaves, CutOff, Inv;
      ghost var s := Now();
      Last(c, states, steps);
      ValidAt(c, s);
      next, read, retryStored := storedMain, storedRetry, None;
      state := new RetryState(c.delays);
      Take(s.(next := s.storedMain, read := s.storedRetry, schedule := Schedule(map[], 0), retryStored := None,
              phase := Draining, hist := s.hist + partial, crashed := true), Crash(partial));
    }

    /** Consumes a batch of `count` records. */
    method Consume(count: nat, replies: Key -> Replies)
      requires At(Running) && next + count <= |c.log| && count > 0
      modifies this`retry, this`storedMain, this`next, this`states, this`steps
      ensures At(Draining) && old(states) <= states && next == old(next) + count
    {
      hide At, BatchKeys;
      Polled(count);
      var entries := Process(count, replies);
      SendEntries(count, entries);
      MoveOn(count);
    }

    /** One turn of the loop, in which the server answers the poll of the main
        partition with `count` records. */
    method Turn(times: nat -> Times, now: int, count: nat, replies: Key -> Replies)
      requires At(Draining) && next + count <= |c.log|
      modifies this, state
      ensures At(Draining) && old(states) <= states && next == old(next) + count && state == old(state)
    {
      hide Behaves;
      ReadInRange(c, states, steps);
      DrainRetry(times);
      RunDue(now, replies);
      Store();
      if count == 0 {
        Take(Now().(phase := Draining), Poll(0));
      } else {
        Consume(count, replies);
      }
    }
  }

  lemma LastOf(states: seq<State>, more: seq<State>)
    requires states != [] && more != [] && states[|states| - 1] == more[0]
    ensures (states + more[1..])[|states + more[1..]| - 1] == more[|more| - 1]
  {
  }

  lemma Last(c: Config, states: seq<State>, steps: seq<Step>)
    requires Behaves(c, states, steps)
    ensures Inv(c, states[|states| - 1])
  {
    InvReached(c, states, steps, |states| - 1);
  }

  lemma ReadInRange(c: Config, states: seq<State>, steps: seq<Step>)
    requires Behaves(c, states, steps)
    ensures states[|states| - 1].read <= |states[|states| - 1].retry|
  {
    Last(c, states, steps);
  }

  /** In `NoDoubleConsume` what was read is stored. */
  lemma Stored(c: Config, states: seq<State>, steps: seq<Step>)
    requires Behaves(c, states, steps)
    ensures c.mode.NoDoubleConsume? ==> states[|states| - 1].storedRetry == states[|states| - 1].read
  {
    if c.mode.NoDoubleConsume? {
      TaskOnce.HandledAtMostOnce(c, states, steps, |states| - 1);
    }
  }

  lemma ValidAt(c: Config, s: State)
    requires Inv(c, s)
    ensures Valid(s.schedule, c.delays, s.read)
  {
  }

  /** The state after an attempt. */
  ghost function AfterAttempt(c: Config, s: State, t: Try): State
    requires AttemptOk(c, s, t)
  {
    s.(schedule := Finishing(c, s, t).0,
       hist := s.hist + TaskOnce.AttemptHist(c, s, t),
       dropped := s.dropped + AttemptDrops(c, s, t))
  }

  lemma AttemptTaken(c: Config, s: State, t: Try)
    requires AttemptOk(c, s, t)
    ensures AttemptStep(c, s, AfterAttempt(c, s, t), t)
  {
    hide OffsetsOf;
  }

  /** An attempt leaves the other keys scheduled as they are. */
  lemma OthersStay(c: Config, s: State, t: Try)
    requires AttemptOk(c, s, t)
    ensures forall k :: k in s.schedule.keys && k != t.key ==>
              k in Finishing(c, s, t).0.keys && Finishing(c, s, t).0.keys[k] == s.schedule.keys[k]
  {
    hide OffsetsOf;
    FinishedIs(s.schedule, c.delays, t.key, t.resolved, t.failed, t.now);
  }
}
