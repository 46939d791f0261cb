/** Running the due keys and processing a main batch, as the partition task does. */
module Runtime {
  import opened Wrappers
  import opened Events
  import opened Segmentation
  import opened PlanOrder
  import opened Planner
  import opened Commuting
  import opened Work
  import opened Handler
  import opened Execute
  import opened Encode
  import opened Execution
  import opened Replan
  import opened Retry
  import opened Task
  import opened TaskRuns
  import PlanNew

  /** How the handlers answer, by stage, run and position. */
  type Replies = nat -> nat -> nat -> Answer

  /** The answer to every event of the calls. */
  ghost function Answered(calls: seq<Call<nat>>): (answers: seq<bool>)
    ensures |answers| == |CalledEvents(calls)|
  {
    if calls == [] then []
    else
      var last := calls[|calls| - 1];
      Answered(calls[..|calls| - 1]) + seq(|last.events|, _ => last.applied)
  }

  // --- Reports ---

  lemma {:induction false} CompletedIs(stage: Stage, fail: seq<Option<nat>>, i: nat)
    requires |fail| == |stage|
    ensures i in CompletedIn(stage, fail) <==> exists b :: 0 <= b < |stage| && fail[b].None? && i in stage[b].records
  {
    if stage != [] {
      var n := |stage| - 1;
      CompletedIs(stage[..n], fail[..n], i);
      assert forall b :: 0 <= b < n ==> stage[..n][b] == stage[b] && fail[..n][b] == fail[b];
    }
  }

  ghost predicate InStages(stages: seq<Stage>, upto: nat, i: nat) {
    exists g: nat, b: nat :: g < upto && At(stages, g, b, i)
  }

  lemma {:induction false} CompletedBeforeIs(stages: seq<Stage>, g: nat, i: nat)
    requires g <= |stages|
    ensures i in CompletedBefore(stages, g) <==> InStages(stages, g, i)
  {
    if g > 0 {
      CompletedBeforeIs(stages, g - 1, i);
      var stage := stages[g - 1];
      CompletedIs(stage, NoFailure(|stage|), i);
      if InStages(stages, g, i) {
        var k: nat, b: nat :| k < g && At(stages, k, b, i);
        if k < g - 1 {
          assert InStages(stages, g - 1, i);
        } else {
          assert NoFailure(|stage|)[b].None? && i in stage[b].records;
        }
      }
      if i in CompletedIn(stage, NoFailure(|stage|)) {
        var b :| 0 <= b < |stage| && NoFailure(|stage|)[b].None? && i in stage[b].records;
        assert At(stages, g - 1, b, i);
      } else if i in CompletedBefore(stages, g - 1) {
        var k: nat, b: nat :| k < g - 1 && At(stages, k, b, i);
        assert At(stages, k, b, i);
      }
    }
  }

  /** The completed records of a report are those of completed runs. */
  lemma ReportCompleted(h: Handlers<nat, nat>, stages: seq<Stage>, work: Work<nat>, out: Outcome, report: KeyReport<nat>, i: nat)
    requires SameShape(stages, work) && OutcomeOk(work, out) && Reports(h, stages, work, out, report)
    ensures i in report.completed <==> InDone(stages, out, i)
  {
    hide CompletedBefore, CompletedIn, FailedIn;
    CompletedBeforeIs(stages, out.stop, i);
    if out.stop < |stages| {
      CompletedIs(stages[out.stop], out.fail, i);
    }
    if InDone(stages, out, i) {
      var g: nat, b: nat :| At(stages, g, b, i) && RunDone(out, g, b);
      if g < out.stop {
        assert InStages(stages, out.stop, i);
      }
    }
    if InStages(stages, out.stop, i) {
      var g: nat, b: nat :| g < out.stop && At(stages, g, b, i);
      assert RunDone(out, g, b);
    } else if out.stop < |stages| && i in CompletedIn(stages[out.stop], out.fail) {
      var b :| 0 <= b < |out.fail| && out.fail[b].None? && i in stages[out.stop][b].records;
      assert At(stages, out.stop, b, i) && RunDone(out, out.stop, b);
    }
  }

  ghost predicate InRuns(failedRuns: seq<FailedRun<nat>>, i: nat) {
    exists fr :: fr in failedRuns && i in fr.records
  }

  /** The failed runs of a report hold the records of failed runs. */
  lemma ReportFailed(h: Handlers<nat, nat>, stages: seq<Stage>, work: Work<nat>, out: Outcome, i: nat)
    requires SameShape(stages, work) && OutcomeOk(work, out) && out.stop < |stages|
    ensures InRuns(FailedIn(h, out.stop % 3, stages[out.stop], work[out.stop], out.fail), i) <==> InFailed(stages, out, i)
  {
    hide Encoded, FailedIn;
    var stage, items := stages[out.stop], work[out.stop];
    var failedRuns := FailedIn(h, out.stop % 3, stage, items, out.fail);
    if InRuns(failedRuns, i) {
      var fr :| fr in failedRuns && i in fr.records;
      FailedInIs(h, out.stop % 3, stage, items, out.fail, fr);
      assert At(stages, out.stop, fr.stage.place, i) && RunFailed(out, out.stop, fr.stage.place);
    }
    if InFailed(stages, out, i) {
      var g: nat, b: nat :| At(stages, g, b, i) && RunFailed(out, g, b);
      var fr := FailedRun(StagePos(out.stop % 3, b), stage[b].records, Encoded(h, stage[b].tag, items[b][out.fail[b].value..]));
      FailedInIs(h, out.stop % 3, stage, items, out.fail, fr);
    }
  }

  /** What a report says, by record. */
  ghost predicate Reported(stages: seq<Stage>, out: Outcome, report: KeyReport<nat>) {
    && (forall i: nat :: i in report.completed <==> InDone(stages, out, i))
    && (report.failure.None? <==> out.stop == |stages|)
    && (report.failure.Some? ==> forall i: nat :: InRuns(report.failure.value.failedRuns, i) <==> InFailed(stages, out, i))
    && (report.failure.None? ==> forall i: nat :: !InFailed(stages, out, i))
  }

  lemma ReportIs(h: Handlers<nat, nat>, stages: seq<Stage>, work: Work<nat>, out: Outcome, report: KeyReport<nat>)
    requires SameShape(stages, work) && OutcomeOk(work, out) && Reports(h, stages, work, out, report)
    ensures Reported(stages, out, report)
    ensures report.failure.Some? ==> FailureOf(h, stages, work, Reached(out), report.failure)
  {
    hide InDone, InFailed, InRuns, FailedIn, CompletedBefore, CompletedIn;
    forall i: nat
      ensures i in report.completed <==> InDone(stages, out, i)
    {
      ReportCompleted(h, stages, work, out, report, i);
    }
    if out.stop < |stages| {
      forall i: nat
        ensures InRuns(report.failure.value.failedRuns, i) <==> InFailed(stages, out, i)
      {
        ReportFailed(h, stages, work, out, i);
      }
    } else {
      forall i: nat
        ensures !InFailed(stages, out, i)
      {
        NoneFailed(stages, out, i);
      }
    }
  }

  lemma NoneFailed(stages: seq<Stage>, out: Outcome, i: nat)
    requires out.stop == |stages|
    ensures !InFailed(stages, out, i)
  {
  }

  // --- One key ---

  lemma StagesFitOf(rs: seq<PlanRecord>, key: Key, stages: seq<Stage>)
    requires RunsOk(rs, key, stages)
    ensures StagesFit(stages, |rs|)
  {
    forall g, b | 0 <= g < |stages| && 0 <= b < |stages[g]|
      ensures forall p :: 0 <= p < |stages[g][b].records| ==> stages[g][b].records[p] < |rs|
    {
      assert RunOk(rs, key, stages[g][b], g);
    }
  }

  ghost predicate Batches(maxBatch: Tag -> nat) {
    forall tag: Tag :: maxBatch(tag) > 0
  }

  /** The handlers were called with the records `done`, in order, by an execution that ended with `out`. */
  ghost predicate Ran(c: Config, rs: seq<PlanRecord>, key: Key, stages: seq<Stage>, src: seq<nat>, out: Outcome,
                      calls: seq<Call<nat>>, done: seq<nat>) {
    && Executes(rs, key, stages, Good(c, src), out, done)
    && InBounds(done, |src|)
    && CalledEvents(calls) == Pick(src, done)
  }

  /** Executes a key: what the handlers were called with, in order, is an
      execution the machine allows. */
  method RunKey(c: Config, maxBatch: Tag -> nat, ghost rs: seq<PlanRecord>, ghost key: Key, stages: seq<Stage>, src: seq<nat>, replies: Replies)
    returns (report: KeyReport<nat>, calls: seq<Call<nat>>, out: Outcome)
    requires KeyOk(rs, key, stages) && |rs| == |src| && Batches(maxBatch)
    ensures exists done :: Ran(c, rs, key, stages, src, out, calls, done)
    ensures Reported(stages, out, report)
    ensures StagesFit(stages, |src|)
    ensures report.failure.Some? ==>
              FailureOf(Plain(c, maxBatch), stages, KeyWork(Plain(c, maxBatch), stages, src), Reached(out), report.failure)
  {
    hide Executes, Reported, Reports, FailureOf, HandledAll, OutcomeOk, Good;
    var h := Plain(c, maxBatch);
    StagesFitOf(rs, key, stages);
    ghost var work, items := RecordWork(stages, Good(c, src)), KeyWork(h, stages, src);
    report, calls, out := ExecuteKey(h, stages, src, replies);
    WorkPlain(c, maxBatch, src, stages);
    SameOutcomes(src, work, items, out);
    HandledExecutes(rs, key, stages, Good(c, src), out);
    HandledPlain(src, work, items, out);
    ReportIs(h, stages, items, out, report);
    assert Ran(c, rs, key, stages, src, out, calls, HandledAll(work, out));
  }

  // --- Retry attempts ---

  /** The offsets of the records of failed runs. */
  method FailedOffsets(queue: seq<nat>, failedRuns: seq<FailedRun<nat>>) returns (failed: seq<nat>)
    requires forall i: nat :: InRuns(failedRuns, i) ==> i < |queue|
    ensures forall o: nat :: o in failed <==> exists i: nat :: InRuns(failedRuns, i) && i < |queue| && queue[i] == o
  {
    failed := [];
    for n := 0 to |failedRuns|
      invariant forall o: nat :: o in failed <==> exists i: nat :: InRuns(failedRuns[..n], i) && i < |queue| && queue[i] == o
    {
      var records := failedRuns[n].records;
      forall i: nat
        ensures InRuns(failedRuns[..n + 1], i) <==> InRuns(failedRuns[..n], i) || i in records
        ensures i in records ==> i < |queue|
      {
        RunsSnoc(failedRuns, n, i);
      }
      assert forall a :: 0 <= a < |records| ==> records[a] in records;
      var more := Pick(queue, records);
      forall o: nat
        ensures o in more <==> exists i: nat :: i in records && i < |queue| && queue[i] == o
      {
        PickIs(queue, records, o);
      }
      failed := failed + more;
    }
    assert failedRuns[..|failedRuns|] == failedRuns;
  }

  lemma RunsSnoc(failedRuns: seq<FailedRun<nat>>, n: nat, i: nat)
    requires n < |failedRuns|
    ensures InRuns(failedRuns[..n + 1], i) <==> InRuns(failedRuns[..n], i) || i in failedRuns[n].records
    ensures i in failedRuns[n].records ==> InRuns(failedRuns, i)
  {
    assert failedRuns[..n + 1] == failedRuns[..n] + [failedRuns[n]];
    if i in failedRuns[n].records {
      assert failedRuns[n] in failedRuns[..n + 1];
    } else if InRuns(failedRuns[..n], i) {
      var fr :| fr in failedRuns[..n] && i in fr.records;
      assert fr in failedRuns[..n + 1];
    }
  }

  lemma PickIs(xs: seq<nat>, p: seq<nat>, o: nat)
    requires InBounds(p, |xs|)
    ensures o in Pick(xs, p) <==> exists i: nat :: i in p && i < |xs| && xs[i] == o
  {
    if o in Pick(xs, p) {
      var a :| 0 <= a < |p| && xs[p[a]] == o;
      assert p[a] in p;
    }
    if i: nat :| i in p && i < |xs| && xs[i] == o {
      var a :| 0 <= a < |p| && p[a] == i;
      assert Pick(xs, p)[a] == o;
    }
  }

  /** The offsets of some records of a queue pick out these records. */
  lemma OffsetsAre(queue: seq<nat>, select: set<nat>, offsets: seq<nat>)
    requires Increasing(queue)
    requires forall o: nat :: o in offsets <==> exists i: nat :: i in select && i < |queue| && queue[i] == o
    ensures OffsetsOf(queue, select, offsets)
  {
  }

  /** The plan of the pending records of a key is the plan of that key. */
  lemma OneKey(rs: seq<PlanRecord>, key: Key, plan: Plan)
    requires rs != [] && (forall i :: 0 <= i < |rs| ==> rs[i].key == key) && PlanOk(rs, plan)
    ensures plan.InRange() && plan.keys != [] && KeyOk(rs, key, plan.Stages(0))
  {
    hide KeyOk, Assign;
    AssignInv(rs);
    var st := Assign(rs);
    assert rs[0].key in st.slots;
    assert st.keys[0] in st.keys;
    var i: nat :| HasKey(rs, i, st.keys[0]);
  }

  /** Plans and executes the pending records of a due key, and settles the
      outcome in the schedule: a step of the machine. */
  method AttemptKey(c: Config, maxBatch: Tag -> nat, ghost s: State, retry: seq<Entry<nat>>, state: RetryState, key: Key,
                    now: int, replies: Replies) returns (finish: Retry.Finish, calls: seq<Call<nat>>, ghost t: Try)
    requires Inv(c, s) && s.phase.Running? && s.retry == retry && Batches(maxBatch)
    requires state.Value() == s.schedule && state.delays == c.delays && key in s.schedule.keys && s.schedule.keys[key].dueAt <= now
    modifies state
    ensures AttemptOk(c, s, t) && t.key == key
    ensures (state.Value(), finish) == Finishing(c, s, t)
    ensures CalledEvents(calls) == Pick(Items(Queue(s, s.schedule.keys[key].records)), t.done)
  {
    hide KeyOk, Executes, Assign, Inv, Finished, FailureOf, PlanOk, Canonical, Reported, Good, OffsetsOf, DoneSet, FailedSet, InRuns, AttemptOk;
    assert s.schedule.keys[key].records != [] && |s.schedule.keys[key].records| <= s.schedule.pending
           && Increasing(s.schedule.keys[key].records)
           && forall i :: 0 <= i < |s.schedule.keys[key].records| ==> s.schedule.keys[key].records[i] < |s.retry| by { PendingSent(c, s, key); }
    var queue := state.keys[key].records;
    var src := seq(|queue|, i requires 0 <= i < |queue| => retry[queue[i]].item);
    var rs := seq(|queue|, i requires 0 <= i < |queue| => PlanRecord(key, retry[queue[i]].tag, retry[queue[i]].ordering));
    ghost var entries := Queue(s, queue);
    assert rs == Headers(key, entries) && src == Items(entries);
    var plan := PlanNew.New(rs);
    OneKey(rs, key, plan);
    var stages := plan.Stages(0);
    var report, out;
    report, calls, out := RunKey(c, maxBatch, rs, key, stages, src, replies);
    ghost var done :| Ran(c, rs, key, stages, src, out, calls, done);
    DoneInRange(rs, key, stages, out, report);
    var resolved := Pick(queue, report.completed);
    var failed := [];
    if report.failure.Some? {
      failed := FailedOffsets(queue, report.failure.value.failedRuns);
    }
    ReportedOffsets(queue, rs, key, stages, out, report, resolved, failed);
    t := Try(key, now, stages, out, done, Answered(calls), resolved, failed);
    AttemptIs(c, s, t, queue, entries);
    finish := state.Finish(key, resolved, failed, now);
  }

  lemma AttemptIs(c: Config, s: State, t: Try, queue: seq<nat>, entries: seq<Entry<nat>>)
    requires s.phase.Running? && t.key in s.schedule.keys && s.schedule.keys[t.key].dueAt <= t.now
    requires queue == s.schedule.keys[t.key].records && forall i :: 0 <= i < |queue| ==> queue[i] < |s.retry|
    requires entries == Queue(s, queue)
    requires Executes(Headers(t.key, entries), t.key, t.stages, Good(c, Items(entries)), t.out, t.done)
    requires |t.answers| == |t.done| && InBounds(t.done, |queue|)
    requires OffsetsOf(queue, DoneSet(t.stages, t.out, |queue|), t.resolved)
    requires OffsetsOf(queue, FailedSet(t.stages, t.out, |queue|), t.failed)
    ensures AttemptOk(c, s, t)
  {
    hide Executes, OffsetsOf, Good;
  }

  lemma PendingSent(c: Config, s: State, key: Key)
    requires Inv(c, s) && key in s.schedule.keys
    ensures s.schedule.keys[key].records != []
    ensures |s.schedule.keys[key].records| <= s.schedule.pending
    ensures forall i :: 0 <= i < |s.schedule.keys[key].records| ==> s.schedule.keys[key].records[i] < |s.retry|
    ensures Increasing(s.schedule.keys[key].records)
  {
    hide EntriesOk, KeyedOk;
    var queue := s.schedule.keys[key].records;
    TotalRemove(s.schedule.keys, key);
    assert forall i :: 0 <= i < |queue| ==> queue[i] in queue;
  }

  lemma DoneInRange(rs: seq<PlanRecord>, key: Key, stages: seq<Stage>, out: Outcome, report: KeyReport<nat>)
    requires KeyOk(rs, key, stages) && Reported(stages, out, report)
    ensures InBounds(report.completed, |rs|)
    ensures report.failure.Some? ==> forall i: nat :: InRuns(report.failure.value.failedRuns, i) ==> i < |rs|
  {
    hide RunOk, SegmentsOk, Complete, InRuns, At;
    forall i: nat | InDone(stages, out, i) || InFailed(stages, out, i)
      ensures i < |rs|
    {
      var g, b := RanPlaceOf(stages, out, i);
      AtIs(rs, key, stages, g, b, i);
    }
    assert forall a :: 0 <= a < |report.completed| ==> report.completed[a] in report.completed;
  }

  lemma RanPlaceOf(stages: seq<Stage>, out: Outcome, i: nat) returns (g: nat, b: nat)
    requires InDone(stages, out, i) || InFailed(stages, out, i)
    ensures At(stages, g, b, i)
  {
    g, b :| At(stages, g, b, i);
  }

  lemma ReportedOffsets(queue: seq<nat>, rs: seq<PlanRecord>, key: Key, stages: seq<Stage>, out: Outcome,
                        report: KeyReport<nat>, resolved: seq<nat>, failed: seq<nat>)
    requires KeyOk(rs, key, stages) && Reported(stages, out, report) && |rs| == |queue| && Increasing(queue)
    requires InBounds(report.completed, |queue|) && resolved == Pick(queue, report.completed)
    requires report.failure.None? ==> failed == []
    requires report.failure.Some? ==>
               forall o: nat :: o in failed <==> exists i: nat :: InRuns(report.failure.value.failedRuns, i) && i < |queue| && queue[i] == o
    ensures OffsetsOf(queue, DoneSet(stages, out, |queue|), resolved)
    ensures OffsetsOf(queue, FailedSet(stages, out, |queue|), failed)
  {
    hide InDone, InFailed, InRuns, KeyOk;
    DoneInRange(rs, key, stages, out, report);
    forall o: nat
      ensures o in resolved <==> exists i: nat :: i in DoneSet(stages, out, |queue|) && i < |queue| && queue[i] == o
    {
      PickIs(queue, report.completed, o);
    }
    OffsetsAre(queue, DoneSet(stages, out, |queue|), resolved);
    forall o: nat
      ensures o in failed <==> exists i: nat :: i in FailedSet(stages, out, |queue|) && i < |queue| && queue[i] == o
    {
      if report.failure.Some? && o in failed {
        var i: nat :| InRuns(report.failure.value.failedRuns, i) && i < |queue| && queue[i] == o;
        assert i in FailedSet(stages, out, |queue|);
      }
    }
    OffsetsAre(queue, FailedSet(stages, out, |queue|), failed);
  }

  // --- Main batches ---

  /** Steps of the machine from one state to another. */
  ghost predicate Path(c: Config, states: seq<State>, steps: seq<Step>) {
    && |states| == |steps| + 1
    && forall i :: 0 <= i < |steps| ==> NextStep(c, states[i], states[i + 1], steps[i])
  }

  lemma PathSnoc(c: Config, states: seq<State>, steps: seq<Step>, s: State, step: Step)
    requires Path(c, states, steps) && NextStep(c, states[|states| - 1], s, step)
    ensures Path(c, states + [s], steps + [step])
  {
    hide NextStep;
  }

  /** What processing a key of a batch leaves of the state. */
  ghost predicate KeyProcessed(s: State, s': State, key: Key, entries: seq<Entry<nat>>) {
    s.phase.Working? && s' == s.(phase := Working(s.phase.count, s.phase.keys - {key}, entries), hist := s'.hist, dropped := s'.dropped)
  }

  /** A step of the machine that processes a key and leaves `entries` to be sent. */
  ghost predicate KeyStep(c: Config, s: State, s': State, step: Step, key: Key, entries: seq<Entry<nat>>) {
    NextStep(c, s, s', step) && KeyProcessed(s, s', key, entries)
  }

  /** Diverts a quarantined key. */
  method DivertKey(c: Config, maxBatch: Tag -> nat, ghost s: State, key: Key, src: seq<nat>, stages: seq<Stage>, before: seq<Entry<nat>>)
    returns (entries: seq<Entry<nat>>)
    requires Processes(c, s, key, src) && key in s.schedule.keys && before == s.phase.entries
    requires KeyOk(Records(c, src), key, stages)
    ensures exists s', step :: KeyStep(c, s, s', step, key, entries)
  {
    hide KeyOk, Writes, KeyEntries, LeftPayloads;
    var h := Plain(c, maxBatch);
    assert StagesFit(stages, |src|) && |stages| % 3 == 0 by { FitOf(Records(c, src), key, stages); }
    ghost var written := EncodePlain(c, maxBatch, Records(c, src), key, src, stages, Untouched);
    var more := EncodeKey(h, stages, src, None, Untouched);
    entries := before + more;
    ghost var step := Divert(key, src, stages, written);
    ghost var s' := s.(phase := Working(s.phase.count, s.phase.keys - {key}, entries), dropped := s.dropped + Undecoded(c, src, key));
    assert KeyStep(c, s, s', step, key, entries);
  }

  lemma FitOf(rs: seq<PlanRecord>, key: Key, stages: seq<Stage>)
    requires KeyOk(rs, key, stages)
    ensures StagesFit(stages, |rs|) && |stages| % 3 == 0
  {
    StagesFitOf(rs, key, stages);
  }

  /** Executes a key that isn't quarantined, and collects what is unfinished
      unless the backlog is full. */
  method ExecuteMainKey(c: Config, maxBatch: Tag -> nat, ghost s: State, pending: nat, key: Key, src: seq<nat>, stages: seq<Stage>,
                        before: seq<Entry<nat>>, replies: Replies)
    returns (entries: seq<Entry<nat>>, calls: seq<Call<nat>>)
    requires Processes(c, s, key, src) && key !in s.schedule.keys && before == s.phase.entries && pending == s.schedule.pending
    requires KeyOk(Records(c, src), key, stages) && Batches(maxBatch)
    ensures exists s', step :: KeyStep(c, s, s', step, key, entries)
              && step.Execute? && InBounds(step.done, |src|) && CalledEvents(calls) == Pick(src, step.done)
  {
    hide KeyOk, Writes, Executes, KeyEntries, LeftPayloads, Undecoded, Handlings, ItemSet, OutcomeOk;
    var h := Plain(c, maxBatch);
    ghost var rs := Records(c, src);
    assert |stages| % 3 == 0 by { FitOf(rs, key, stages); }
    var report, out;
    report, calls, out := RunKey(c, maxBatch, rs, key, stages, src, replies);
    ghost var done :| Ran(c, rs, key, stages, src, out, calls, done);
    ExecutedOk(rs, key, stages, Good(c, src), out, done);
    ghost var written := EncodePlain(c, maxBatch, rs, key, src, stages, Reached(out));
    entries := before;
    if report.failure.Some? {
      var failed := EncodeKey(h, stages, src, report.failure, Reached(out));
      if pending + |entries| + |failed| <= c.maxPending {
        entries := entries + failed;
      }
    }
    ghost var answers := Answered(calls);
    ghost var more := if out.stop < |stages| then Backlogged(c, s, Renamed(src, written)) else [];
    assert entries == s.phase.entries + more;
    ghost var step := Execute(key, src, stages, out, done, answers, written);
    ghost var s' := s.(phase := Working(s.phase.count, s.phase.keys - {key}, entries),
             hist := s.hist + Handlings(src, done, answers, {}),
             dropped := s.dropped + Undecoded(c, src, key) + (if out.stop < |stages| && more == [] then ItemSet(Renamed(src, written)) else {}));
    assert KeyStep(c, s, s', step, key, entries);
  }

  lemma ExecutedOk(rs: seq<PlanRecord>, key: Key, stages: seq<Stage>, good: set<nat>, out: Outcome, done: seq<nat>)
    requires Executes(rs, key, stages, good, out, done)
    ensures OutcomeOk(RecordWork(stages, good), out) && out.stop <= |stages|
  {
  }

  ghost predicate HasRecord(rs: seq<PlanRecord>, key: Key) {
    exists i: nat :: HasKey(rs, i, key)
  }

  ghost predicate HasPlan(plan: Plan, key: Key) {
    exists k :: 0 <= k < |plan.keys| && plan.keys[k].key == key
  }

  /** The keys of the plan of a batch are the keys of its records, each once. */
  lemma PlanKeys(rs: seq<PlanRecord>, plan: Plan)
    requires PlanOk(rs, plan)
    ensures forall k, l :: 0 <= k < l < |plan.keys| ==> plan.keys[k].key != plan.keys[l].key
    ensures forall k :: 0 <= k < |plan.keys| ==> HasRecord(rs, plan.keys[k].key)
    ensures forall i :: 0 <= i < |rs| ==> HasPlan(plan, rs[i].key)
  {
    hide Assign, KeyOk;
    AssignInv(rs);
    var st := Assign(rs);
    forall k | 0 <= k < |plan.keys|
      ensures HasRecord(rs, plan.keys[k].key)
    {
      assert plan.keys[k].key == st.keys[k] && st.keys[k] in st.keys;
      var i: nat :| HasKey(rs, i, st.keys[k]);
      assert HasKey(rs, i, plan.keys[k].key);
    }
    forall i | 0 <= i < |rs|
      ensures HasPlan(plan, rs[i].key)
    {
      var k := st.slots[rs[i].key].index;
      assert st.keys[k] == rs[i].key && 0 <= k < |plan.keys|;
      assert plan.keys[k].key == st.keys[k];
    }
  }

  ghost function KeysFrom(plan: Plan, k: nat): set<Key> {
    set l | k <= l < |plan.keys| :: plan.keys[l].key
  }

  lemma BatchKeysAre(c: Config, lo: nat, count: nat, src: seq<nat>, plan: Plan)
    requires Batch(c, lo, count, src) && (forall i :: 0 <= i < |src| ==> src[i] < |c.log|) && PlanOk(Records(c, src), plan)
    ensures KeysFrom(plan, 0) == BatchKeys(c, lo, count)
  {
    hide PlanOk;
    PlanKeys(Records(c, src), plan);
    forall key: Key | key in KeysFrom(plan, 0)
      ensures key in BatchKeys(c, lo, count)
    {
      var k :| 0 <= k < |plan.keys| && plan.keys[k].key == key;
      var i: nat :| HasKey(Records(c, src), i, key);
      assert src[i] in src && KeyAt(c, src[i]) == key;
    }
    forall key: Key | key in BatchKeys(c, lo, count)
      ensures key in KeysFrom(plan, 0)
    {
      var o: nat :| lo <= o < lo + count && o < |c.log| && c.log[o].parses && KeyAt(c, o) == key;
      assert o in src;
      var i :| 0 <= i < |src| && src[i] == o;
      assert Records(c, src)[i].key == key;
    }
  }

  lemma KeysStep(plan: Plan, k: nat)
    requires k < |plan.keys| && forall i, j :: 0 <= i < j < |plan.keys| ==> plan.keys[i].key != plan.keys[j].key
    ensures plan.keys[k].key in KeysFrom(plan, k) && KeysFrom(plan, k) - {plan.keys[k].key} == KeysFrom(plan, k + 1)
  {
  }

  lemma NoKeysLeft(plan: Plan)
    ensures KeysFrom(plan, |plan.keys|) == {}
  {
  }

  lemma PlannedKey(rs: seq<PlanRecord>, plan: Plan, k: nat)
    requires PlanOk(rs, plan) && k < |plan.keys|
    ensures plan.InRange() && KeyOk(rs, plan.keys[k].key, plan.Stages(k))
  {
    hide KeyOk;
  }

  lemma EmptyPath(c: Config, s: State)
    ensures Path(c, [s], [])
  {
  }

  /** The records of a batch whose headers parse. */
  method ParseBatch(c: Config, lo: nat, count: nat) returns (src: seq<nat>)
    requires lo + count <= |c.log|
    ensures Batch(c, lo, count, src) && forall i :: 0 <= i < |src| ==> src[i] < |c.log|
  {
    src := [];
    for n := 0 to count
      invariant Batch(c, lo, n, src) && forall i :: 0 <= i < |src| ==> src[i] < lo + n
    {
      if c.log[lo + n].parses {
        src := src + [lo + n];
      }
    }
  }

  /** Executes a key of a batch, or diverts it if it is quarantined. */
  method ProcessKey(c: Config, maxBatch: Tag -> nat, ghost s: State, state: RetryState, key: Key, src: seq<nat>, stages: seq<Stage>,
                    before: seq<Entry<nat>>, replies: Replies) returns (entries: seq<Entry<nat>>)
    requires Processes(c, s, key, src) && before == s.phase.entries && s.schedule == state.Value()
    requires KeyOk(Records(c, src), key, stages) && Batches(maxBatch)
    ensures exists s', step :: KeyStep(c, s, s', step, key, entries)
  {
    hide KeyOk, KeyStep, Batch;
    if key in state.keys {
      entries := DivertKey(c, maxBatch, s, key, src, stages, before);
    } else {
      var calls;
      entries, calls := ExecuteMainKey(c, maxBatch, s, state.pending, key, src, stages, before, replies);
    }
  }

  /** Steps that process a polled batch and leave `entries` to be sent. */
  ghost predicate Processed(c: Config, s: State, count: nat, entries: seq<Entry<nat>>, states: seq<State>, steps: seq<Step>) {
    && states != [] && Path(c, states, steps) && states[0] == s
    && var w := states[|states| - 1];
    && w == s.(phase := Working(count, {}, entries), hist := w.hist, dropped := w.dropped)
  }

  /** Executes or diverts every key of a polled batch: from the state with the
      batch polled, the machine reaches the one in which exactly the collected
      entries are to be sent. */
  method ProcessMain(c: Config, maxBatch: Tag -> nat, ghost s: State, state: RetryState, lo: nat, count: nat, replies: Key -> Replies)
    returns (entries: seq<Entry<nat>>)
    requires lo == s.next && lo + count <= |c.log| && s.phase == Working(count, BatchKeys(c, lo, count), [])
    requires state.Value() == s.schedule && Batches(maxBatch)
    ensures exists states, steps :: Processed(c, s, count, entries, states, steps)
  {
    hide KeyOk, Assign, NextStep, Batch, Canonical, BatchKeys, PlanOk, Path, KeysFrom, HasRecord, HasPlan;
    var src := ParseBatch(c, lo, count);
    var rs := seq(|src|, i requires 0 <= i < |src| => c.log[src[i]].record);
    assert rs == Records(c, src);
    var plan := PlanNew.New(rs);
    PlanKeys(rs, plan);
    BatchKeysAre(c, lo, count, src, plan);
    entries := [];
    ghost var states, steps := [s], [];
    assert Path(c, states, steps) by { EmptyPath(c, s); }
    ghost var w := s;
    for k := 0 to |plan.keys|
      invariant states != [] && Path(c, states, steps) && states[0] == s && states[|states| - 1] == w
      invariant w == s.(phase := Working(count, KeysFrom(plan, k), entries), hist := w.hist, dropped := w.dropped)
    {
      PlannedKey(rs, plan, k);
      var key, stages := plan.keys[k].key, plan.Stages(k);
      KeysStep(plan, k);
      entries := ProcessKey(c, maxBatch, w, state, key, src, stages, entries, replies(key));
      ghost var w', step :| KeyStep(c, w, w', step, key, entries);
      PathSnoc(c, states, steps, w', step);
      states, steps := states + [w'], steps + [step];
      w := w';
    }
    NoKeysLeft(plan);
    assert Processed(c, s, count, entries, states, steps);
  }

  /** A path continues a run. */
  lemma Continues(c: Config, states: seq<State>, steps: seq<Step>, more: seq<State>, next: seq<Step>)
    requires Behaves(c, states, steps) && Path(c, more, next) && more[0] == states[|states| - 1]
    ensures Behaves(c, states + more[1..], steps + next)
  {
    hide NextStep, Init;
    var all, moves := states + more[1..], steps + next;
    forall i | 0 <= i < |moves|
      ensures NextStep(c, all[i], all[i + 1], moves[i])
    {
      if i >= |steps| {
        var j := i - |steps|;
        assert NextStep(c, more[j], more[j + 1], next[j]);
      }
    }
  }
}
