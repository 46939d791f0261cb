/** Two promises that don't hold if there is more than one delay, refuted by one
    run without a crash: three relaxed events of one type and key, whose retry
    fails behind its second event. */
module TaskExamples {
  import opened Wrappers
  import opened Events
  import opened Segmentation
  import opened PlanOrder
  import opened Planner
  import opened Work
  import opened Encode
  import opened Execution
  import opened Replan
  import opened Retry
  import opened Task
  import opened TaskOrder

  const PLAIN := PlanRecord(0, 1, Relaxed)
  const BATCH := [PLAIN, PLAIN, PLAIN]
  const STAGES: seq<Stage> := [[], [RunView(1, [0, 1, 2])], []]
  const ORIGINS: seq<nat> := [0, 1, 2]
  const ENTRIES: seq<Entry<nat>> := [Entry(0, 1, Relaxed), Entry(1, 1, Relaxed), Entry(2, 1, Relaxed)]

  function Example(delays: seq<nat>): Config {
    var m := Message(PLAIN, true, true);
    Config([m, m, m], delays, 100, NoDoubleConsume)
  }

  lemma PlainAssigned()
    ensures Assign(BATCH).segmentOf == [0, 0, 0] && Assign(BATCH).metas == [Meta(0, None, None, false)]
  {
    assert BATCH[..2] == [PLAIN, PLAIN] && [PLAIN, PLAIN][..1] == [PLAIN] && [PLAIN][..0] == [];
    assert Assign([]) == SegState([], map[], [], []);
    assert Assign([PLAIN]).segmentOf == [0];
    assert Assign([PLAIN, PLAIN]).segmentOf == [0, 0];
  }

  lemma PlainPlaces(i: nat)
    requires i < 3
    ensures SegmentAt(BATCH, i) == 0 && RankAt(BATCH, i) == Body
    ensures At(STAGES, 1, 0, i)
  {
    PlainAssigned();
    assert STAGES[1][0].records[i] == i;
  }

  lemma PlainPlanned()
    ensures KeyOk(BATCH, 0, STAGES)
  {
    hide Assign, SegmentAt, RankAt;
    forall i: nat | i < 3
      ensures SegmentAt(BATCH, i) == 0 && RankAt(BATCH, i) == Body
    {
      PlainPlaces(i);
    }
    forall i | 0 <= i < |BATCH| && BATCH[i].key == 0
      ensures exists g, b :: At(STAGES, g, b, i)
    {
      PlainPlaces(i);
    }
    assert forall g: nat, b: nat, i: nat :: At(STAGES, g, b, i) ==> g == 1;
  }

  /** The outcome that handles the first `k` events. */
  function OutcomeAt(k: nat): Outcome {
    if k < 3 then Outcome(1, [Some(k)]) else Outcome(3, [])
  }

  const GOOD: set<nat> := {0, 1, 2}

  lemma PlainWork()
    ensures RecordWork(STAGES, GOOD)[0] == [] && RecordWork(STAGES, GOOD)[1] == [[0, 1, 2]] && RecordWork(STAGES, GOOD)[2] == []
  {
    var r: seq<nat> := [0, 1, 2];
    assert r[..2] == [0, 1] && r[..2][..1] == [0] && r[..2][..1][..0] == [];
    assert Decoded([0], GOOD) == [0];
    assert Decoded([0, 1], GOOD) == [0, 1];
    assert Decoded(r, GOOD) == r;
  }

  lemma PlainHandled(k: nat, i: nat)
    requires k <= 3
    ensures OutcomeOk(RecordWork(STAGES, GOOD), OutcomeAt(k))
    ensures HandledAt(RecordWork(STAGES, GOOD), Reached(OutcomeAt(k)), i) <==> i < k
  {
    hide Decoded;
    PlainWork();
    var work := RecordWork(STAGES, GOOD);
    assert Handled(work, Reached(OutcomeAt(k)), 1, 0) == ORIGINS[..k];
    if i < k {
      assert ORIGINS[..k][i] == i;
      assert HandledItem(work, Reached(OutcomeAt(k)), 1, 0, i);
    }
    if HandledAt(work, Reached(OutcomeAt(k)), i) {
      var g: nat, b: nat :| HandledItem(work, Reached(OutcomeAt(k)), g, b, i);
      assert g == 1 && b == 0;
    }
  }

  /** An execution may handle the first `k` events in order. */
  lemma PlainExecutes(k: nat)
    requires k <= 3
    ensures Executes(BATCH, 0, STAGES, GOOD, OutcomeAt(k), ORIGINS[..k])
  {
    hide KeyOk, OutcomeOk, HandledAt, RecordWork;
    PlainPlanned();
    PlainHandled(k, 0);
    forall i: nat
      ensures i in ORIGINS[..k] <==> HandledAt(RecordWork(STAGES, GOOD), Reached(OutcomeAt(k)), i)
    {
      PlainHandled(k, i);
      if i < k {
        assert ORIGINS[..k][i] == i;
      }
    }
    forall p, q | 0 <= p < q < k
      ensures !Precedes(BATCH, ORIGINS[..k][q], ORIGINS[..k][p])
    {
      PlainAssigned();
    }
  }

  lemma PlainEntries(items: Work<nat>)
    requires |items| == 3 && items[0] == [] && items[1] == [ORIGINS] && items[2] == []
    ensures KeyEntries(STAGES, items, 3) == ENTRIES
  {
    hide StageEntries;
    assert StageEntries(0, STAGES[0], items[0]) == [] && StageEntries(2, STAGES[2], items[2]) == [] by { NoEntries(); }
    OneRun(STAGES[1][0], ORIGINS);
    assert RunEntries(1, 1, ORIGINS) == ENTRIES;
    assert KeyEntries(STAGES, items, 1) == [];
    assert KeyEntries(STAGES, items, 2) == ENTRIES;
  }

  lemma NoEntries()
    ensures forall rank: nat :: StageEntries<nat>(rank, [], []) == []
  {
  }

  lemma OneRun(run: RunView, items: seq<nat>)
    ensures StageEntries(1, [run], [items]) == RunEntries(1, run.tag, items)
  {
    assert [run][..0] == [] && [items][..0] == [];
    assert StageEntries<nat>(1, [run][..0], [items][..0]) == [];
  }

  lemma PlainWritten()
    ensures Writes(BATCH, 0, STAGES, GOOD, Reached(OutcomeAt(0)), ENTRIES)
  {
    hide KeyOk, Decoded, OutcomeOk, KeyEntries;
    PlainPlanned();
    PlainWork();
    PlainHandled(0, 0);
    var left := LeftWork(RecordWork(STAGES, GOOD), Reached(OutcomeAt(0)));
    assert left[0] == [] && left[1] == [ORIGINS] && left[2] == [];
    PlainEntries(left);
  }

  // --- The run ---

  function Fresh(): State {
    State([], 0, 0, 0, 0, Schedule(map[], 0), None, Draining, [], {}, [], [], false)
  }

  function Diverted(): State {
    Fresh().(retry := ENTRIES, storedMain := 3, next := 3, planned := [0, 1, 2])
  }

  /** The main records polled, and their key processed. */
  function Batched(): State {
    Fresh().(storedMain := 3, planned := [0, 1, 2], phase := Working(3, {0}, []))
  }

  function Written(): State {
    Batched().(phase := Working(3, {}, ENTRIES))
  }

  /** Scheduled with `n` records read, after `attempt` failures. */
  function Waiting(n: nat, attempt: nat, dueAt: nat): Schedule
    requires n <= 3
  {
    if n == 0 then Schedule(map[], 0) else Schedule(map[0 := KeyRetry(ORIGINS[..n], attempt, dueAt)], n)
  }

  function Queued(delays: seq<nat>, n: nat): State
    requires |delays| > 1 && n <= 3
  {
    Diverted().(read := n, storedRetry := n, taken := ORIGINS[..n], schedule := Waiting(n, 0, delays[0]))
  }

  function Failing(): seq<Handling> {
    [Handling(0, false, true), Handling(1, true, true)]
  }

  function Failed(delays: seq<nat>): State
    requires |delays| > 1
  {
    Queued(delays, 3).(phase := Running, schedule := Waiting(3, 1, delays[0] + delays[1]), hist := Failing())
  }

  function Ended(delays: seq<nat>): State
    requires |delays| > 1
  {
    Failed(delays).(schedule := Schedule(map[], 0),
                    hist := Failing() + [Handling(0, true, false), Handling(1, true, false), Handling(2, true, false)])
  }

  /** Events 0 and 1 are answered, then event 2 fails transiently. */
  function FirstTry(delays: seq<nat>): Try
    requires |delays| > 1
  {
    Try(0, delays[0], STAGES, OutcomeAt(2), ORIGINS[..2], [false, true], [], ORIGINS)
  }

  function LastTry(delays: seq<nat>): Try
    requires |delays| > 1
  {
    Try(0, delays[0] + delays[1], STAGES, OutcomeAt(3), ORIGINS[..3], [true, true, true], ORIGINS, [])
  }

  function Path(delays: seq<nat>): (states: seq<State>)
    requires |delays| > 1
    ensures |states| == 12 && states[11] == Ended(delays)
  {
    [Fresh(),
     Fresh().(phase := Running),
     Batched(),
     Written(),
     Written().(retry := ENTRIES, phase := Sent(3)),
     Queued(delays, 0), Queued(delays, 1), Queued(delays, 2), Queued(delays, 3),
     Queued(delays, 3).(phase := Running),
     Failed(delays),
     Ended(delays)]
  }

  function Moves(delays: seq<nat>): seq<Step>
    requires |delays| > 1
  {
    [Step.Drained, Poll(3), Execute(0, ORIGINS, STAGES, OutcomeAt(0), [], [], ENTRIES), Send, Finish,
     Read(0, 0, 0), Read(0, 0, 0), Read(0, 0, 0), Step.Drained, Attempt(FirstTry(delays)), Attempt(LastTry(delays))]
  }

  lemma Polls(delays: seq<nat>)
    requires |delays| > 1
    ensures PollStep(Example(delays), Path(delays)[1], Path(delays)[2], 3)
  {
    var c := Example(delays);
    assert Fresh().planned + seq(3, i requires 0 <= i < 3 => 0 + i) == [0, 1, 2];
    assert Unparsed(c, 0, 3) == {};
    assert BatchKeys(c, 0, 3) == {0} by {
      assert KeyAt(c, 0) == 0;
    }
  }

  lemma MainBatch(delays: seq<nat>)
    ensures Processes(Example(delays), Batched(), 0, ORIGINS)
    ensures Records(Example(delays), ORIGINS) == BATCH && Good(Example(delays), ORIGINS) == GOOD
    ensures Undecoded(Example(delays), ORIGINS, 0) == {}
  {
    assert forall o: nat :: o in ORIGINS <==> o < 3;
    assert Good(Example(delays), ORIGINS) == GOOD;
  }

  lemma MainRenamed()
    ensures Renamed(ORIGINS, ENTRIES) == ENTRIES
  {
    assert forall i :: 0 <= i < 3 ==> ORIGINS[i] == i;
  }

  lemma MainWritten()
    ensures Handlings(ORIGINS, [], [], {}) == []
    ensures Written() == Batched().(phase := Working(3, Batched().phase.keys - {0}, Batched().phase.entries + ENTRIES),
                                    hist := Batched().hist + [], dropped := Batched().dropped + {} + {})
  {
    hide Handlings;
    var keys: set<Key> := {0};
    assert keys - {0} == {} && Batched().phase.entries + ENTRIES == ENTRIES;
    assert Batched().hist + [] == Batched().hist && Batched().dropped + {} + {} == Batched().dropped;
    assert |Handlings(ORIGINS, [], [], {})| == 0;
  }

  lemma ExecutesMain(delays: seq<nat>)
    ensures ExecuteStep(Example(delays), Batched(), Written(), 0, ORIGINS, STAGES, OutcomeAt(0), [], [], ENTRIES)
  {
    hide Executes, Writes, Processes, Records, Good, Undecoded, Renamed, Handlings;
    MainBatch(delays);
    MainRenamed();
    MainWritten();
    PlainExecutes(0);
    PlainWritten();
    assert ORIGINS[..0] == [];
  }

  lemma Reads(delays: seq<nat>, n: nat)
    requires |delays| > 1 && n < 3
    ensures ReadStep(Example(delays), Queued(delays, n), Queued(delays, n + 1), 0, 0, 0)
  {
    assert ORIGINS[..n] + [n] == ORIGINS[..n + 1];
  }

  lemma PlainSets(k: nat)
    requires k <= 3
    ensures DoneSet(STAGES, OutcomeAt(k), 3) == if k < 3 then {} else GOOD
    ensures FailedSet(STAGES, OutcomeAt(k), 3) == if k < 3 then GOOD else {}
  {
    forall i: nat | i < 3
      ensures InDone(STAGES, OutcomeAt(k), i) <==> k == 3
      ensures InFailed(STAGES, OutcomeAt(k), i) <==> k < 3
    {
      assert STAGES[1][0].records[i] == i && At(STAGES, 1, 0, i);
    }
  }

  lemma Tries(delays: seq<nat>, s: State, t: Try, k: nat)
    requires k <= 3 && t.key == 0 && t.stages == STAGES && t.out == OutcomeAt(k) && t.done == ORIGINS[..k] && |t.answers| == k
    requires t.resolved == (if k < 3 then [] else ORIGINS) && t.failed == (if k < 3 then ORIGINS else [])
    requires s.phase.Running? && s.retry == ENTRIES && 0 in s.schedule.keys && s.schedule.keys[0].dueAt <= t.now
    requires s.schedule.keys[0].records == ORIGINS
    ensures AttemptOk(Example(delays), s, t)
    ensures Items(Queue(s, ORIGINS)) == ORIGINS && Good(Example(delays), ORIGINS) == GOOD
    ensures FailedSet(STAGES, t.out, 3) == if k < 3 then GOOD else {}
  {
    hide Executes, InDone, InFailed, DoneSet, FailedSet;
    assert Items(Queue(s, ORIGINS)) == ORIGINS;
    assert Good(Example(delays), ORIGINS) == GOOD;
    assert Headers(0, Queue(s, ORIGINS)) == BATCH;
    PlainExecutes(k);
    PlainSets(k);
    assert forall i :: 0 <= i < 3 ==> ORIGINS[i] == i;
  }

  lemma {:induction false} WithoutNone(records: seq<nat>)
    ensures Without(records, []) == records
  {
    if records != [] {
      WithoutNone(records[..|records| - 1]);
    }
  }

  lemma NoneRemoved()
    ensures Without(ORIGINS, []) == ORIGINS && Without(ORIGINS, ORIGINS) == []
  {
    hide Without;
    WithoutNone(ORIGINS);
    WithoutIs(ORIGINS, ORIGINS);
    FirstOf(Without(ORIGINS, ORIGINS));
  }

  /** What the two attempts do to the schedule. */
  lemma Schedules(delays: seq<nat>)
    requires |delays| > 1
    ensures
      var (st, finish) := Finished(Waiting(3, 0, delays[0]), delays, 0, [], ORIGINS, delays[0]);
      st == Waiting(3, 1, delays[0] + delays[1]) && !finish.GaveUp?
    ensures
      var (st, finish) := Finished(Waiting(3, 1, delays[0] + delays[1]), delays, 0, ORIGINS, [], delays[0] + delays[1]);
      st == Schedule(map[], 0) && !finish.GaveUp?
  {
    hide Without;
    NoneRemoved();
    assert ORIGINS[..3] == ORIGINS;
  }

  /** An attempt at all three records that doesn't give up drops nothing. */
  lemma NoneDropped(delays: seq<nat>, s: State, t: Try)
    requires AttemptOk(Example(delays), s, t) && !Finishing(Example(delays), s, t).1.GaveUp?
    requires s.schedule.keys[t.key].records == ORIGINS && Items(Queue(s, ORIGINS)) == ORIGINS
    ensures AttemptDrops(Example(delays), s, t) == {}
  {
    hide Executes, OffsetsOf, Finishing;
    assert Good(Example(delays), ORIGINS) == GOOD;
  }

  lemma FailsOnce(delays: seq<nat>)
    requires |delays| > 1
    ensures AttemptStep(Example(delays), Path(delays)[9], Path(delays)[10], FirstTry(delays))
  {
    hide Executes, OffsetsOf, Finished, AttemptDrops, AttemptOk, FailedSet;
    var s, t := Path(delays)[9], FirstTry(delays);
    assert ORIGINS[..3] == ORIGINS;
    Tries(delays, s, t, 2);
    Schedules(delays);
    NoneDropped(delays, s, t);
    assert Handlings(ORIGINS, t.done, t.answers, GOOD) == Failing();
  }

  lemma Completes(delays: seq<nat>)
    requires |delays| > 1
    ensures AttemptStep(Example(delays), Path(delays)[10], Path(delays)[11], LastTry(delays))
  {
    hide Executes, OffsetsOf, Finished, AttemptDrops, AttemptOk, FailedSet;
    var s, t := Path(delays)[10], LastTry(delays);
    assert ORIGINS[..3] == ORIGINS;
    Tries(delays, s, t, 3);
    Schedules(delays);
    NoneDropped(delays, s, t);
    assert Handlings(ORIGINS, t.done, t.answers, {}) == [Handling(0, true, false), Handling(1, true, false), Handling(2, true, false)];
  }

  lemma Starts(delays: seq<nat>)
    requires |delays| > 1
    ensures Init(Example(delays), Path(delays)[0])
    ensures DrainedStep(Example(delays), Path(delays)[0], Path(delays)[1])
    ensures SendStep(Example(delays), Path(delays)[3], Path(delays)[4])
    ensures FinishStep(Example(delays), Path(delays)[4], Path(delays)[5])
    ensures DrainedStep(Example(delays), Path(delays)[8], Path(delays)[9])
  {
    hide Failed, Ended;
    assert [] + ENTRIES == ENTRIES;
  }

  lemma ExampleRuns(delays: seq<nat>)
    requires |delays| > 1
    ensures Behaves(Example(delays), Path(delays), Moves(delays))
  {
    hide Init, PollStep, ExecuteStep, ReadStep, AttemptStep, DrainedStep, SendStep, FinishStep, Queued, Failed, Ended, Example;
    Starts(delays);
    Polls(delays);
    ExecutesMain(delays);
    Reads(delays, 0);
    Reads(delays, 1);
    Reads(delays, 2);
    FailsOnce(delays);
    Completes(delays);
  }

  /** Whatever the delays, if there are two: event 1 is applied twice in
      `NoDoubleConsume`, without any crash. */
  lemma ProcessedTwice(delays: seq<nat>)
    requires |delays| > 1
    ensures Behaves(Example(delays), Path(delays), Moves(delays)) && Example(delays).mode.NoDoubleConsume? && !Ended(delays).crashed
    ensures Path(delays)[11] == Ended(delays) && Ended(delays).hist[1] == Handling(1, true, true) && Ended(delays).hist[3] == Handling(1, true, false)
  {
    ExampleRuns(delays);
  }

  /** Event 0 must stay before event 1, and both succeed; but event 1 succeeds
      before event 0 first does, which was reported unrecoverable before. */
  lemma SucceedsLate(delays: seq<nat>)
    requires |delays| > 1
    ensures Behaves(Example(delays), Path(delays), Moves(delays)) && Path(delays)[11] == Ended(delays) && Req(Example(delays), 0, 1)
    ensures Ended(delays).hist[1] == Handling(1, true, true) && Ended(delays).hist[2] == Handling(0, true, false)
    ensures forall p :: 0 <= p < 2 ==> !(Ended(delays).hist[p].origin == 0 && Ended(delays).hist[p].applied)
  {
    ExampleRuns(delays);
  }
}
