/** At most once: unless a crash in `NoEventLose` rereads it, no main record is
    planned twice, and an event is handled again only if it was in a chunk
    ahead of the failing chunk of a retry run. */
module TaskOnce {
  import opened Wrappers
  import opened Events
  import opened PlanOrder
  import opened Planner
  import opened Work
  import opened Encode
  import opened Execution
  import opened Replan
  import opened Retry
  import opened Task

  /** Retry record `x` (sent or about to be) is still to be run. */
  ghost predicate Live(s: State, x: nat) {
    x < |Full(s)| && (x >= s.read || Pending(s.schedule, x))
  }

  ghost predicate LiveItem(s: State, o: nat) {
    exists x: nat :: Live(s, x) && Full(s)[x].item == o
  }

  /** The key of the main record was processed after the record was polled. */
  ghost predicate Begun(c: Config, s: State, o: nat) {
    || o < s.next
    || (o < Bound(s) && (s.phase.Sent? || (s.phase.Working? && KeyAt(c, o) !in s.phase.keys)))
  }

  ghost predicate LiveBegun(c: Config, s: State) {
    forall x: nat :: Live(s, x) ==> Begun(c, s, Full(s)[x].item)
  }

  /** No two live retry records stand for the same main record. */
  ghost predicate LiveOnce(s: State) {
    forall x: nat, y: nat :: Live(s, x) && Live(s, y) && x != y ==> Full(s)[x].item != Full(s)[y].item
  }

  ghost predicate HistBegun(c: Config, s: State) {
    forall p :: 0 <= p < |s.hist| ==> Begun(c, s, s.hist[p].origin)
  }

  /** Only an event whose record stayed pending is handled again. */
  ghost predicate HandledOnce(hist: seq<Handling>) {
    forall p, q :: 0 <= p < q < |hist| && hist[p].origin == hist[q].origin ==> hist[p].again
  }

  ghost predicate HandledGone(s: State) {
    forall p :: 0 <= p < |s.hist| && !s.hist[p].again ==> !LiveItem(s, s.hist[p].origin)
  }

  ghost predicate OnceInv(c: Config, s: State) {
    && LiveBegun(c, s)
    && LiveOnce(s)
    && HistBegun(c, s)
    && HandledOnce(s.hist)
    && HandledGone(s)
  }

  /** A step that neither handles nor writes anything, and revives nothing. */
  ghost predicate Quiet(c: Config, s: State, s': State) {
    && Full(s') == Full(s)
    && (forall x: nat :: Live(s', x) <==> Live(s, x))
    && (forall o: nat :: Begun(c, s, o) ==> Begun(c, s', o))
    && s'.hist == s.hist
  }

  lemma QuietOnce(c: Config, s: State, s': State)
    requires OnceInv(c, s) && Quiet(c, s, s')
    ensures OnceInv(c, s')
  {
    hide Live, LiveItem, Full, Begun;
    forall x: nat | Live(s, x)
      ensures x < |Full(s)|
    {
      LiveInRange(s, x);
    }
    forall o: nat | LiveItem(s', o)
      ensures LiveItem(s, o)
    {
      var x := LiveWitness(s', o);
      LiveHas(s, x);
    }
  }

  lemma QuietStep(c: Config, s: State, s': State, step: Step)
    requires Inv(c, s) && NextStep(c, s, s', step)
    requires step.Read? || step.Drained? || step.Commit? || step.Poll? || step.Send? || step.Finish?
    ensures Quiet(c, s, s')
  {
    hide Valid, EntriesOk, KeyedOk, Enqueued;
    assert Full(s') == Full(s);
    if step.Read? {
      forall x: nat
        ensures Live(s', x) <==> Live(s, x)
      {
        EnqueuedPending(s.schedule, c.delays, KeyAt(c, s.retry[s.read].item), s.read, step.failedAt, step.now, step.nowMs, x);
      }
    }
  }

  // --- Retry attempts ---

  /** A pending record is live. */
  lemma QueueLive(c: Config, s: State, key: Key, i: nat)
    requires Inv(c, s) && s.phase.Running? && key in s.schedule.keys && i < |s.schedule.keys[key].records|
    ensures
      var x := s.schedule.keys[key].records[i];
      Live(s, x) && x < |s.retry| && Full(s)[x] == s.retry[x] && KeyAt(c, s.retry[x].item) == key
  {
    var queue := s.schedule.keys[key].records;
    assert queue[i] in queue;
  }

  /** Which records stay pending: those neither completed nor given up. */
  lemma StillPending(c: Config, s: State, s': State, t: Try, x: nat)
    requires Inv(c, s) && AttemptStep(c, s, s', t)
    ensures Pending(s'.schedule, x) ==> Pending(s.schedule, x)
    ensures x in s.schedule.keys[t.key].records ==>
              (Pending(s'.schedule, x) <==> x !in t.resolved && !(Finishing(c, s, t).1.GaveUp? && x in t.failed))
    ensures Pending(s.schedule, x) && x !in s.schedule.keys[t.key].records ==> Pending(s'.schedule, x)
  {
    hide Executes, OffsetsOf, AttemptDrops, Handlings, Attempted, Finished, EntriesOk, KeyedOk;
    FinishedIs(s.schedule, c.delays, t.key, t.resolved, t.failed, t.now);
    AttemptedIs(s.schedule.keys[t.key], c.delays, t.resolved, t.failed, t.now);
    var r := Attempted(s.schedule.keys[t.key], c.delays, t.resolved, t.failed, t.now).0;
    if Pending(s.schedule, x) {
      var k: Key :| k in s.schedule.keys && x in s.schedule.keys[k].records;
      if k != t.key {
        assert x in s'.schedule.keys[k].records;
      }
    }
    if x in r.records {
      assert x in s'.schedule.keys[t.key].records;
    }
  }

  lemma AttemptLive(c: Config, s: State, s': State, t: Try, x: nat)
    requires Inv(c, s) && AttemptStep(c, s, s', t) && Live(s', x)
    ensures Live(s, x)
  {
    hide AttemptOk, Finished, Handlings, AttemptDrops, Valid, EntriesOk, KeyedOk;
    StillPending(c, s, s', t, x);
  }

  /** A record whose run completed is no longer live. */
  lemma CompletedGone(c: Config, s: State, s': State, t: Try, i: nat)
    requires Inv(c, s) && AttemptStep(c, s, s', t) && i < |s.schedule.keys[t.key].records|
    requires InDone(t.stages, t.out, i)
    ensures !Live(s', s.schedule.keys[t.key].records[i])
  {
    hide Executes, Finished, Handlings, AttemptDrops, EntriesOk, KeyedOk, InDone;
    var queue := s.schedule.keys[t.key].records;
    assert i in DoneSet(t.stages, t.out, |queue|);
    assert queue[i] in queue && queue[i] in t.resolved;
    StillPending(c, s, s', t, queue[i]);
  }

  /** Different pending records stand for different main records. */
  lemma QueueDistinct(c: Config, s: State, t: Try, i: nat, j: nat)
    requires Inv(c, s) && LiveOnce(s) && AttemptOk(c, s, t)
    requires i < |s.schedule.keys[t.key].records| && j < |s.schedule.keys[t.key].records| && i != j
    ensures s.retry[s.schedule.keys[t.key].records[i]].item != s.retry[s.schedule.keys[t.key].records[j]].item
  {
    hide Executes, OffsetsOf, Live, EntriesOk, KeyedOk;
    QueueLive(c, s, t.key, i);
    QueueLive(c, s, t.key, j);
  }

  /** What an attempt adds to the history. */
  ghost function AttemptHist(c: Config, s: State, t: Try): seq<Handling>
    requires t.key in s.schedule.keys && |t.answers| == |t.done|
    requires forall i :: 0 <= i < |s.schedule.keys[t.key].records| ==> s.schedule.keys[t.key].records[i] < |s.retry|
    requires forall p :: 0 <= p < |t.done| ==> t.done[p] < |s.schedule.keys[t.key].records|
  {
    var queue := s.schedule.keys[t.key].records;
    Handlings(Items(Queue(s, queue)), t.done, t.answers, Kept(c, s, t))
  }

  /** Handled events of an attempt were live. */
  lemma AttemptHandles(c: Config, s: State, s': State, t: Try, p: nat)
    requires Inv(c, s) && LiveOnce(s) && AttemptStep(c, s, s', t) && p < |t.done|
    ensures LiveItem(s, AttemptHist(c, s, t)[p].origin) && KeyAt(c, AttemptHist(c, s, t)[p].origin) == t.key
  {
    hide Executes, Finished, AttemptDrops, EntriesOk, KeyedOk, Live, Valid, Finishing, OffsetsOf, Full, Kept;
    QueueLive(c, s, t.key, t.done[p]);
  }

  /** The run of a handled record completed or failed. */
  lemma HandledRan(c: Config, s: State, t: Try, p: nat)
    requires AttemptOk(c, s, t) && p < |t.done|
    ensures InDone(t.stages, t.out, t.done[p]) || InFailed(t.stages, t.out, t.done[p])
  {
    hide KeyOk, OutcomeOk, HandledAt, Precedes, OffsetsOf;
    var entries := Queue(s, s.schedule.keys[t.key].records);
    assert t.done[p] in t.done;
    var g, b := HandledPlace(Headers(t.key, entries), t.key, t.stages, Good(c, Items(entries)), t.out, t.done[p]);
  }

  /** An event just handled in an attempt is still pending exactly when a later
      chunk of its run failed and the key didn't give up. */
  lemma StaysPending(c: Config, s: State, s': State, t: Try, p: nat)
    requires Inv(c, s) && LiveOnce(s) && AttemptStep(c, s, s', t) && p < |t.done|
    ensures AttemptHist(c, s, t)[p].again <==> LiveItem(s', AttemptHist(c, s, t)[p].origin)
    ensures AttemptHist(c, s, t)[p].again <==> InFailed(t.stages, t.out, t.done[p]) && !Finishing(c, s, t).1.GaveUp?
  {
    hide Finished, AttemptDrops, EntriesOk, KeyedOk, Executes, Finishing, InDone, InFailed, OffsetsOf, Valid, LiveOnce;
    var queue := s.schedule.keys[t.key].records;
    var i := t.done[p];
    QueueLive(c, s, t.key, i);
    HandledRan(c, s, t, p);
    if !InFailed(t.stages, t.out, i) {
      CompletedGone(c, s, s', t, i);
      GoneItem(c, s, s', t, queue[i]);
    } else {
      FailedStays(c, s, s', t, i);
      if Finishing(c, s, t).1.GaveUp? {
        GoneItem(c, s, s', t, queue[i]);
      } else {
        assert Live(s', queue[i]) && Full(s')[queue[i]].item == AttemptHist(c, s, t)[p].origin;
      }
    }
  }

  /** A record of a failed run stays live unless the key gives up. */
  lemma FailedStays(c: Config, s: State, s': State, t: Try, i: nat)
    requires Inv(c, s) && AttemptStep(c, s, s', t) && i < |s.schedule.keys[t.key].records| && InFailed(t.stages, t.out, i)
    ensures Live(s', s.schedule.keys[t.key].records[i]) <==> !Finishing(c, s, t).1.GaveUp?
  {
    hide Finished, AttemptDrops, EntriesOk, KeyedOk, Executes, Finishing, InFailed, Handlings, Kept;
    var queue := s.schedule.keys[t.key].records;
    assert i in FailedSet(t.stages, t.out, |queue|);
    assert queue[i] in queue && queue[i] in t.failed;
    QueueLive(c, s, t.key, i);
    FailedNotResolved(c, s, t, i);
    StillPending(c, s, s', t, queue[i]);
  }

  /** No record is in both a completed and a failed run. */
  lemma FailedNotResolved(c: Config, s: State, t: Try, i: nat)
    requires Inv(c, s) && AttemptOk(c, s, t) && i < |s.schedule.keys[t.key].records|
    requires i in FailedSet(t.stages, t.out, |s.schedule.keys[t.key].records|)
    ensures s.schedule.keys[t.key].records[i] !in t.resolved
  {
    hide OutcomeOk, HandledAt, Precedes, KeyOk, EntriesOk, KeyedOk, At;
    var queue := s.schedule.keys[t.key].records;
    if queue[i] in t.resolved {
      var g: nat, b: nat :| At(t.stages, g, b, i) && RunDone(t.out, g, b);
      var g': nat, b': nat :| At(t.stages, g', b', i) && RunFailed(t.out, g', b');
      PlannedOnce(Headers(t.key, Queue(s, queue)), t.key, t.stages, g, b, g', b', i);
    }
  }

  /** An attempt either completes every pending record, or some run fails whose
      records are pending and not completed. */
  lemma AttemptReports(c: Config, s: State, t: Try)
    requires Inv(c, s) && AttemptOk(c, s, t)
    ensures ReportOf(s.schedule.keys[t.key].records, Report(t.resolved, t.failed, t.now))
  {
    hide HandledAt, Precedes, EntriesOk, KeyedOk, SegmentsOk, TagsIncrease, At;
    var queue := s.schedule.keys[t.key].records;
    var rs := Headers(t.key, Queue(s, queue));
    if t.failed == [] {
      forall o: nat | o in queue
        ensures o in t.resolved
      {
        var i :| 0 <= i < |queue| && queue[i] == o;
        NoFailureCompletes(c, s, t, i);
        assert i in DoneSet(t.stages, t.out, |queue|);
      }
    } else {
      forall o: nat | o in t.failed
        ensures o in queue && o !in t.resolved
      {
        var i :| 0 <= i < |queue| && queue[i] == o;
        FailedNotResolved(c, s, t, i);
      }
    }
  }

  /** An execution that stopped has a failed record. */
  lemma StoppedFailed(rs: seq<PlanRecord>, key: Key, stages: seq<Stage>, good: set<nat>, out: Outcome) returns (r: nat)
    requires RunsOk(rs, key, stages) && OutcomeOk(RecordWork(stages, good), out) && out.stop < |stages|
    ensures r < |rs| && InFailed(stages, out, r)
  {
    hide Decoded, RankAt;
    var f :| 0 <= f < |out.fail| && out.fail[f].Some?;
    assert RunOk(rs, key, stages[out.stop][f], out.stop);
    r := stages[out.stop][f].records[0];
    assert At(stages, out.stop, f, r) && RunFailed(out, out.stop, f);
  }

  /** If no run failed, every record was completed. */
  lemma NoFailureCompletes(c: Config, s: State, t: Try, i: nat)
    requires AttemptOk(c, s, t) && t.failed == [] && i < |s.schedule.keys[t.key].records|
    ensures InDone(t.stages, t.out, i)
  {
    hide HandledAt, Precedes, SegmentsOk, TagsIncrease, RunOk, At, RecordWork, Complete;
    var queue := s.schedule.keys[t.key].records;
    var rs := Headers(t.key, Queue(s, queue));
    var g, b := PlaceOf(rs, t.key, t.stages, i);
    if t.out.stop < |t.stages| {
      var r := StoppedFailed(rs, t.key, t.stages, Good(c, Items(Queue(s, queue))), t.out);
      FailedListed(c, s, t, r);
    }
    AtStage(t.stages, g, b, i);
    assert RunDone(t.out, g, b);
  }

  lemma FailedListed(c: Config, s: State, t: Try, r: nat)
    requires AttemptOk(c, s, t) && r < |s.schedule.keys[t.key].records| && InFailed(t.stages, t.out, r)
    ensures s.schedule.keys[t.key].records[r] in t.failed
  {
    hide Executes, InFailed;
    assert r in FailedSet(t.stages, t.out, |s.schedule.keys[t.key].records|);
  }

  lemma AtStage(stages: seq<Stage>, g: nat, b: nat, i: nat)
    requires At(stages, g, b, i)
    ensures g < |stages|
  {
  }

  lemma GoneItem(c: Config, s: State, s': State, t: Try, x: nat)
    requires Inv(c, s) && LiveOnce(s) && AttemptStep(c, s, s', t) && Live(s, x) && !Live(s', x)
    ensures !LiveItem(s', Full(s)[x].item)
  {
    hide Valid, EntriesOk, KeyedOk, AttemptOk, Handlings, AttemptDrops, Finishing, Live, LiveItem;
    assert Full(s') == Full(s);
    LiveInRange(s, x);
    if LiveItem(s', Full(s)[x].item) {
      var y := LiveWitness(s', Full(s)[x].item);
      AttemptLive(c, s, s', t, y);
    }
  }

  lemma AttemptOnce(c: Config, s: State, s': State, t: Try)
    requires Inv(c, s) && OnceInv(c, s) && AttemptStep(c, s, s', t)
    ensures OnceInv(c, s')
  {
    hide Valid, EntriesOk, KeyedOk, Executes, OffsetsOf, Finishing, AttemptDrops, Live, LiveItem, Handlings, InFailed, Kept;
    var more := AttemptHist(c, s, t);
    assert s'.hist == s.hist + more && Full(s') == Full(s);
    forall x: nat | Live(s', x)
      ensures Live(s, x)
    {
      AttemptLive(c, s, s', t, x);
    }
    forall o: nat | LiveItem(s', o)
      ensures LiveItem(s, o)
    {
      var x := LiveWitness(s', o);
      LiveHas(s, x);
    }
    forall p: nat | p < |more|
      ensures LiveItem(s, more[p].origin) && Begun(c, s, more[p].origin)
      ensures !more[p].again ==> !LiveItem(s', more[p].origin)
    {
      AttemptHandles(c, s, s', t, p);
      StaysPending(c, s, s', t, p);
      LiveItemBegun(c, s, more[p].origin);
    }
    forall p: nat, q: nat | p < q < |more|
      ensures more[p].origin != more[q].origin
    {
      DistinctDone(c, s, t);
      QueueDistinct(c, s, t, t.done[p], t.done[q]);
    }
    ExtendOnce(c, s, s', more);
  }

  lemma DistinctDone(c: Config, s: State, t: Try)
    requires AttemptOk(c, s, t)
    ensures Distinct(t.done)
  {
  }

  lemma LiveHas(s: State, x: nat)
    requires Live(s, x)
    ensures LiveItem(s, Full(s)[x].item)
  {
  }

  lemma LiveItemBegun(c: Config, s: State, o: nat)
    requires LiveBegun(c, s) && LiveItem(s, o)
    ensures Begun(c, s, o)
  {
  }

  /** Handling live events, each once, when nothing becomes live. */
  lemma ExtendOnce(c: Config, s: State, s': State, more: seq<Handling>)
    requires OnceInv(c, s) && s'.hist == s.hist + more
    requires Full(s') == Full(s) || Full(s') <= Full(s)
    requires forall x: nat :: Live(s', x) ==> Live(s, x)
    requires forall o: nat :: LiveItem(s', o) ==> LiveItem(s, o)
    requires forall o: nat :: Begun(c, s, o) ==> Begun(c, s', o)
    requires forall p :: 0 <= p < |more| ==> Begun(c, s', more[p].origin) && (LiveItem(s, more[p].origin) || !Begun(c, s, more[p].origin))
    requires forall p :: 0 <= p < |more| && !more[p].again ==> !LiveItem(s', more[p].origin)
    requires forall p, q :: 0 <= p < q < |more| ==> more[p].origin != more[q].origin
    ensures OnceInv(c, s')
  {
    hide Full, Begun, Live, LiveItem;
    assert LiveBegun(c, s') && LiveOnce(s') by {
      forall x: nat | Live(s', x)
        ensures x < |Full(s')| && x < |Full(s)| && Full(s')[x] == Full(s)[x]
      {
        LiveInRange(s, x);
        LiveInRange(s', x);
      }
    }
  }

  lemma LiveInRange(s: State, x: nat)
    requires Live(s, x)
    ensures x < |Full(s)|
  {
  }

  // --- Processing a batch ---

  /** One key of a batch was handled and written: `done` and `more` stand for
      different records of the key. */
  ghost predicate ProcessedKey(c: Config, s: State, s': State, key: Key, src: seq<nat>, handled: seq<Handling>, more: seq<Entry<nat>>) {
    && Processes(c, s, key, src)
    && s' == s.(phase := Working(s.phase.count, s.phase.keys - {key}, s.phase.entries + more), hist := s.hist + handled, dropped := s'.dropped)
    && (forall p :: 0 <= p < |handled| ==> handled[p].origin in src && KeyAt(c, handled[p].origin) == key)
    && (forall p, q :: 0 <= p < q < |handled| ==> handled[p].origin != handled[q].origin)
    && (forall p :: 0 <= p < |more| ==> more[p].item in src && KeyAt(c, more[p].item) == key)
    && (forall p, q :: 0 <= p < q < |more| ==> more[p].item != more[q].item)
    && (forall p, q :: 0 <= p < |more| && 0 <= q < |handled| ==> more[p].item != handled[q].origin)
  }

  /** The records being processed are new. */
  lemma NotBegun(c: Config, s: State, key: Key, src: seq<nat>, o: nat)
    requires Processes(c, s, key, src) && o in src && KeyAt(c, o) == key
    ensures !Begun(c, s, o) && s.next <= o < Bound(s)
  {
  }

  lemma LiveAppended(s: State, s': State, more: seq<Entry<nat>>, x: nat)
    requires Full(s') == Full(s) + more && s'.schedule == s.schedule && s'.read == s.read && s.read <= |s.retry|
    ensures Live(s', x) && x < |Full(s)| ==> Live(s, x)
    ensures Live(s, x) ==> Live(s', x)
    ensures x >= |Full(s)| ==> (Live(s', x) <==> x < |Full(s')|)
  {
  }

  lemma ProcessedOnce(c: Config, s: State, s': State, key: Key, src: seq<nat>, handled: seq<Handling>, more: seq<Entry<nat>>)
    requires Inv(c, s) && OnceInv(c, s) && ProcessedKey(c, s, s', key, src, handled, more)
    ensures OnceInv(c, s')
  {
    hide Valid, EntriesOk, KeyedOk, Live, LiveItem, Begun, Batch;
    assert Full(s') == Full(s) + more;
    var n := |Full(s)|;
    forall o: nat | Begun(c, s, o)
      ensures Begun(c, s', o)
    {
      BegunGrows(c, s, s', key, o);
    }
    forall o: nat | o in src && KeyAt(c, o) == key
      ensures !Begun(c, s, o) && Begun(c, s', o)
    {
      NotBegun(c, s, key, src, o);
      NowBegun(c, s, s', key, o);
    }
    forall x: nat | Live(s', x)
      ensures x < n ==> Live(s, x) && Full(s')[x] == Full(s)[x]
      ensures x >= n ==> x - n < |more| && Full(s')[x] == more[x - n]
    {
      LiveAppended(s, s', more, x);
      LiveInRange(s', x);
    }
    assert LiveBegun(c, s') && LiveOnce(s');
    assert HistBegun(c, s') && HandledOnce(s'.hist);
    ProcessedHandled(c, s, s', key, src, handled, more);
  }

  /** Neither what was handled before nor what was handled now is written. */
  lemma ProcessedHandled(c: Config, s: State, s': State, key: Key, src: seq<nat>, handled: seq<Handling>, more: seq<Entry<nat>>)
    requires Inv(c, s) && OnceInv(c, s) && ProcessedKey(c, s, s', key, src, handled, more)
    ensures HandledGone(s')
  {
    hide Valid, EntriesOk, KeyedOk, Live, LiveItem, Begun, Batch, LiveOnce, HandledOnce, Full;
    forall p | 0 <= p < |s'.hist| && !s'.hist[p].again
      ensures !LiveItem(s', s'.hist[p].origin)
    {
      var o := s'.hist[p].origin;
      if LiveItem(s', o) {
        var x := LiveWitness(s', o);
        FullGrows(s, s', key, more);
        LiveAppended(s, s', more, x);
        LiveInRange(s', x);
        if x < |Full(s)| {
          LiveHas(s, x);
          LiveItemBegun(c, s, o);
          if p >= |s.hist| {
            NotBegun(c, s, key, src, o);
          }
        } else if p < |s.hist| {
          assert s'.hist[p] == s.hist[p];
          NotBegun(c, s, key, src, more[x - |Full(s)|].item);
        }
      }
    }
  }

  lemma FullGrows(s: State, s': State, key: Key, more: seq<Entry<nat>>)
    requires s.phase.Working?
    requires s' == s.(phase := Working(s.phase.count, s.phase.keys - {key}, s.phase.entries + more), hist := s'.hist, dropped := s'.dropped)
    ensures Full(s') == Full(s) + more
  {
  }

  lemma LiveWitness(s: State, o: nat) returns (x: nat)
    requires LiveItem(s, o)
    ensures Live(s, x) && Full(s)[x].item == o
  {
    x :| Live(s, x) && Full(s)[x].item == o;
  }

  lemma BegunGrows(c: Config, s: State, s': State, key: Key, o: nat)
    requires s.phase.Working? && Begun(c, s, o)
    requires s'.next == s.next && s'.phase.Working? && s'.phase.count == s.phase.count && s'.phase.keys == s.phase.keys - {key}
    ensures Begun(c, s', o)
  {
  }

  lemma NowBegun(c: Config, s: State, s': State, key: Key, o: nat)
    requires s.phase.Working? && o < Bound(s) && KeyAt(c, o) == key
    requires s'.next == s.next && s'.phase.Working? && s'.phase.count == s.phase.count && s'.phase.keys == s.phase.keys - {key}
    ensures Begun(c, s', o)
  {
  }

  lemma DivertProcesses(c: Config, s: State, s': State, key: Key, src: seq<nat>, stages: seq<Stage>, written: seq<Entry<nat>>)
    requires DivertStep(c, s, s', key, src, stages, written)
    ensures ProcessedKey(c, s, s', key, src, [], Renamed(src, written))
  {
    hide Writes, HandledAt, KeptApart, FencedBetween, RecordWork;
    WrittenOk(c, s, key, src, stages, Untouched, written);
    WrittenDistinct(c, s, key, src, stages, Untouched, written);
  }

  lemma WrittenDistinct(c: Config, s: State, key: Key, src: seq<nat>, stages: seq<Stage>, progress: Progress, written: seq<Entry<nat>>)
    requires Processes(c, s, key, src) && Writes(Records(c, src), key, stages, Good(c, src), progress, written)
    requires forall p :: 0 <= p < |written| ==> written[p].item < |src|
    ensures forall p, q :: 0 <= p < q < |written| ==> Renamed(src, written)[p].item != Renamed(src, written)[q].item
    ensures forall p :: 0 <= p < |written| ==> !HandledAt(RecordWork(stages, Good(c, src)), progress, written[p].item)
  {
    hide Writes, HandledAt, KeptApart, FencedBetween, RecordWork;
    EncodingKeeps(Records(c, src), key, stages, Good(c, src), progress, written);
    forall p, q | 0 <= p < q < |written|
      ensures src[written[p].item] != src[written[q].item]
    {
      assert written[p].item != written[q].item;
    }
  }

  /** What an execution handled and what it writes are different records. */
  lemma ExecutedApart(c: Config, s: State, key: Key, src: seq<nat>, stages: seq<Stage>, out: Outcome, done: seq<nat>, written: seq<Entry<nat>>)
    requires Processes(c, s, key, src) && Executes(Records(c, src), key, stages, Good(c, src), out, done)
    requires Writes(Records(c, src), key, stages, Good(c, src), Reached(out), written)
    requires forall p :: 0 <= p < |done| ==> done[p] < |src|
    requires forall p :: 0 <= p < |written| ==> written[p].item < |src|
    ensures forall p, q :: 0 <= p < |written| && 0 <= q < |done| ==> src[written[p].item] != src[done[q]]
    ensures forall p, q :: 0 <= p < q < |done| ==> src[done[p]] != src[done[q]]
  {
    hide Writes, HandledAt, KeyOk, OutcomeOk, Precedes, RecordWork, Batch, Renamed;
    assert Increasing(src) by { SrcIncreasing(c, s, key, src); }
    WrittenDistinct(c, s, key, src, stages, Reached(out), written);
    forall p, q | 0 <= p < |written| && 0 <= q < |done|
      ensures src[written[p].item] != src[done[q]]
    {
      assert done[q] in done;
      SrcDistinct(src, written[p].item, done[q]);
    }
    forall p, q | 0 <= p < q < |done|
      ensures src[done[p]] != src[done[q]]
    {
      SrcDistinct(src, done[p], done[q]);
    }
  }

  lemma SrcIncreasing(c: Config, s: State, key: Key, src: seq<nat>)
    requires Processes(c, s, key, src)
    ensures Increasing(src)
  {
  }

  lemma SrcDistinct(src: seq<nat>, i: nat, j: nat)
    requires Increasing(src) && i < |src| && j < |src| && i != j
    ensures src[i] != src[j]
  {
  }

  lemma ExecuteProcesses(c: Config, s: State, s': State, key: Key, src: seq<nat>, stages: seq<Stage>, out: Outcome,
                         done: seq<nat>, answers: seq<bool>, written: seq<Entry<nat>>)
    requires ExecuteStep(c, s, s', key, src, stages, out, done, answers, written)
    ensures ProcessedKey(c, s, s', key, src, Handlings(src, done, answers, {}),
                         if out.stop < |stages| then Backlogged(c, s, Renamed(src, written)) else [])
  {
    hide Writes, Executes, Batch, Good, Undecoded;
    var renamed, handled := Renamed(src, written), Handlings(src, done, answers, {});
    WrittenOk(c, s, key, src, stages, Reached(out), written);
    WrittenDistinct(c, s, key, src, stages, Reached(out), written);
    HandlingsOk(c, src, Records(c, src), key, stages, out, done, answers, {});
    ExecutedApart(c, s, key, src, stages, out, done, written);
    assert forall p :: 0 <= p < |handled| ==> handled[p] in handled;
  }

  // --- Crashes that don't reread ---

  /** In `NoDoubleConsume` what is read or polled is stored as consumed first. */
  ghost predicate StoredFirst(c: Config, s: State) {
    c.mode.NoDoubleConsume? ==> s.storedMain == Bound(s) && s.storedRetry == s.read
  }

  lemma CrashOnce(c: Config, s: State, s': State, partial: seq<Handling>)
    requires Inv(c, s) && OnceInv(c, s) && StoredFirst(c, s) && c.mode.NoDoubleConsume? && CrashStep(c, s, s', partial)
    ensures OnceInv(c, s')
  {
    hide Valid, EntriesOk, KeyedOk, LiveItem, Begun, InProgress;
    assert Full(s') <= Full(s);
    forall x: nat
      ensures Live(s', x) ==> Live(s, x) && x >= s.read && x < |s.retry|
    {
    }
    forall o: nat | LiveItem(s', o)
      ensures LiveItem(s, o)
    {
      var x := LiveWitness(s', o);
      LiveHas(s, x);
    }
    forall o: nat | Begun(c, s, o)
      ensures Begun(c, s', o)
    {
      BegunStored(c, s, s', o);
    }
    forall p | 0 <= p < |partial|
      ensures Begun(c, s', partial[p].origin) && (LiveItem(s, partial[p].origin) || !Begun(c, s, partial[p].origin))
      ensures !LiveItem(s', partial[p].origin)
    {
      NoneItem(s', partial[p].origin);
      InProgressOnce(c, s, s', partial, p);
    }
    ExtendOnce(c, s, s', partial);
  }

  lemma NoneItem(s: State, o: nat)
    ensures (forall x: nat :: !Live(s, x)) ==> !LiveItem(s, o)
  {
  }

  lemma BegunStored(c: Config, s: State, s': State, o: nat)
    requires Begun(c, s, o) && s'.next == Bound(s)
    ensures Begun(c, s', o)
  {
  }

  /** What was in progress is not pending any more. */
  lemma InProgressOnce(c: Config, s: State, s': State, partial: seq<Handling>, p: nat)
    requires Inv(c, s) && OnceInv(c, s) && p < |partial| && InProgress(c, s, partial, p) && s'.phase.Draining?
    requires s'.next == Bound(s) && s'.read == s.read && s'.schedule == Schedule(map[], 0) && s'.retry == s.retry
    ensures Begun(c, s', partial[p].origin) && (LiveItem(s, partial[p].origin) || !Begun(c, s, partial[p].origin))
    ensures forall y: nat :: !Live(s', y)
  {
    hide Valid, EntriesOk, KeyedOk, InAttempt, InBatch;
    InProgressIs(c, s, partial, p);
    var o := partial[p].origin;
    assert forall y: nat :: !Live(s', y);
    if s.phase.Running? {
      var x: nat :| Pending(s.schedule, x) && x < |s.retry| && s.retry[x].item == o;
      assert Live(s, x) && Full(s)[x].item == o;
      assert Begun(c, s, o);
    }
  }

  // --- Over whole runs ---

  /** Nothing was reread so far. */
  ghost predicate Once(c: Config, s: State) {
    c.mode.NoDoubleConsume? || !s.crashed
  }

  /** Main records planned and retry records read never go back. */
  ghost predicate TakenOnce(s: State) {
    Ascending(s.planned, Bound(s)) && Ascending(s.taken, s.read)
  }

  lemma OnceStep(c: Config, s: State, s': State, step: Step)
    requires Inv(c, s) && OnceInv(c, s) && StoredFirst(c, s) && NextStep(c, s, s', step) && Once(c, s')
    ensures OnceInv(c, s')
  {
    hide Inv, OnceInv, AttemptStep, DivertStep, ExecuteStep, PollStep, ReadStep, SendStep, CommitStep;
    match step
    case Attempt(t) => AttemptOnce(c, s, s', t);
    case Divert(key, src, stages, written) => DivertOnce(c, s, s', key, src, stages, written);
    case Execute(key, src, stages, out, done, answers, written) =>
      ExecuteOnce(c, s, s', key, src, stages, out, done, answers, written);
    case Crash(partial) => CrashOnce(c, s, s', partial);
    case _ =>
      QuietStep(c, s, s', step);
      QuietOnce(c, s, s');
  }

  lemma DivertOnce(c: Config, s: State, s': State, key: Key, src: seq<nat>, stages: seq<Stage>, written: seq<Entry<nat>>)
    requires Inv(c, s) && OnceInv(c, s) && DivertStep(c, s, s', key, src, stages, written)
    ensures OnceInv(c, s')
  {
    hide Writes, OnceInv, Inv, ProcessedKey;
    DivertProcesses(c, s, s', key, src, stages, written);
    ProcessedOnce(c, s, s', key, src, [], Renamed(src, written));
  }

  lemma ExecuteOnce(c: Config, s: State, s': State, key: Key, src: seq<nat>, stages: seq<Stage>, out: Outcome,
                    done: seq<nat>, answers: seq<bool>, written: seq<Entry<nat>>)
    requires Inv(c, s) && OnceInv(c, s) && ExecuteStep(c, s, s', key, src, stages, out, done, answers, written)
    ensures OnceInv(c, s')
  {
    hide Executes, Writes, OnceInv, Inv, ProcessedKey;
    ExecuteProcesses(c, s, s', key, src, stages, out, done, answers, written);
    ProcessedOnce(c, s, s', key, src, Handlings(src, done, answers, {}),
                  if out.stop < |stages| then Backlogged(c, s, Renamed(src, written)) else []);
  }

  lemma StoredFirstStep(c: Config, s: State, s': State, step: Step)
    requires Inv(c, s) && StoredFirst(c, s) && NextStep(c, s, s', step)
    ensures StoredFirst(c, s')
    ensures TakenOnce(s) && Once(c, s') ==> TakenOnce(s')
  {
    hide Executes, Writes, Valid, EntriesOk, KeyedOk;
  }

  lemma {:induction false} HandledAtMostOnce(c: Config, states: seq<State>, steps: seq<Step>, i: nat)
    requires Behaves(c, states, steps) && i < |states| && Once(c, states[i])
    ensures StoredFirst(c, states[i]) && OnceInv(c, states[i]) && TakenOnce(states[i])
  {
    hide Inv, OnceInv, NextStep, TakenOnce, StoredFirst;
    if i > 0 {
      CrashedStays(c, states[i - 1], states[i], steps[i - 1]);
      HandledAtMostOnce(c, states, steps, i - 1);
      InvReached(c, states, steps, i - 1);
      OnceStep(c, states[i - 1], states[i], steps[i - 1]);
      StoredFirstStep(c, states[i - 1], states[i], steps[i - 1]);
    } else {
      StartOnce(c, states[0]);
    }
  }

  lemma StartOnce(c: Config, s: State)
    requires Init(c, s)
    ensures OnceInv(c, s) && StoredFirst(c, s) && TakenOnce(s)
  {
  }

  lemma CrashedStays(c: Config, s: State, s': State, step: Step)
    requires NextStep(c, s, s', step)
    ensures s.crashed ==> s'.crashed
  {
    hide Executes, Writes;
  }

  // --- A single delay ---

  ghost predicate NoneKept(hist: seq<Handling>) {
    forall p :: 0 <= p < |hist| ==> !hist[p].again
  }

  /** With a single delay a key gives up whenever a run of it fails. */
  lemma SingleDelay(c: Config, s: State, t: Try)
    requires AttemptOk(c, s, t) && |c.delays| == 1
    ensures Kept(c, s, t) == {}
  {
    hide Executes, InFailed, Without;
    var failed := FailedSet(t.stages, t.out, |s.schedule.keys[t.key].records|);
    if t.failed != [] {
      FinishedIs(s.schedule, c.delays, t.key, t.resolved, t.failed, t.now);
    } else if i: nat :| i in failed {
      FailedListed(c, s, t, i);
    }
  }

  lemma NoneKeptStep(c: Config, s: State, s': State, step: Step)
    requires NoneKept(s.hist) && |c.delays| == 1 && NextStep(c, s, s', step)
    ensures NoneKept(s'.hist)
  {
    hide Executes, Writes, AttemptOk, Kept, InProgress, Finishing, AttemptDrops;
    if step.Attempt? {
      SingleDelay(c, s, step.try);
    }
  }

  /** With a single delay no attempt leaves an event it handled pending. */
  lemma {:induction false} NoneKeptReached(c: Config, states: seq<State>, steps: seq<Step>, i: nat)
    requires Behaves(c, states, steps) && i < |states| && |c.delays| == 1
    ensures NoneKept(states[i].hist)
  {
    hide NextStep, NoneKept;
    if i > 0 {
      NoneKeptReached(c, states, steps, i - 1);
      NoneKeptStep(c, states[i - 1], states[i], steps[i - 1]);
    } else {
      StartKept(c, states[0]);
    }
  }

  lemma StartKept(c: Config, s: State)
    requires Init(c, s)
    ensures NoneKept(s.hist)
  {
  }
}
