/** End-to-end order: while nothing is reread after a crash, events are handled in
    the order the main log requires, whatever fails, is diverted, retried, given
    up, dropped, or cut off by a crash. */
module TaskOrder {
  import opened Wrappers
  import opened Events
  import opened PlanOrder
  import opened Planner
  import opened Work
  import opened Encode
  import opened Execution
  import opened Replan
  import opened Retry
  import opened Task
  import opened TaskOnce

  /** The main log requires `x` before `y`. */
  ghost predicate Req(c: Config, x: nat, y: nat) {
    x < y < |c.log| && Required(c.log[x].record, c.log[y].record)
  }

  /** A live acquiring record of the key after `a` and up to `b`. */
  ghost predicate LiveFence(c: Config, s: State, key: Key, a: nat, b: nat) {
    exists z: nat :: a < z <= b && Live(s, z) && KeyAt(c, Full(s)[z].item) == key && Full(s)[z].ordering.Acquires()
  }

  /** Planning what is live keeps `a` before `b`. */
  ghost predicate Apart(c: Config, s: State, a: nat, b: nat) {
    && a < b < |Full(s)|
    && (|| Full(s)[a].tag == Full(s)[b].tag
        || Full(s)[a].ordering.Acquires()
        || Full(s)[b].ordering.Releases()
        || LiveFence(c, s, KeyAt(c, Full(s)[b].item), a, b))
  }

  ghost predicate LiveApart(c: Config, s: State) {
    forall a: nat, b: nat :: Live(s, a) && Live(s, b) && Req(c, Full(s)[a].item, Full(s)[b].item) ==> Apart(c, s, a, b)
  }

  ghost predicate AcquiresKept(c: Config, s: State) {
    forall a: nat :: Live(s, a) && Full(s)[a].item < |c.log| && c.log[Full(s)[a].item].record.ordering.Acquires() ==>
      Full(s)[a].ordering.Acquires()
  }

  /** `x` was processed and isn't pending. */
  ghost predicate Gone(c: Config, s: State, x: nat) {
    Begun(c, s, x) && !LiveItem(s, x)
  }

  ghost predicate HandledBy(s: State, x: nat, q: nat) {
    exists p :: 0 <= p < q && p < |s.hist| && s.hist[p].origin == x
  }

  /** `x` was handled before handling `q`, or is never handled. */
  ghost predicate FirstAt(c: Config, s: State, q: nat, x: nat) {
    HandledBy(s, x, q) || (!HandledBy(s, x, |s.hist|) && Gone(c, s, x))
  }

  /** `x` is never handled after handling `q`. */
  ghost predicate OverAt(c: Config, s: State, q: nat, x: nat) {
    Gone(c, s, x) && forall p :: 0 <= p < |s.hist| && s.hist[p].origin == x ==> p < q
  }

  ghost predicate OrderedAt(c: Config, s: State, q: nat)
    requires q < |s.hist|
  {
    forall x: nat :: Req(c, x, s.hist[q].origin) ==>
      FirstAt(c, s, q, x) && (c.log[x].record.tag != c.log[s.hist[q].origin].record.tag ==> OverAt(c, s, q, x))
  }

  ghost predicate Ordered(c: Config, s: State) {
    forall q: nat :: q < |s.hist| ==> OrderedAt(c, s, q)
  }

  ghost predicate OrderInv(c: Config, s: State) {
    && LiveApart(c, s)
    && AcquiresKept(c, s)
    && Ordered(c, s)
  }

  lemma QuietGone(c: Config, s: State, s': State, x: nat)
    requires Quiet(c, s, s') && Gone(c, s, x)
    ensures Gone(c, s', x)
  {
    hide Live, Full, Begun;
    if LiveItem(s', x) {
      var y := LiveWitness(s', x);
      LiveInRange(s, y);
      LiveHas(s, y);
    }
  }

  lemma QuietOrder(c: Config, s: State, s': State)
    requires OrderInv(c, s) && Quiet(c, s, s')
    ensures OrderInv(c, s')
  {
    hide Live, LiveItem, Full, Begun;
    assert LiveApart(c, s') by {
      forall a: nat, b: nat | Live(s', a) && Live(s', b)
        ensures a < |Full(s)| && b < |Full(s)|
        ensures Apart(c, s, a, b) ==> Apart(c, s', a, b)
      {
        LiveInRange(s, a);
        LiveInRange(s, b);
      }
    }
    forall q: nat | q < |s'.hist|
      ensures OrderedAt(c, s', q)
    {
      assert OrderedAt(c, s, q);
      forall x: nat | Gone(c, s, x)
        ensures Gone(c, s', x)
      {
        QuietGone(c, s, s', x);
      }
    }
  }

  /** Later handlings don't disturb the order of earlier ones. */
  lemma ExtendOrder(c: Config, s: State, s': State, more: seq<Handling>)
    requires Ordered(c, s) && s'.hist == s.hist + more
    requires forall x: nat :: Gone(c, s, x) ==> Gone(c, s', x)
    requires forall p :: 0 <= p < |more| ==> !Gone(c, s, more[p].origin)
    requires forall q: nat :: |s.hist| <= q < |s'.hist| ==> OrderedAt(c, s', q)
    ensures Ordered(c, s')
  {
    hide Gone;
    forall q: nat | q < |s.hist|
      ensures OrderedAt(c, s', q)
    {
      assert OrderedAt(c, s, q) && s'.hist[q] == s.hist[q];
      forall x: nat | Req(c, x, s.hist[q].origin)
        ensures FirstAt(c, s', q, x)
        ensures OverAt(c, s, q, x) ==> OverAt(c, s', q, x)
      {
        if HandledBy(s, x, q) {
          HandledStays(s, s', x, q);
        } else {
          NeverStays(s, s', more, x);
        }
        forall p: nat | p < |s'.hist| && s'.hist[p].origin == x && Gone(c, s, x)
          ensures p < |s.hist| && s'.hist[p] == s.hist[p]
        {
          HistAt(s, s', more, p);
        }
      }
    }
  }

  lemma HandledStays(s: State, s': State, x: nat, q: nat)
    requires HandledBy(s, x, q) && s.hist <= s'.hist
    ensures HandledBy(s', x, q)
  {
    var p :| 0 <= p < q && p < |s.hist| && s.hist[p].origin == x;
    assert s'.hist[p] == s.hist[p];
  }

  lemma HistAt(s: State, s': State, more: seq<Handling>, p: nat)
    requires s'.hist == s.hist + more && p < |s'.hist|
    ensures s'.hist[p] == if p < |s.hist| then s.hist[p] else more[p - |s.hist|]
  {
  }

  lemma NeverStays(s: State, s': State, more: seq<Handling>, x: nat)
    requires s'.hist == s.hist + more && !HandledBy(s, x, |s.hist|)
    requires forall p :: 0 <= p < |more| ==> more[p].origin != x
    ensures !HandledBy(s', x, |s'.hist|)
  {
    forall p: nat | p < |s'.hist|
      ensures s'.hist[p].origin != x
    {
      HistAt(s, s', more, p);
    }
  }

  // --- Retry attempts ---

  /** A live record of the key is in its queue. */
  lemma LiveQueued(c: Config, s: State, key: Key, x: nat) returns (i: nat)
    requires Inv(c, s) && s.phase.Running? && key in s.schedule.keys && Live(s, x) && KeyAt(c, Full(s)[x].item) == key
    ensures i < |s.schedule.keys[key].records| && s.schedule.keys[key].records[i] == x
    ensures x < |s.retry| && Full(s)[x] == s.retry[x]
  {
    hide EntriesOk;
    var k: Key :| k in s.schedule.keys && x in s.schedule.keys[k].records;
    i :| 0 <= i < |s.schedule.keys[key].records| && s.schedule.keys[key].records[i] == x;
  }

  lemma QueueRange(c: Config, s: State, key: Key)
    requires Inv(c, s) && s.phase.Running? && key in s.schedule.keys
    ensures forall i :: 0 <= i < |s.schedule.keys[key].records| ==> s.schedule.keys[key].records[i] < |s.retry|
  {
    var queue := s.schedule.keys[key].records;
    assert forall i :: 0 <= i < |queue| ==> queue[i] in queue;
  }

  /** The main log requires record `i` of the key's queue before record `j`. */
  ghost predicate QueueReq(c: Config, s: State, key: Key, i: nat, j: nat)
    requires key in s.schedule.keys
  {
    var queue := s.schedule.keys[key].records;
    && i < |queue| && j < |queue| && queue[i] < |s.retry| && queue[j] < |s.retry|
    && Req(c, s.retry[queue[i]].item, s.retry[queue[j]].item)
  }

  /** The plan of a key's pending records keeps every order the log requires. */
  lemma QueuePrecedes(c: Config, s: State, key: Key, i: nat, j: nat)
    requires Inv(c, s) && LiveApart(c, s) && s.phase.Running? && key in s.schedule.keys && QueueReq(c, s, key, i, j)
    ensures forall i :: 0 <= i < |s.schedule.keys[key].records| ==> s.schedule.keys[key].records[i] < |s.retry|
    ensures Precedes(Headers(key, Queue(s, s.schedule.keys[key].records)), i, j)
  {
    hide EntriesOk, KeyedOk, Live, Precedes, Full;
    QueueRange(c, s, key);
    var queue := s.schedule.keys[key].records;
    var rs := Headers(key, Queue(s, queue));
    QueueLive(c, s, key, i);
    QueueLive(c, s, key, j);
    assert Apart(c, s, queue[i], queue[j]);
    assert i < j;
    if LiveFence(c, s, key, queue[i], queue[j]) {
      var z: nat :| queue[i] < z <= queue[j] && Live(s, z) && KeyAt(c, Full(s)[z].item) == key && Full(s)[z].ordering.Acquires();
      var k := LiveQueued(c, s, key, z);
      assert i < k <= j;
      CutPrecedes(rs, i, k, j);
    } else {
      RequiredPrecedes(rs, i, j);
    }
  }

  /** A fence is only removed together with everything before it. */
  lemma FenceStays(c: Config, s: State, s': State, t: Try, a: nat, z: nat)
    requires Inv(c, s) && AttemptStep(c, s, s', t) && Live(s', a) && Live(s, z) && a < z
    requires Full(s)[z].ordering.Acquires()
    requires a < |Full(s)| && KeyAt(c, Full(s)[a].item) == KeyAt(c, Full(s)[z].item)
    ensures Live(s', z)
  {
    hide OffsetsOf, EntriesOk, KeyedOk, Precedes, Finished, AttemptDrops, Handlings, Finishing, Executes, InDone, InFailed;
    AttemptLive(c, s, s', t, a);
    if KeyAt(c, Full(s)[a].item) == t.key {
      var i := LiveQueued(c, s, t.key, a);
      var k := LiveQueued(c, s, t.key, z);
      var queue := s.schedule.keys[t.key].records;
      assert i < k;
      if !Live(s', z) {
        RemovedRan(c, s, s', t, k);
        RanBefore(c, s, t, i, k);
        CompletedGone(c, s, s', t, i);
        assert false;
      }
    } else {
      OtherStays(c, s, s', t, z);
    }
  }

  lemma OtherStays(c: Config, s: State, s': State, t: Try, z: nat)
    requires Inv(c, s) && AttemptStep(c, s, s', t) && Live(s, z) && KeyAt(c, Full(s)[z].item) != t.key
    ensures Live(s', z)
  {
    hide EntriesOk, Finished, AttemptDrops, Handlings, Finishing, Executes, OffsetsOf;
    StillPending(c, s, s', t, z);
    assert s.phase.Running? && Full(s') == Full(s);
    assert Pending(s.schedule, z);
    assert z !in s.schedule.keys[t.key].records;
  }

  /** A removed record was in a run that completed or failed. */
  lemma RemovedRan(c: Config, s: State, s': State, t: Try, k: nat)
    requires Inv(c, s) && AttemptStep(c, s, s', t) && k < |s.schedule.keys[t.key].records|
    requires !Live(s', s.schedule.keys[t.key].records[k])
    ensures InDone(t.stages, t.out, k) || InFailed(t.stages, t.out, k)
  {
    hide EntriesOk, KeyedOk, Finished, AttemptDrops, Handlings, Finishing, Executes, InDone, InFailed;
    var queue := s.schedule.keys[t.key].records;
    assert queue[k] in queue;
    QueueLive(c, s, t.key, k);
    StillPending(c, s, s', t, queue[k]);
    assert queue[k] in t.resolved || queue[k] in t.failed;
  }

  /** Everything before an acquiring record that ran completed. */
  lemma RanBefore(c: Config, s: State, t: Try, i: nat, k: nat)
    requires AttemptOk(c, s, t) && i < k < |s.schedule.keys[t.key].records|
    requires s.retry[s.schedule.keys[t.key].records[k]].ordering.Acquires()
    requires InDone(t.stages, t.out, k) || InFailed(t.stages, t.out, k)
    ensures InDone(t.stages, t.out, i)
  {
    hide Precedes, OffsetsOf, OutcomeOk, RunsOk, Complete, TagsIncrease;
    var queue := s.schedule.keys[t.key].records;
    var rs := Headers(t.key, Queue(s, queue));
    CutPrecedes(rs, i, k, k);
    var g', b' := RanPlace(t.stages, t.out, k);
    var g, b := PlaceOf(rs, t.key, t.stages, i);
    PrecedesAt(rs, t.key, t.stages, g, b, i, g', b', k);
    SegmentsApart(rs, t.key, t.stages, g, b, i, g', b', k);
    assert RunDone(t.out, g, b);
  }

  lemma SegmentsApart(rs: seq<PlanRecord>, key: Key, stages: seq<Stage>, g: nat, b: nat, i: nat, g': nat, b': nat, i': nat)
    requires KeyOk(rs, key, stages) && At(stages, g, b, i) && At(stages, g', b', i') && i < |rs| && i' < |rs|
    requires SegmentAt(rs, i) < SegmentAt(rs, i')
    ensures g < g'
  {
    hide SegmentAt, RunsOk, Complete, At;
  }

  lemma RanPlace(stages: seq<Stage>, out: Outcome, k: nat) returns (g: nat, b: nat)
    requires InDone(stages, out, k) || InFailed(stages, out, k)
    ensures At(stages, g, b, k) && g <= out.stop
  {
    if InDone(stages, out, k) {
      g, b :| At(stages, g, b, k) && RunDone(out, g, b);
    } else {
      g, b :| At(stages, g, b, k) && RunFailed(out, g, b);
    }
  }

  lemma AttemptApart(c: Config, s: State, s': State, t: Try)
    requires Inv(c, s) && LiveApart(c, s) && AttemptStep(c, s, s', t)
    ensures LiveApart(c, s')
  {
    hide Valid, EntriesOk, KeyedOk, AttemptOk, Finishing, AttemptDrops, Live, Handlings;
    assert Full(s') == Full(s);
    forall a: nat | Live(s', a)
      ensures Live(s, a) && a < |Full(s)|
    {
      AttemptLive(c, s, s', t, a);
      LiveInRange(s, a);
    }
    forall a: nat, b: nat | Live(s', a) && Live(s', b) && Req(c, Full(s)[a].item, Full(s)[b].item)
      ensures Apart(c, s', a, b)
    {
      assert Apart(c, s, a, b);
      var key := KeyAt(c, Full(s)[b].item);
      if LiveFence(c, s, key, a, b) {
        var z: nat :| a < z <= b && Live(s, z) && KeyAt(c, Full(s)[z].item) == key && Full(s)[z].ordering.Acquires();
        FenceStays(c, s, s', t, a, z);
      }
    }
  }

  lemma AttemptGone(c: Config, s: State, s': State, t: Try, x: nat)
    requires Inv(c, s) && AttemptStep(c, s, s', t) && Gone(c, s, x)
    ensures Gone(c, s', x)
  {
    hide Valid, EntriesOk, KeyedOk, AttemptOk, Finishing, AttemptDrops, Handlings, LiveItem, Live;
    if LiveItem(s', x) {
      var y := LiveWitness(s', x);
      AttemptLive(c, s, s', t, y);
      LiveHas(s, y);
    }
  }

  /** The order of one handling of an attempt. */
  lemma AttemptOrdered(c: Config, s: State, s': State, t: Try, q: nat, x: nat)
    requires Inv(c, s) && OnceInv(c, s) && LiveApart(c, s) && AttemptStep(c, s, s', t) && q < |t.done|
    requires Req(c, x, AttemptHist(c, s, t)[q].origin)
    ensures FirstAt(c, s', |s.hist| + q, x)
    ensures c.log[x].record.tag != c.log[AttemptHist(c, s, t)[q].origin].record.tag ==> OverAt(c, s', |s.hist| + q, x)
  {
    hide Valid, EntriesOk, KeyedOk, Executes, Finishing, AttemptDrops, Handlings, LiveItem, Live, OffsetsOf, Gone, OnceInv;
    OnceLive(c, s);
    AttemptHandles(c, s, s', t, q);
    if LiveItem(s, x) {
      AttemptOrderedLive(c, s, s', t, q, x);
    } else {
      var y := AttemptHist(c, s, t)[q].origin;
      LiveBeforeNext(c, s, y);
      assert Gone(c, s, x) by { GoneIs(c, s, x); }
      AttemptGone(c, s, s', t, x);
      forall p: nat | p < |t.done|
        ensures AttemptHist(c, s, t)[p].origin != x
      {
        AttemptHandles(c, s, s', t, p);
      }
      OldOnly(c, s, s', AttemptHist(c, s, t), q, x);
    }
  }

  lemma GoneIs(c: Config, s: State, x: nat)
    requires x < s.next && !LiveItem(s, x)
    ensures Gone(c, s, x)
  {
  }

  lemma LiveBeforeNext(c: Config, s: State, y: nat)
    requires OnceInv(c, s) && LiveItem(s, y) && s.phase.Running?
    ensures y < s.next
  {
  }

  /** If only earlier steps handled `x`, it comes before what is handled now. */
  lemma OldOnly(c: Config, s: State, s': State, more: seq<Handling>, q: nat, x: nat)
    requires s'.hist == s.hist + more && q < |more| && Gone(c, s', x)
    requires forall p :: 0 <= p < |more| ==> more[p].origin != x
    ensures FirstAt(c, s', |s.hist| + q, x) && OverAt(c, s', |s.hist| + q, x)
  {
    hide Gone;
    forall p: nat | p < |s'.hist| && s'.hist[p].origin == x
      ensures p < |s.hist|
    {
      HistAt(s, s', more, p);
    }
  }

  /** If `x` is handled in the same step, but earlier, it comes before. */
  lemma NewBefore(s: State, s': State, more: seq<Handling>, q: nat, p: nat)
    requires s'.hist == s.hist + more && p < q < |more|
    ensures HandledBy(s', more[p].origin, |s.hist| + q)
  {
    assert s'.hist[|s.hist| + p] == more[p];
  }

  lemma OverNew(c: Config, s: State, s': State, more: seq<Handling>, q: nat, p: nat)
    requires s'.hist == s.hist + more && p < q < |more| && Gone(c, s', more[p].origin)
    requires forall p, q :: 0 <= p < q < |more| ==> more[p].origin != more[q].origin
    ensures OverAt(c, s', |s.hist| + q, more[p].origin)
  {
    hide Gone;
    forall r: nat | r < |s'.hist| && s'.hist[r].origin == more[p].origin
      ensures r < |s.hist| + q
    {
      HistAt(s, s', more, r);
    }
  }

  /** An event that was pending was handled ahead of what it must stay before. */
  lemma LiveAhead(c: Config, s: State, t: Try, q: nat, x: nat) returns (p: nat)
    requires Inv(c, s) && LiveApart(c, s) && AttemptOk(c, s, t) && q < |t.done|
    requires Req(c, x, AttemptHist(c, s, t)[q].origin) && LiveItem(s, x)
    ensures p < q && AttemptHist(c, s, t)[p].origin == x
    ensures c.log[x].record.tag != c.log[AttemptHist(c, s, t)[q].origin].record.tag ==> InDone(t.stages, t.out, t.done[p])
  {
    hide Valid, KeyedOk, Executes, LiveItem, Live, OffsetsOf, Precedes, InDone, Kept;
    var queue := s.schedule.keys[t.key].records;
    var rs := Headers(t.key, Queue(s, queue));
    var good := Good(c, Items(Queue(s, queue)));
    QueueLive(c, s, t.key, t.done[q]);
    var a := LiveWitness(s, x);
    var i := LiveQueued(c, s, t.key, a);
    QueuePrecedes(c, s, t.key, i, t.done[q]);
    assert i in good;
    DoneInOrder(rs, t.key, t.stages, good, t.out, t.done, i, q);
    p :| 0 <= p < q && t.done[p] == i;
    if c.log[x].record.tag != c.log[AttemptHist(c, s, t)[q].origin].record.tag {
      CompletedBefore(c, s, t, i, q);
    }
  }

  lemma AttemptOrderedLive(c: Config, s: State, s': State, t: Try, q: nat, x: nat)
    requires Inv(c, s) && OnceInv(c, s) && LiveApart(c, s) && AttemptStep(c, s, s', t) && q < |t.done|
    requires Req(c, x, AttemptHist(c, s, t)[q].origin) && LiveItem(s, x)
    ensures FirstAt(c, s', |s.hist| + q, x)
    ensures c.log[x].record.tag != c.log[AttemptHist(c, s, t)[q].origin].record.tag ==> OverAt(c, s', |s.hist| + q, x)
  {
    hide Valid, KeyedOk, Executes, Finishing, AttemptDrops, LiveItem, Live, OffsetsOf, Gone, LiveBegun, HandledGone, HistBegun, InDone, InFailed, Kept;
    var more := AttemptHist(c, s, t);
    var p := LiveAhead(c, s, t, q, x);
    NewBefore(s, s', more, q, p);
    if c.log[x].record.tag != c.log[more[q].origin].record.tag {
      DoneNotFailed(c, s, t, t.done[p]);
      StaysPending(c, s, s', t, p);
      BegunLive(c, s, s', x);
      DistinctHist(c, s, t);
      OverNew(c, s, s', more, q, p);
    }
  }

  lemma DoneNotFailed(c: Config, s: State, t: Try, i: nat)
    requires Inv(c, s) && AttemptOk(c, s, t) && i < |s.schedule.keys[t.key].records| && InDone(t.stages, t.out, i)
    ensures !InFailed(t.stages, t.out, i)
  {
    hide Executes, InDone, InFailed, Valid, EntriesOk, KeyedOk;
    var queue := s.schedule.keys[t.key].records;
    assert i in DoneSet(t.stages, t.out, |queue|);
    if InFailed(t.stages, t.out, i) {
      assert i in FailedSet(t.stages, t.out, |queue|);
      FailedNotResolved(c, s, t, i);
    }
  }

  /** `x` was handled ahead of handling `q` of the attempt, in a run that failed. */
  ghost predicate FailedAhead(c: Config, s: State, t: Try, q: nat, x: nat)
    requires AttemptOk(c, s, t) && q < |t.done|
  {
    exists p :: 0 <= p < q && AttemptHist(c, s, t)[p].origin == x && InFailed(t.stages, t.out, t.done[p])
  }

  /** Once an event was handled in an attempt, an event required before it is
      still to be handled exactly when it was handled ahead of it in this attempt,
      its run failed and the key didn't give up. */
  lemma AttemptLeaves(c: Config, s: State, s': State, t: Try, q: nat, x: nat)
    requires Inv(c, s) && OnceInv(c, s) && LiveApart(c, s) && AttemptStep(c, s, s', t) && q < |t.done|
    requires Req(c, x, AttemptHist(c, s, t)[q].origin)
    ensures !Gone(c, s', x) <==> FailedAhead(c, s, t, q, x) && !Finishing(c, s, t).1.GaveUp?
  {
    hide Valid, EntriesOk, KeyedOk, Executes, Finishing, AttemptDrops, Handlings, LiveItem, Live, OffsetsOf, OnceInv, InDone, InFailed, Kept, Req;
    OnceLive(c, s);
    if !Gone(c, s', x) {
      if Gone(c, s, x) {
        AttemptGone(c, s, s', t, x);
      }
      AttemptHandles(c, s, s', t, q);
      ReqBelow(c, x, AttemptHist(c, s, t)[q].origin);
      LiveBeforeNext(c, s, AttemptHist(c, s, t)[q].origin);
      var p := LiveAhead(c, s, t, q, x);
      StaysPending(c, s, s', t, p);
    } else {
      forall p | 0 <= p < q && AttemptHist(c, s, t)[p].origin == x
        ensures InFailed(t.stages, t.out, t.done[p]) ==> Finishing(c, s, t).1.GaveUp?
      {
        StaysPending(c, s, s', t, p);
      }
    }
  }

  lemma ReqBelow(c: Config, x: nat, y: nat)
    requires Req(c, x, y)
    ensures x < y
  {
  }

  lemma BegunLive(c: Config, s: State, s': State, x: nat)
    requires OnceInv(c, s) && LiveItem(s, x) && !LiveItem(s', x) && s'.next == s.next && s'.phase == s.phase
    ensures Gone(c, s', x)
  {
    LiveItemBegun(c, s, x);
  }

  lemma DistinctHist(c: Config, s: State, t: Try)
    requires Inv(c, s) && LiveOnce(s) && AttemptOk(c, s, t)
    ensures forall p, q :: 0 <= p < q < |t.done| ==> AttemptHist(c, s, t)[p].origin != AttemptHist(c, s, t)[q].origin
  {
    hide Valid, KeyedOk, EntriesOk, Executes, OffsetsOf, LiveOnce;
    DistinctDone(c, s, t);
    forall p: nat, q: nat | p < q < |t.done|
      ensures AttemptHist(c, s, t)[p].origin != AttemptHist(c, s, t)[q].origin
    {
      QueueDistinct(c, s, t, t.done[p], t.done[q]);
    }
  }

  /** What the plan puts before a handled record of another type completed. */
  lemma CompletedBefore(c: Config, s: State, t: Try, i: nat, q: nat)
    requires AttemptOk(c, s, t) && q < |t.done| && i < |s.schedule.keys[t.key].records|
    requires Precedes(Headers(t.key, Queue(s, s.schedule.keys[t.key].records)), i, t.done[q])
    requires s.retry[s.schedule.keys[t.key].records[i]].tag != s.retry[s.schedule.keys[t.key].records[t.done[q]]].tag
    ensures InDone(t.stages, t.out, i)
  {
    hide KeyOk, OutcomeOk, HandledAt, Precedes, OffsetsOf;
    var queue := s.schedule.keys[t.key].records;
    assert t.done[q] in t.done;
    var g, b := BeforeHandled(Headers(t.key, Queue(s, queue)), t.key, t.stages, Good(c, Items(Queue(s, queue))), t.out, i, t.done[q]);
  }

  lemma AttemptOrder(c: Config, s: State, s': State, t: Try)
    requires Inv(c, s) && OnceInv(c, s) && OrderInv(c, s) && AttemptStep(c, s, s', t)
    ensures OrderInv(c, s')
  {
    hide Valid, EntriesOk, KeyedOk, Executes, Finishing, AttemptDrops, Handlings, LiveItem, Live, OffsetsOf, FirstAt, OverAt, Gone, Req, OnceInv;
    AttemptApart(c, s, s', t);
    var more := AttemptHist(c, s, t);
    assert Full(s') == Full(s) && s'.hist == s.hist + more;
    assert AcquiresKept(c, s') by {
      forall a: nat | Live(s', a)
        ensures Live(s, a) && a < |Full(s)|
      {
        AttemptLive(c, s, s', t, a);
        LiveInRange(s, a);
      }
    }
    forall x: nat | Gone(c, s, x)
      ensures Gone(c, s', x)
    {
      AttemptGone(c, s, s', t, x);
    }
    forall p: nat | p < |more|
      ensures !Gone(c, s, more[p].origin)
    {
      OnceLive(c, s);
      AttemptHandles(c, s, s', t, p);
      NotGone(c, s, more[p].origin);
    }
    forall q: nat | |s.hist| <= q < |s'.hist|
      ensures OrderedAt(c, s', q)
    {
      assert s'.hist[q] == more[q - |s.hist|];
      forall x: nat | Req(c, x, s'.hist[q].origin)
        ensures FirstAt(c, s', q, x)
        ensures ReqLog(c, x, s'.hist[q].origin) && (c.log[x].record.tag != c.log[s'.hist[q].origin].record.tag ==> OverAt(c, s', q, x))
      {
        AttemptOrdered(c, s, s', t, q - |s.hist|, x);
        ReqIs(c, x, s'.hist[q].origin);
      }
    }
    ExtendOrder(c, s, s', more);
  }

  ghost predicate ReqLog(c: Config, x: nat, y: nat) {
    x < |c.log| && y < |c.log|
  }

  lemma ReqIs(c: Config, x: nat, y: nat)
    requires Req(c, x, y)
    ensures ReqLog(c, x, y)
  {
  }

  lemma OnceLive(c: Config, s: State)
    requires OnceInv(c, s)
    ensures LiveOnce(s)
  {
  }

  lemma NotGone(c: Config, s: State, o: nat)
    requires LiveItem(s, o) || !Begun(c, s, o)
    ensures !Gone(c, s, o)
  {
  }

  // --- Processing a batch ---

  /** No main record of a key runs directly while an earlier record of the key
      is in the retry partition or about to be sent there. */
  lemma NoneLive(c: Config, s: State, key: Key, x: nat)
    requires Inv(c, s) && s.phase.Working? && key in s.phase.keys && key !in s.schedule.keys && Live(s, x)
    ensures KeyAt(c, Full(s)[x].item) != key
  {
    hide Valid, EntriesOk;
    if x < |s.retry| {
      var k: Key :| k in s.schedule.keys && x in s.schedule.keys[k].records;
    }
  }

  lemma ProcessedFull(s: State, s': State, key: Key, more: seq<Entry<nat>>, x: nat)
    requires s.phase.Working? && s.read <= |s.retry|
    requires s' == s.(phase := Working(s.phase.count, s.phase.keys - {key}, s.phase.entries + more), hist := s'.hist, dropped := s'.dropped)
    ensures Full(s') == Full(s) + more
    ensures x < |Full(s)| ==> (Live(s', x) <==> Live(s, x))
    ensures x >= |Full(s)| ==> (Live(s', x) <==> x < |Full(s')|)
  {
    assert Full(s') == Full(s) + more;
  }

  lemma ProcessedGone(c: Config, s: State, s': State, key: Key, src: seq<nat>, handled: seq<Handling>, more: seq<Entry<nat>>, x: nat)
    requires Inv(c, s) && ProcessedKey(c, s, s', key, src, handled, more) && Gone(c, s, x)
    ensures Gone(c, s', x)
  {
    hide Valid, EntriesOk, KeyedOk, Live, LiveItem, Begun, Batch, Full;
    BegunGrows(c, s, s', key, x);
    if LiveItem(s', x) {
      var y := LiveWitness(s', x);
      LiveInRange(s', y);
      ProcessedFull(s, s', key, more, y);
      if y < |Full(s)| {
        LiveHas(s, y);
      } else {
        NotBegun(c, s, key, src, more[y - |Full(s)|].item);
      }
    }
  }

  /** A fence among the new retry records is live. */
  lemma NewFence(c: Config, s: State, s': State, key: Key, src: seq<nat>, written: seq<Entry<nat>>, lo: int, q: nat, a: nat)
    requires s.phase.Working? && s.read <= |s.retry| && forall p :: 0 <= p < |written| ==> written[p].item < |src|
    requires s' == s.(phase := Working(s.phase.count, s.phase.keys - {key}, s.phase.entries + Renamed(src, written)), hist := s'.hist, dropped := s'.dropped)
    requires forall p :: 0 <= p < |written| ==> KeyAt(c, src[written[p].item]) == key
    requires FencedBetween(written, lo, q) && lo >= -1 && a <= |Full(s)| + lo
    ensures LiveFence(c, s', key, a, |Full(s)| + q)
  {
    hide Live, Full;
    var z :| lo < z <= q && 0 <= z < |written| && written[z].ordering.Acquires();
    ProcessedFull(s, s', key, Renamed(src, written), |Full(s)| + z);
    assert Full(s')[|Full(s)| + z] == Renamed(src, written)[z];
  }

  lemma OldApart(c: Config, s: State, s': State, key: Key, more: seq<Entry<nat>>, a: nat, b: nat)
    requires s.phase.Working? && s.read <= |s.retry|
    requires s' == s.(phase := Working(s.phase.count, s.phase.keys - {key}, s.phase.entries + more), hist := s'.hist, dropped := s'.dropped)
    requires Apart(c, s, a, b)
    ensures Apart(c, s', a, b)
  {
    hide Live, Full;
    ProcessedFull(s, s', key, more, a);
    var k := KeyAt(c, Full(s)[b].item);
    if LiveFence(c, s, k, a, b) {
      var z: nat :| a < z <= b && Live(s, z) && KeyAt(c, Full(s)[z].item) == k && Full(s)[z].ordering.Acquires();
      ProcessedFull(s, s', key, more, z);
      assert Full(s')[z] == Full(s)[z];
    }
  }

  /** The orders the log requires between old and new retry records. */
  lemma CrossApart(c: Config, s: State, s': State, key: Key, src: seq<nat>, stages: seq<Stage>, progress: Progress,
                   written: seq<Entry<nat>>, a: nat, b: nat)
    requires Inv(c, s) && AcquiresKept(c, s) && Processes(c, s, key, src)
    requires Writes(Records(c, src), key, stages, Good(c, src), progress, written)
    requires forall p :: 0 <= p < |written| ==> written[p].item < |src|
    requires s' == s.(phase := Working(s.phase.count, s.phase.keys - {key}, s.phase.entries + Renamed(src, written)), hist := s'.hist, dropped := s'.dropped)
    requires Live(s, a) && a < |Full(s)| <= b < |Full(s')| && Req(c, Full(s)[a].item, Full(s')[b].item)
    ensures Apart(c, s', a, b)
  {
    hide Live, Full, Writes, Valid, KeyedOk, HandledAt, Batch, KeptApart;
    var n, more := |Full(s)|, Renamed(src, written);
    ProcessedFull(s, s', key, more, a);
    EncodingKeeps(Records(c, src), key, stages, Good(c, src), progress, written);
    WrittenOk(c, s, key, src, stages, progress, written);
    assert Full(s')[a] == Full(s)[a] && Full(s')[b] == more[b - n];
    if FencedBetween(written, -1, b - n) {
      NewFence(c, s, s', key, src, written, -1, b - n, a);
    }
  }

  /** The orders the log requires among new retry records. */
  lemma NewApart(c: Config, s: State, s': State, key: Key, src: seq<nat>, stages: seq<Stage>, progress: Progress,
                 written: seq<Entry<nat>>, p: nat, q: nat)
    requires Processes(c, s, key, src) && s.read <= |s.retry|
    requires Writes(Records(c, src), key, stages, Good(c, src), progress, written)
    requires forall p :: 0 <= p < |written| ==> written[p].item < |src|
    requires s' == s.(phase := Working(s.phase.count, s.phase.keys - {key}, s.phase.entries + Renamed(src, written)), hist := s'.hist, dropped := s'.dropped)
    requires p < |written| && q < |written| && Req(c, src[written[p].item], src[written[q].item])
    ensures Apart(c, s', |Full(s)| + p, |Full(s)| + q)
  {
    hide Live, Full, Writes, HandledAt, Batch, FencedBetween;
    var n, more := |Full(s)|, Renamed(src, written);
    ProcessedFull(s, s', key, more, n + p);
    EncodingKeeps(Records(c, src), key, stages, Good(c, src), progress, written);
    WrittenOk(c, s, key, src, stages, progress, written);
    assert Full(s')[n + p] == more[p] && Full(s')[n + q] == more[q];
    ItemOrder(src, written[p].item, written[q].item);
    BatchIncreasing(c, s, key, src);
    assert KeptApart(written, p, q);
    if FencedBetween(written, p, q) {
      NewFence(c, s, s', key, src, written, p, q, n + p);
    }
  }

  lemma WrittenApart(c: Config, s: State, s': State, key: Key, src: seq<nat>, stages: seq<Stage>, progress: Progress,
                     written: seq<Entry<nat>>, a: nat, b: nat)
    requires Inv(c, s) && OnceInv(c, s) && LiveApart(c, s) && AcquiresKept(c, s) && Processes(c, s, key, src)
    requires Writes(Records(c, src), key, stages, Good(c, src), progress, written)
    requires forall p :: 0 <= p < |written| ==> written[p].item < |src|
    requires s' == s.(phase := Working(s.phase.count, s.phase.keys - {key}, s.phase.entries + Renamed(src, written)), hist := s'.hist, dropped := s'.dropped)
    requires Live(s', a) && Live(s', b) && a < |Full(s')| && b < |Full(s')| && Req(c, Full(s')[a].item, Full(s')[b].item)
    ensures Apart(c, s', a, b)
  {
    hide Live, Full, Writes, Valid, KeyedOk, EntriesOk, OnceInv, Batch, Apart;
    var n, more := |Full(s)|, Renamed(src, written);
    ProcessedFull(s, s', key, more, a);
    ProcessedFull(s, s', key, more, b);
    WrittenOk(c, s, key, src, stages, progress, written);
    if b < n {
      if a < n {
        assert Apart(c, s, a, b);
        OldApart(c, s, s', key, more, a, b);
      } else {
        assert Full(s')[a] == more[a - n] && Full(s')[b] == Full(s)[b];
        OldIsEarlier(c, s, key, src, b, more[a - n].item);
      }
    } else if a < n {
      CrossApart(c, s, s', key, src, stages, progress, written, a, b);
    } else {
      NewApart(c, s, s', key, src, stages, progress, written, a - n, b - n);
    }
  }

  lemma BatchIncreasing(c: Config, s: State, key: Key, src: seq<nat>)
    requires Processes(c, s, key, src)
    ensures Increasing(src)
  {
  }

  lemma ItemOrder(src: seq<nat>, i: nat, j: nat)
    requires i < |src| && j < |src|
    ensures Increasing(src) && src[i] < src[j] ==> i < j
  {
  }

  /** Live records of the key being processed come from earlier batches. */
  lemma OldIsEarlier(c: Config, s: State, key: Key, src: seq<nat>, b: nat, o: nat)
    requires OnceInv(c, s) && Processes(c, s, key, src) && o in src && Live(s, b)
    ensures b < |Full(s)|
    ensures KeyAt(c, Full(s)[b].item) == key ==> Full(s)[b].item < o
  {
    assert Begun(c, s, Full(s)[b].item);
  }

  lemma ProcessedApart(c: Config, s: State, s': State, key: Key, src: seq<nat>, stages: seq<Stage>, progress: Progress,
                       written: seq<Entry<nat>>, more: seq<Entry<nat>>)
    requires Inv(c, s) && OnceInv(c, s) && LiveApart(c, s) && AcquiresKept(c, s) && Processes(c, s, key, src)
    requires Writes(Records(c, src), key, stages, Good(c, src), progress, written)
    requires forall p :: 0 <= p < |written| ==> written[p].item < |src|
    requires more == Renamed(src, written) || more == []
    requires s' == s.(phase := Working(s.phase.count, s.phase.keys - {key}, s.phase.entries + more), hist := s'.hist, dropped := s'.dropped)
    ensures LiveApart(c, s') && AcquiresKept(c, s')
  {
    hide Live, Full, Writes, Inv, HandledAt, Begun, OnceInv, Batch, Apart, Req;
    assert s.read <= |s.retry| by { InvRange(c, s); }
    forall a: nat, b: nat | Live(s', a) && Live(s', b) && a < |Full(s')| && b < |Full(s')| && Req(c, Full(s')[a].item, Full(s')[b].item)
      ensures Apart(c, s', a, b)
    {
      ProcessedFull(s, s', key, more, a);
      ProcessedFull(s, s', key, more, b);
      if more == Renamed(src, written) {
        WrittenApart(c, s, s', key, src, stages, progress, written, a, b);
      } else {
        OldApart(c, s, s', key, more, a, b);
      }
    }
    EncodingKeeps(Records(c, src), key, stages, Good(c, src), progress, written);
    forall a: nat | Live(s', a)
      ensures a < |Full(s')|
      ensures Full(s')[a].item < |c.log| && c.log[Full(s')[a].item].record.ordering.Acquires() ==> Full(s')[a].ordering.Acquires()
    {
      LiveInRange(s', a);
      ProcessedFull(s, s', key, more, a);
      if a < |Full(s)| {
        assert Full(s')[a] == Full(s)[a];
      } else {
        assert Full(s')[a] == more[a - |Full(s)|];
      }
    }
  }

  lemma InvRange(c: Config, s: State)
    requires Inv(c, s)
    ensures s.read <= |s.retry|
  {
  }

  /** An undecodable or unparsed record of the batch is gone after its key. */
  lemma BadGone(c: Config, s: State, s': State, key: Key, src: seq<nat>, handled: seq<Handling>, more: seq<Entry<nat>>, x: nat)
    requires Inv(c, s') && ProcessedKey(c, s, s', key, src, handled, more)
    requires x < Bound(s) && x < |c.log| && KeyAt(c, x) == key && !(c.log[x].parses && c.log[x].decodes)
    ensures Gone(c, s', x)
  {
    hide Valid, KeyedOk, Live, Batch;
    NowBegun(c, s, s', key, x);
    if LiveItem(s', x) {
      var y := LiveWitness(s', x);
      LiveInRange(s', y);
      assert false;
    }
  }

  lemma ExecuteOrdered(c: Config, s: State, s': State, key: Key, src: seq<nat>, stages: seq<Stage>, out: Outcome,
                       done: seq<nat>, answers: seq<bool>, more: seq<Entry<nat>>, q: nat, x: nat)
    requires Inv(c, s) && Inv(c, s') && OnceInv(c, s) && OnceInv(c, s') && Processes(c, s, key, src) && key !in s.schedule.keys
    requires Executes(Records(c, src), key, stages, Good(c, src), out, done) && |answers| == |done|
    requires forall p :: 0 <= p < |done| ==> done[p] < |src|
    requires ProcessedKey(c, s, s', key, src, Handlings(src, done, answers, {}), more)
    requires q < |done| && Req(c, x, src[done[q]])
    ensures FirstAt(c, s', |s.hist| + q, x) && OverAt(c, s', |s.hist| + q, x)
  {
    hide Executes, LiveItem, Live, Gone, OnceInv, Begun, Inv, FirstAt, OverAt, Batch;
    var handled := Handlings(src, done, answers, {});
    var y := src[done[q]];
    assert handled[q].origin == y && y in src && KeyAt(c, x) == key;
    BatchOf(c, s, key, src, x, y);
    if x < s.next {
      NotLive(c, s, key, x);
      GoneIs(c, s, x);
      ProcessedGone(c, s, s', key, src, handled, more, x);
      OldOnly(c, s, s', handled, q, x);
    } else if c.log[x].parses && c.log[x].decodes {
      ExecuteOrderedNew(c, s, s', key, src, stages, out, done, answers, more, q, x);
    } else {
      BadGone(c, s, s', key, src, handled, more, x);
      HandlingsOk(c, src, Records(c, src), key, stages, out, done, answers, {});
      assert forall p :: 0 <= p < |handled| ==> handled[p] in handled;
      OldOnly(c, s, s', handled, q, x);
    }
  }

  lemma ExecuteOrderedNew(c: Config, s: State, s': State, key: Key, src: seq<nat>, stages: seq<Stage>, out: Outcome,
                          done: seq<nat>, answers: seq<bool>, more: seq<Entry<nat>>, q: nat, x: nat)
    requires OnceInv(c, s') && Processes(c, s, key, src)
    requires Executes(Records(c, src), key, stages, Good(c, src), out, done) && |answers| == |done|
    requires forall p :: 0 <= p < |done| ==> done[p] < |src|
    requires ProcessedKey(c, s, s', key, src, Handlings(src, done, answers, {}), more)
    requires q < |done| && Req(c, x, src[done[q]]) && x in src && c.log[x].decodes
    ensures FirstAt(c, s', |s.hist| + q, x) && OverAt(c, s', |s.hist| + q, x)
  {
    hide Executes, LiveItem, Live, Gone, Precedes, OnceInv, Begun, Batch, OverAt;
    var handled := Handlings(src, done, answers, {});
    var i :| 0 <= i < |src| && src[i] == x;
    BatchIncreasing(c, s, key, src);
    ItemOrder(src, i, done[q]);
    RequiredPrecedes(Records(c, src), i, done[q]);
    DoneInOrder(Records(c, src), key, stages, Good(c, src), out, done, i, q);
    var p :| 0 <= p < q && done[p] == i;
    NewBefore(s, s', handled, q, p);
    HandledIsGone(c, s', |s.hist| + p);
    assert s'.hist[|s.hist| + p] == handled[p];
    OverNew(c, s, s', handled, q, p);
  }

  lemma HandledIsGone(c: Config, s: State, p: nat)
    requires OnceInv(c, s) && p < |s.hist| && !s.hist[p].again
    ensures Gone(c, s, s.hist[p].origin)
  {
  }

  lemma BatchOf(c: Config, s: State, key: Key, src: seq<nat>, x: nat, y: nat)
    requires Processes(c, s, key, src) && x < y && y in src
    ensures Increasing(src) && x < Bound(s) && x < |c.log|
    ensures x >= s.next && c.log[x].parses ==> x in src
    ensures forall o: nat :: o in src ==> o >= s.next && o < |c.log| && c.log[o].parses
  {
  }

  lemma NotLive(c: Config, s: State, key: Key, x: nat)
    requires Inv(c, s) && s.phase.Working? && key in s.phase.keys && key !in s.schedule.keys && KeyAt(c, x) == key
    ensures !LiveItem(s, x)
  {
    hide Inv, Live;
    if LiveItem(s, x) {
      var y := LiveWitness(s, x);
      NoneLive(c, s, key, y);
      assert false;
    }
  }

  lemma ProcessedOrder(c: Config, s: State, s': State, key: Key, src: seq<nat>, handled: seq<Handling>, more: seq<Entry<nat>>)
    requires Inv(c, s) && Ordered(c, s) && ProcessedKey(c, s, s', key, src, handled, more)
    requires forall q: nat :: |s.hist| <= q < |s'.hist| ==> OrderedAt(c, s', q)
    ensures Ordered(c, s')
  {
    hide Inv, Ordered, OrderedAt, Gone, Batch;
    forall x: nat | Gone(c, s, x)
      ensures Gone(c, s', x)
    {
      ProcessedGone(c, s, s', key, src, handled, more, x);
    }
    forall p | 0 <= p < |handled|
      ensures !Gone(c, s, handled[p].origin)
    {
      NotBegun(c, s, key, src, handled[p].origin);
      NotGone(c, s, handled[p].origin);
    }
    ExtendOrder(c, s, s', handled);
  }

  lemma ExecuteOrder(c: Config, s: State, s': State, key: Key, src: seq<nat>, stages: seq<Stage>, out: Outcome,
                     done: seq<nat>, answers: seq<bool>, written: seq<Entry<nat>>)
    requires Inv(c, s) && Inv(c, s') && OnceInv(c, s) && OnceInv(c, s') && OrderInv(c, s)
    requires ExecuteStep(c, s, s', key, src, stages, out, done, answers, written)
    ensures OrderInv(c, s')
  {
    hide Inv, OnceInv, Executes, Writes, ProcessedKey, Batch, Ordered, FirstAt, OverAt, LiveApart, AcquiresKept, Req;
    var more := if out.stop < |stages| then Backlogged(c, s, Renamed(src, written)) else [];
    var handled := Handlings(src, done, answers, {});
    ExecuteProcesses(c, s, s', key, src, stages, out, done, answers, written);
    ProcessedApart(c, s, s', key, src, stages, Reached(out), written, more);
    forall q: nat | |s.hist| <= q < |s'.hist|
      ensures OrderedAt(c, s', q)
    {
      assert s'.hist[q] == handled[q - |s.hist|];
      forall x: nat | Req(c, x, s'.hist[q].origin)
        ensures ReqLog(c, x, s'.hist[q].origin) && FirstAt(c, s', q, x) && OverAt(c, s', q, x)
      {
        ReqIs(c, x, s'.hist[q].origin);
        ExecuteOrdered(c, s, s', key, src, stages, out, done, answers, more, q - |s.hist|, x);
      }
    }
    ProcessedOrder(c, s, s', key, src, handled, more);
  }

  lemma DivertOrder(c: Config, s: State, s': State, key: Key, src: seq<nat>, stages: seq<Stage>, written: seq<Entry<nat>>)
    requires Inv(c, s) && OnceInv(c, s) && OrderInv(c, s) && DivertStep(c, s, s', key, src, stages, written)
    ensures OrderInv(c, s')
  {
    hide Inv, OnceInv, Writes, ProcessedKey, Processes, Ordered, LiveApart, AcquiresKept;
    DivertProcesses(c, s, s', key, src, stages, written);
    ProcessedApart(c, s, s', key, src, stages, Untouched, written, Renamed(src, written));
    ProcessedOrder(c, s, s', key, src, [], Renamed(src, written));
  }

  /** Once an event of a batch was handled, no event required before it is still
      to be handled. */
  lemma ExecuteLeaves(c: Config, s: State, s': State, key: Key, src: seq<nat>, stages: seq<Stage>, out: Outcome,
                      done: seq<nat>, answers: seq<bool>, written: seq<Entry<nat>>, q: nat, x: nat)
    requires Inv(c, s) && OnceInv(c, s) && ExecuteStep(c, s, s', key, src, stages, out, done, answers, written)
    requires q < |done| && Req(c, x, src[done[q]])
    ensures Gone(c, s', x)
  {
    hide Inv, OnceInv, Executes, Writes, ProcessedKey, Batch, FirstAt, Gone, Req;
    var more := if out.stop < |stages| then Backlogged(c, s, Renamed(src, written)) else [];
    InvExecute(c, s, s', key, src, stages, out, done, answers, written);
    ExecuteOnce(c, s, s', key, src, stages, out, done, answers, written);
    ExecuteProcesses(c, s, s', key, src, stages, out, done, answers, written);
    ExecuteOrdered(c, s, s', key, src, stages, out, done, answers, more, q, x);
  }

  // --- Crashes that don't reread ---

  /** What the log requires before an event handled in a crash was handled ahead
      of it, if it was handled in the crash at all. */
  lemma CrashAhead(c: Config, s: State, partial: seq<Handling>, p: nat, q: nat)
    requires Inv(c, s) && LiveApart(c, s) && p < |partial| && q < |partial|
    requires InProgress(c, s, partial, p) && InProgress(c, s, partial, q) && Req(c, partial[p].origin, partial[q].origin)
    ensures Among(partial, q, partial[p].origin)
  {
    hide Valid, EntriesOk, LiveApart, Precedes, InAttempt, InBatch;
    if s.phase.Running? {
      var key: Key :| InAttempt(c, s, partial, q, key);
      var key': Key :| InAttempt(c, s, partial, p, key');
      AttemptAhead(c, s, partial, p, q, key', key);
    } else {
      var src: seq<nat> :| InBatch(c, s, partial, q, src);
      var src': seq<nat> :| InBatch(c, s, partial, p, src');
      BatchAhead(c, s, partial, p, q, src', src);
    }
  }

  lemma AttemptAhead(c: Config, s: State, partial: seq<Handling>, p: nat, q: nat, key': Key, key: Key)
    requires Inv(c, s) && LiveApart(c, s) && s.phase.Running? && p < |partial| && q < |partial|
    requires InAttempt(c, s, partial, p, key') && InAttempt(c, s, partial, q, key) && Req(c, partial[p].origin, partial[q].origin)
    ensures Among(partial, q, partial[p].origin)
  {
    hide Valid, EntriesOk, KeyedOk, LiveApart, Precedes;
    var queue := s.schedule.keys[key].records;
    var queue' := s.schedule.keys[key'].records;
    var i: nat :| Follows(Headers(key, Queue(s, queue)), Items(Queue(s, queue)), Good(c, Items(Queue(s, queue))), partial, q, i);
    var j: nat :| Follows(Headers(key', Queue(s, queue')), Items(Queue(s, queue')), Good(c, Items(Queue(s, queue'))), partial, p, j);
    QueueLive(c, s, key, i);
    QueueLive(c, s, key', j);
    assert key == key';
    QueuePrecedes(c, s, key, j, i);
  }

  lemma BatchAhead(c: Config, s: State, partial: seq<Handling>, p: nat, q: nat, src': seq<nat>, src: seq<nat>)
    requires p < |partial| && q < |partial|
    requires InBatch(c, s, partial, p, src') && InBatch(c, s, partial, q, src) && Req(c, partial[p].origin, partial[q].origin)
    ensures Among(partial, q, partial[p].origin)
  {
    hide Precedes;
    var i: nat :| Follows(Records(c, src), src, Good(c, src), partial, q, i);
    var j': nat :| Follows(Records(c, src'), src', Good(c, src'), partial, p, j');
    assert src'[j'] in src';
    var j :| 0 <= j < |src| && src[j] == partial[p].origin;
    ItemOrder(src, j, i);
    RequiredPrecedes(Records(c, src), j, i);
    assert j in Good(c, src);
  }

  /** What must stay before an event handled in a crash is never handled again. */
  lemma CrashOrdered(c: Config, s: State, s': State, partial: seq<Handling>, q: nat, x: nat)
    requires Inv(c, s) && OnceInv(c, s) && LiveApart(c, s) && StoredFirst(c, s) && c.mode.NoDoubleConsume?
    requires CrashStep(c, s, s', partial) && q < |partial| && Req(c, x, partial[q].origin)
    ensures FirstAt(c, s', |s.hist| + q, x) && OverAt(c, s', |s.hist| + q, x)
  {
    hide Inv, OnceInv, LiveApart, InProgress, Gone, FirstAt, OverAt;
    CrashGone(c, s, s', partial, q, x);
    if Among(partial, q, x) {
      var p :| 0 <= p < q && p < |partial| && partial[p].origin == x;
      NewBefore(s, s', partial, q, p);
      OverNew(c, s, s', partial, q, p);
      FirstIs(c, s', |s.hist| + q, x);
    } else {
      forall p: nat | p < |partial|
        ensures partial[p].origin != x
      {
        if partial[p].origin == x {
          CrashAhead(c, s, partial, p, q);
        }
      }
      OldOnly(c, s, s', partial, q, x);
    }
  }

  lemma FirstIs(c: Config, s: State, q: nat, x: nat)
    requires HandledBy(s, x, q)
    ensures FirstAt(c, s, q, x)
  {
  }

  /** After a crash in the middle of work nothing of before is pending. */
  lemma CrashGone(c: Config, s: State, s': State, partial: seq<Handling>, q: nat, x: nat)
    requires Inv(c, s) && OnceInv(c, s) && StoredFirst(c, s) && c.mode.NoDoubleConsume?
    requires CrashStep(c, s, s', partial) && q < |partial| && Req(c, x, partial[q].origin)
    ensures Gone(c, s', x)
  {
    hide Inv, OnceInv, InProgress, Live, LiveItem, Begun;
    InProgressOnce(c, s, s', partial, q);
    NoneItem(s', x);
    BegunBefore(c, s', x, partial[q].origin);
  }

  lemma BegunBefore(c: Config, s: State, x: nat, y: nat)
    requires s.phase.Draining? && Begun(c, s, y) && Req(c, x, y)
    ensures Begun(c, s, x)
  {
  }

  lemma CrashLive(c: Config, s: State, s': State, partial: seq<Handling>, x: nat)
    requires Inv(c, s) && StoredFirst(c, s) && c.mode.NoDoubleConsume? && CrashStep(c, s, s', partial)
    ensures Live(s', x) <==> s.read <= x < |s.retry|
    ensures Live(s', x) ==> Live(s, x) && x < |Full(s)| && x < |Full(s')| && Full(s')[x] == Full(s)[x]
  {
    hide Valid, EntriesOk, KeyedOk, InProgress;
  }

  lemma CrashFull(c: Config, s: State, s': State, partial: seq<Handling>)
    requires CrashStep(c, s, s', partial)
    ensures Full(s') == s.retry
  {
    hide InProgress;
  }

  lemma CrashOrder(c: Config, s: State, s': State, partial: seq<Handling>)
    requires Inv(c, s) && OnceInv(c, s) && OrderInv(c, s) && StoredFirst(c, s) && c.mode.NoDoubleConsume?
    requires CrashStep(c, s, s', partial)
    ensures OrderInv(c, s')
  {
    hide Inv, OnceInv, InProgress, Live, Full, LiveItem, Begun, FirstAt, OverAt, Req, Ordered;
    CrashFull(c, s, s', partial);
    forall x: nat
      ensures Live(s', x) <==> s.read <= x < |s.retry|
      ensures Live(s', x) ==> Live(s, x) && x < |Full(s)| && Full(s')[x] == Full(s)[x]
    {
      CrashLive(c, s, s', partial, x);
    }
    CrashApart(c, s, s');
    forall x: nat | Gone(c, s, x)
      ensures Gone(c, s', x)
    {
      BegunStored(c, s, s', x);
      if LiveItem(s', x) {
        var y := LiveWitness(s', x);
        LiveHas(s, y);
      }
    }
    forall p | 0 <= p < |partial|
      ensures !Gone(c, s, partial[p].origin)
    {
      InProgressOnce(c, s, s', partial, p);
    }
    forall q: nat | |s.hist| <= q < |s'.hist|
      ensures OrderedAt(c, s', q)
    {
      assert s'.hist[q] == partial[q - |s.hist|];
      forall x: nat | Req(c, x, s'.hist[q].origin)
        ensures ReqLog(c, x, s'.hist[q].origin) && FirstAt(c, s', q, x) && OverAt(c, s', q, x)
      {
        ReqIs(c, x, s'.hist[q].origin);
        CrashOrdered(c, s, s', partial, q - |s.hist|, x);
      }
    }
    ExtendOrder(c, s, s', partial);
  }

  /** Fences between records not read yet aren't read yet either. */
  lemma CrashApart(c: Config, s: State, s': State)
    requires LiveApart(c, s) && |Full(s')| == |s.retry|
    requires forall x: nat :: Live(s', x) <==> s.read <= x < |s.retry|
    requires forall x: nat :: Live(s', x) ==> Live(s, x) && x < |Full(s)| && Full(s')[x] == Full(s)[x]
    ensures LiveApart(c, s')
  {
    hide Live, Full, Req;
    forall a: nat, b: nat | Live(s', a) && Live(s', b) && a < |Full(s')| && b < |Full(s')| && Req(c, Full(s')[a].item, Full(s')[b].item)
      ensures Apart(c, s', a, b)
    {
      assert Apart(c, s, a, b);
      var key := KeyAt(c, Full(s)[b].item);
      if LiveFence(c, s, key, a, b) {
        var z: nat :| a < z <= b && Live(s, z) && KeyAt(c, Full(s)[z].item) == key && Full(s)[z].ordering.Acquires();
        assert Live(s', z);
      }
    }
  }

  // --- Over whole runs ---

  lemma OrderStep(c: Config, s: State, s': State, step: Step)
    requires Inv(c, s) && OnceInv(c, s) && OnceInv(c, s') && StoredFirst(c, s) && OrderInv(c, s)
    requires NextStep(c, s, s', step) && Once(c, s')
    ensures OrderInv(c, s')
  {
    hide Inv, OnceInv, OrderInv, AttemptStep, DivertStep, ExecuteStep, PollStep, ReadStep, SendStep, CommitStep, CrashStep, StoredFirst;
    assert Inv(c, s') by { InvStep(c, s, s', step); }
    match step
    case Attempt(t) => AttemptOrder(c, s, s', t);
    case Divert(key, src, stages, written) => DivertOrder(c, s, s', key, src, stages, written);
    case Execute(key, src, stages, out, done, answers, written) =>
      ExecuteOrder(c, s, s', key, src, stages, out, done, answers, written);
    case Crash(partial) =>
      CrashCrashes(c, s, s', partial);
      CrashOrder(c, s, s', partial);
    case _ =>
      QuietStep(c, s, s', step);
      QuietOrder(c, s, s');
  }

  lemma CrashCrashes(c: Config, s: State, s': State, partial: seq<Handling>)
    requires CrashStep(c, s, s', partial)
    ensures s'.crashed
  {
  }

  lemma {:induction false} OrderReached(c: Config, states: seq<State>, steps: seq<Step>, i: nat)
    requires Behaves(c, states, steps) && i < |states| && Once(c, states[i])
    ensures OrderInv(c, states[i])
  {
    hide Inv, OnceInv, OrderInv, NextStep, StoredFirst;
    if i > 0 {
      CrashedStays(c, states[i - 1], states[i], steps[i - 1]);
      OrderReached(c, states, steps, i - 1);
      InvReached(c, states, steps, i - 1);
      HandledAtMostOnce(c, states, steps, i - 1);
      HandledAtMostOnce(c, states, steps, i);
      OrderStep(c, states[i - 1], states[i], steps[i - 1]);
    } else {
      StartOrder(c, states[0]);
    }
  }

  lemma StartOrder(c: Config, s: State)
    requires Init(c, s)
    ensures OrderInv(c, s)
  {
  }

  // --- What is gone stays gone ---

  /** Nothing from handling `n` on is of `x`. */
  ghost predicate NotSince(hist: seq<Handling>, n: nat, x: nat) {
    n <= |hist| && forall p :: n <= p < |hist| ==> hist[p].origin != x
  }

  lemma NotAdded(hist: seq<Handling>, hist': seq<Handling>, more: seq<Handling>, n: nat, x: nat)
    requires NotSince(hist, n, x) && hist' == hist + more
    requires forall p :: 0 <= p < |more| ==> more[p].origin != x
    ensures NotSince(hist', n, x)
  {
  }

  lemma AttemptGoneStays(c: Config, s: State, s': State, t: Try, n: nat, x: nat)
    requires Inv(c, s) && OnceInv(c, s) && AttemptStep(c, s, s', t) && Gone(c, s, x) && NotSince(s.hist, n, x)
    ensures Gone(c, s', x) && NotSince(s'.hist, n, x)
  {
    hide Inv, OnceInv, Executes, OffsetsOf, Finishing, AttemptDrops, Handlings, Kept, LiveItem, Begun, NotSince;
    AttemptGone(c, s, s', t, x);
    OnceLive(c, s);
    forall p: nat | p < |t.done|
      ensures AttemptHist(c, s, t)[p].origin != x
    {
      AttemptHandles(c, s, s', t, p);
    }
    NotAdded(s.hist, s'.hist, AttemptHist(c, s, t), n, x);
  }

  lemma ProcessedGoneStays(c: Config, s: State, s': State, key: Key, src: seq<nat>, handled: seq<Handling>, more: seq<Entry<nat>>, n: nat, x: nat)
    requires Inv(c, s) && ProcessedKey(c, s, s', key, src, handled, more) && Gone(c, s, x) && NotSince(s.hist, n, x)
    ensures Gone(c, s', x) && NotSince(s'.hist, n, x)
  {
    hide Inv, LiveItem, Begun, Batch, NotSince;
    ProcessedGone(c, s, s', key, src, handled, more, x);
    forall p | 0 <= p < |handled|
      ensures handled[p].origin != x
    {
      NotBegun(c, s, key, src, handled[p].origin);
    }
    NotAdded(s.hist, s'.hist, handled, n, x);
  }

  lemma CrashGoneStays(c: Config, s: State, s': State, partial: seq<Handling>, n: nat, x: nat)
    requires Inv(c, s) && OnceInv(c, s) && StoredFirst(c, s) && c.mode.NoDoubleConsume? && CrashStep(c, s, s', partial)
    requires Gone(c, s, x) && NotSince(s.hist, n, x)
    ensures Gone(c, s', x) && NotSince(s'.hist, n, x)
  {
    hide Inv, OnceInv, InProgress, Live, Full, LiveItem, Begun, NotSince;
    BegunStored(c, s, s', x);
    if LiveItem(s', x) {
      var y := LiveWitness(s', x);
      CrashFull(c, s, s', partial);
      CrashLive(c, s, s', partial, y);
      LiveHas(s, y);
    }
    forall p | 0 <= p < |partial|
      ensures partial[p].origin != x
    {
      InProgressOnce(c, s, s', partial, p);
    }
    NotAdded(s.hist, s'.hist, partial, n, x);
  }

  lemma DivertGoneStays(c: Config, s: State, s': State, key: Key, src: seq<nat>, stages: seq<Stage>, written: seq<Entry<nat>>,
                        n: nat, x: nat)
    requires Inv(c, s) && DivertStep(c, s, s', key, src, stages, written)
    requires Gone(c, s, x) && NotSince(s.hist, n, x)
    ensures Gone(c, s', x) && NotSince(s'.hist, n, x)
  {
    hide Inv, Writes, ProcessedKey, Gone, NotSince;
    DivertProcesses(c, s, s', key, src, stages, written);
    ProcessedGoneStays(c, s, s', key, src, [], Renamed(src, written), n, x);
  }

  lemma ExecuteGoneStays(c: Config, s: State, s': State, key: Key, src: seq<nat>, stages: seq<Stage>, out: Outcome,
                         done: seq<nat>, answers: seq<bool>, written: seq<Entry<nat>>, n: nat, x: nat)
    requires Inv(c, s) && ExecuteStep(c, s, s', key, src, stages, out, done, answers, written)
    requires Gone(c, s, x) && NotSince(s.hist, n, x)
    ensures Gone(c, s', x) && NotSince(s'.hist, n, x)
  {
    hide Inv, Executes, Writes, ProcessedKey, Gone, NotSince;
    ExecuteProcesses(c, s, s', key, src, stages, out, done, answers, written);
    ProcessedGoneStays(c, s, s', key, src, Handlings(src, done, answers, {}),
                       if out.stop < |stages| then Backlogged(c, s, Renamed(src, written)) else [], n, x);
  }

  lemma GoneStep(c: Config, s: State, s': State, step: Step, n: nat, x: nat)
    requires Inv(c, s) && OnceInv(c, s) && StoredFirst(c, s) && NextStep(c, s, s', step) && Once(c, s')
    requires Gone(c, s, x) && NotSince(s.hist, n, x)
    ensures Gone(c, s', x) && NotSince(s'.hist, n, x)
  {
    hide Inv, OnceInv, AttemptStep, DivertStep, ExecuteStep, PollStep, ReadStep, SendStep, CommitStep, CrashStep, StoredFirst, Gone, NotSince;
    match step
    case Attempt(t) => AttemptGoneStays(c, s, s', t, n, x);
    case Divert(key, src, stages, written) => DivertGoneStays(c, s, s', key, src, stages, written, n, x);
    case Execute(key, src, stages, out, done, answers, written) =>
      ExecuteGoneStays(c, s, s', key, src, stages, out, done, answers, written, n, x);
    case Crash(partial) =>
      CrashCrashes(c, s, s', partial);
      CrashGoneStays(c, s, s', partial, n, x);
    case _ =>
      QuietStep(c, s, s', step);
      QuietGone(c, s, s', x);
  }

  /** While nothing is reread, an event that is gone is never handled again. */
  lemma {:induction false} GoneForever(c: Config, states: seq<State>, steps: seq<Step>, i: nat, j: nat, x: nat)
    requires Behaves(c, states, steps) && i <= j < |states| && Once(c, states[j]) && Gone(c, states[i], x)
    ensures Gone(c, states[j], x) && NotSince(states[j].hist, |states[i].hist|, x)
    decreases j
  {
    hide Inv, OnceInv, NextStep, StoredFirst, Gone;
    if i < j {
      CrashedStays(c, states[j - 1], states[j], steps[j - 1]);
      GoneForever(c, states, steps, i, j - 1, x);
      InvReached(c, states, steps, j - 1);
      HandledAtMostOnce(c, states, steps, j - 1);
      GoneStep(c, states[j - 1], states[j], steps[j - 1], |states[i].hist|, x);
    }
  }
}
