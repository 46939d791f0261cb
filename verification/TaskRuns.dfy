/** The planner, the executor and the encoder, put together as the consumer
    does, take exactly the steps of the state machine. */
module TaskRuns {
  import opened Wrappers
  import opened Events
  import opened Segmentation
  import opened PlanOrder
  import opened Planner
  import opened Commuting
  import Laws = Algebra
  import opened Work
  import opened Handler
  import opened Execute
  import opened Encode
  import opened Conservation
  import opened Execution
  import opened Replan
  import opened Retry
  import opened Task
  import PlanNew

  /** Handlers of events that aren't reduced, each event standing for its main record. */
  function Plain(c: Config, maxBatch: Tag -> nat): Handlers<nat, nat> {
    Handlers(
      tag => Some(Laws.Algebra(Laws.NonAssociative, (a: nat, b: nat) => a, (a: nat, b: nat) => true)),
      (tag: Tag, o: nat) => if o < |c.log| && c.log[o].decodes then Some(o) else None,
      (tag: Tag, o: nat) => Some(o),
      maxBatch)
  }

  // --- The same work, by record and by origin ---

  ghost predicate InBounds(p: seq<nat>, n: nat) {
    forall a :: 0 <= a < |p| ==> p[a] < n
  }

  lemma {:induction false} EncodedPlain(c: Config, maxBatch: Tag -> nat, tag: Tag, events: seq<nat>)
    ensures Encoded(Plain(c, maxBatch), tag, events) == events
  {
    if events != [] {
      var n := |events| - 1;
      EncodedPlain(c, maxBatch, tag, events[..n]);
      assert Plain(c, maxBatch).encode(tag, events[n]) == Some(events[n]);
      assert events == events[..n] + [events[n]];
    }
  }

  lemma {:induction false} DecodedInBounds(records: seq<nat>, good: set<nat>, n: nat)
    requires InBounds(records, n)
    ensures InBounds(Decoded(records, good), n)
  {
    if records != [] {
      DecodedInBounds(records[..|records| - 1], good, n);
    }
  }

  lemma {:induction false} DecodedPlain(c: Config, maxBatch: Tag -> nat, tag: Tag, src: seq<nat>, records: seq<nat>)
    requires InBounds(records, |src|)
    ensures InBounds(Decoded(records, Good(c, src)), |src|)
    ensures DecodedRun(Plain(c, maxBatch), tag, Pick(src, records)) == Pick(src, Decoded(records, Good(c, src)))
  {
    DecodedInBounds(records, Good(c, src), |src|);
    if records != [] {
      var n := |records| - 1;
      DecodedPlain(c, maxBatch, tag, src, records[..n]);
      assert Pick(src, records)[..n] == Pick(src, records[..n]);
    }
  }

  /** Every run of `items` is the run of `work`, by origin. */
  ghost predicate SameWork(src: seq<nat>, work: Work<nat>, items: Work<nat>) {
    && |items| == |work|
    && forall g :: 0 <= g < |work| ==>
         && |items[g]| == |work[g]|
         && forall b :: 0 <= b < |work[g]| ==> InBounds(work[g][b], |src|) && items[g][b] == Pick(src, work[g][b])
  }

  lemma WorkPlain(c: Config, maxBatch: Tag -> nat, src: seq<nat>, stages: seq<Stage>)
    requires StagesFit(stages, |src|)
    ensures SameWork(src, RecordWork(stages, Good(c, src)), KeyWork(Plain(c, maxBatch), stages, src))
  {
    hide DecodedRun, Decoded;
    var h := Plain(c, maxBatch);
    forall g, b | 0 <= g < |stages| && 0 <= b < |stages[g]|
      ensures InBounds(RecordWork(stages, Good(c, src))[g][b], |src|)
      ensures KeyWork(h, stages, src)[g][b] == Pick(src, RecordWork(stages, Good(c, src))[g][b])
    {
      DecodedPlain(c, maxBatch, stages[g][b].tag, src, stages[g][b].records);
    }
  }

  lemma SameOutcomes(src: seq<nat>, work: Work<nat>, items: Work<nat>, out: Outcome)
    requires SameWork(src, work, items)
    ensures OutcomeOk(items, out) <==> OutcomeOk(work, out)
  {
  }

  lemma SameLeft(src: seq<nat>, work: Work<nat>, items: Work<nat>, progress: Progress)
    requires SameWork(src, work, items)
    ensures SameWork(src, LeftWork(work, progress), LeftWork(items, progress))
  {
    forall g, b | 0 <= g < |work| && 0 <= b < |work[g]|
      ensures InBounds(Left(work, progress, g, b), |src|) && Left(items, progress, g, b) == Pick(src, Left(work, progress, g, b))
    {
      assert DoneCount(items, progress, g, b) == DoneCount(work, progress, g, b);
    }
  }

  lemma LeftPlain(c: Config, maxBatch: Tag -> nat, stages: seq<Stage>, items: Work<nat>, progress: Progress)
    requires SameShape(stages, items)
    ensures LeftPayloads(Plain(c, maxBatch), stages, items, progress) == LeftWork(items, progress)
  {
    hide Encoded, Left;
    var payloads, left := LeftPayloads(Plain(c, maxBatch), stages, items, progress), LeftWork(items, progress);
    forall g | 0 <= g < |stages|
      ensures payloads[g] == left[g]
    {
      forall b | 0 <= b < |stages[g]|
        ensures payloads[g][b] == left[g][b]
      {
        EncodedPlain(c, maxBatch, stages[g][b].tag, Left(items, progress, g, b));
      }
    }
  }

  ghost predicate ItemsInBounds(entries: seq<Entry<nat>>, n: nat) {
    forall p :: 0 <= p < |entries| ==> entries[p].item < n
  }

  lemma {:induction false} StageEntriesSame(src: seq<nat>, rank: nat, stage: Stage, work: seq<seq<nat>>, items: seq<seq<nat>>)
    requires |stage| == |work| == |items|
    requires forall b :: 0 <= b < |work| ==> InBounds(work[b], |src|) && items[b] == Pick(src, work[b])
    ensures ItemsInBounds(StageEntries(rank, stage, work), |src|)
    ensures StageEntries(rank, stage, items) == Renamed(src, StageEntries(rank, stage, work))
  {
    if stage != [] {
      var n := |stage| - 1;
      StageEntriesSame(src, rank, stage[..n], work[..n], items[..n]);
      var front, back := StageEntries(rank, stage[..n], work[..n]), RunEntries(rank, stage[n].tag, work[n]);
      RenamedConcat(src, front, back);
      assert RunEntries(rank, stage[n].tag, items[n]) == Renamed(src, back);
    }
  }

  lemma RenamedConcat(src: seq<nat>, xs: seq<Entry<nat>>, ys: seq<Entry<nat>>)
    requires ItemsInBounds(xs, |src|) && ItemsInBounds(ys, |src|)
    ensures ItemsInBounds(xs + ys, |src|) && Renamed(src, xs + ys) == Renamed(src, xs) + Renamed(src, ys)
  {
  }

  lemma {:induction false} EntriesSame(src: seq<nat>, stages: seq<Stage>, work: Work<nat>, items: Work<nat>, g: nat)
    requires SameWork(src, work, items) && SameShape(stages, work) && g <= |stages|
    ensures ItemsInBounds(KeyEntries(stages, work, g), |src|)
    ensures KeyEntries(stages, items, g) == Renamed(src, KeyEntries(stages, work, g))
  {
    hide StageEntries;
    if g > 0 {
      EntriesSame(src, stages, work, items, g - 1);
      StageEntriesSame(src, (g - 1) % 3, stages[g - 1], work[g - 1], items[g - 1]);
      RenamedConcat(src, KeyEntries(stages, work, g - 1), StageEntries((g - 1) % 3, stages[g - 1], work[g - 1]));
    }
  }

  /** What the encoder writes is what the machine writes. */
  lemma EncodePlain(c: Config, maxBatch: Tag -> nat, rs: seq<PlanRecord>, key: Key, src: seq<nat>, stages: seq<Stage>, progress: Progress)
    returns (written: seq<Entry<nat>>)
    requires KeyOk(rs, key, stages) && StagesFit(stages, |src|)
    requires ProgressOk(RecordWork(stages, Good(c, src)), progress)
    ensures Writes(rs, key, stages, Good(c, src), progress, written) && ItemsInBounds(written, |src|)
    ensures KeyEntries(stages, LeftPayloads(Plain(c, maxBatch), stages, KeyWork(Plain(c, maxBatch), stages, src), progress), |stages|)
            == Renamed(src, written)
  {
    hide KeyOk, OutcomeOk, KeyEntries, LeftPayloads, StagesFit;
    var work, items := RecordWork(stages, Good(c, src)), KeyWork(Plain(c, maxBatch), stages, src);
    WorkPlain(c, maxBatch, src, stages);
    SameLeft(src, work, items, progress);
    LeftPlain(c, maxBatch, stages, items, progress);
    EntriesSame(src, stages, LeftWork(work, progress), LeftWork(items, progress), |stages|);
    written := KeyEntries(stages, LeftWork(work, progress), |stages|);
  }

  // --- The order of what was handled ---

  /** What was handled of every run. */
  ghost function HandledWork(work: Work<nat>, out: Outcome): (handled: Work<nat>)
    ensures |handled| == |work| && forall g :: 0 <= g < |work| ==> |handled[g]| == |work[g]|
  {
    seq(|work|, g requires 0 <= g < |work| =>
      seq(|work[g]|, b requires 0 <= b < |work[g]| => Handled(work, Reached(out), g, b)))
  }

  lemma {:induction false} StageHandled(work: seq<seq<nat>>, fail: seq<Option<nat>>, handled: seq<seq<nat>>)
    requires FailFits(work, fail) && |handled| == |work|
    requires forall b :: 0 <= b < |work| ==> handled[b] == if fail[b].Some? then work[b][..fail[b].value] else work[b]
    ensures HandledIn(work, fail) == StageItems(handled)
  {
    if work != [] {
      StageHandled(work[..|work| - 1], fail[..|work| - 1], handled[..|work| - 1]);
    }
  }

  lemma {:induction false} NothingItems(handled: Work<nat>, g: nat)
    requires g <= |handled| && forall k, b :: g <= k < |handled| && 0 <= b < |handled[k]| ==> handled[k][b] == []
    ensures AllItems(handled) == AllItems(handled[..g])
    decreases |handled|
  {
    if g == |handled| {
      assert handled[..g] == handled;
    } else {
      var n := |handled| - 1;
      NothingItems(handled[..n], g);
      assert handled[..n][..g] == handled[..g];
      NoStageItems(handled[n]);
    }
  }

  lemma {:induction false} NoStageItems(stage: seq<seq<nat>>)
    requires forall b :: 0 <= b < |stage| ==> stage[b] == []
    ensures StageItems(stage) == []
  {
    if stage != [] {
      NoStageItems(stage[..|stage| - 1]);
    }
  }

  lemma HandledShape(work: Work<nat>, out: Outcome, g: nat, b: nat)
    requires OutcomeOk(work, out) && g < |work| && b < |work[g]|
    ensures HandledWork(work, out)[g][b] ==
            if g < out.stop then work[g][b]
            else if g > out.stop then []
            else if out.fail[b].Some? then work[g][b][..out.fail[b].value] else work[g][b]
  {
  }

  lemma {:induction false} BeforeHandledItems(work: Work<nat>, out: Outcome, g: nat)
    requires OutcomeOk(work, out) && g <= out.stop
    ensures HandledBefore(work, g) == AllItems(HandledWork(work, out)[..g])
  {
    hide OutcomeOk, HandledWork;
    if g > 0 {
      StopInRange(work, out);
      BeforeHandledItems(work, out, g - 1);
      var handled := HandledWork(work, out);
      var k := g - 1;
      assert handled[..g][..k] == handled[..k];
      forall b | 0 <= b < |work[k]|
        ensures handled[k][b] == work[k][b]
      {
        HandledShape(work, out, k, b);
      }
      StageHandled(work[k], NoFailure(|work[k]|), handled[k]);
    }
  }

  lemma StopInRange(work: Work<nat>, out: Outcome)
    requires OutcomeOk(work, out)
    ensures out.stop <= |work|
  {
  }

  /** The executor's log is what was handled of every run, stage by stage. */
  lemma HandledItems(work: Work<nat>, out: Outcome)
    requires OutcomeOk(work, out)
    ensures HandledAll(work, out) == AllItems(HandledWork(work, out))
  {
    hide HandledWork, AllItems, StageItems, HandledIn, HandledBefore;
    var handled := HandledWork(work, out);
    BeforeHandledItems(work, out, out.stop);
    if out.stop < |work| {
      var g := out.stop;
      forall b | 0 <= b < |work[g]|
        ensures handled[g][b] == if out.fail[b].Some? then work[g][b][..out.fail[b].value] else work[g][b]
      {
        HandledShape(work, out, g, b);
      }
      StageHandled(work[g], out.fail, handled[g]);
      forall k, b | g + 1 <= k < |handled| && 0 <= b < |handled[k]|
        ensures handled[k][b] == []
      {
        HandledShape(work, out, k, b);
      }
      NothingItems(handled, g + 1);
      AllSnoc(handled, g);
    } else {
      assert handled[..out.stop] == handled;
    }
  }

  /** The executor's log is an order the plan allows. */
  lemma HandledExecutes(rs: seq<PlanRecord>, key: Key, stages: seq<Stage>, good: set<nat>, out: Outcome)
    requires KeyOk(rs, key, stages) && OutcomeOk(RecordWork(stages, good), out)
    ensures Executes(rs, key, stages, good, out, HandledAll(RecordWork(stages, good), out))
  {
    hide KeyOk, OutcomeOk, Precedes, RecordWork, HandledAll, KeyEntries, Locs, AllItems, HandledWork;
    var work := RecordWork(stages, good);
    var items := HandledWork(work, out);
    var done := HandledAll(work, out);
    HandledItems(work, out);
    AllLocated(stages, items, |stages|);
    var locs, entries := Locs(items, |stages|), KeyEntries(stages, items, |stages|);
    KeyEntriesItems(stages, items, |stages|);
    assert items[..|stages|] == items;
    assert |done| == |locs| && forall p :: 0 <= p < |done| ==> done[p] == entries[p].item;
    forall p: nat | p < |done|
      ensures HandledPlaced(work, out, locs, done, p)
    {
      PlacedAt(work, out, stages, entries, locs, done, p);
    }
    forall i: nat
      ensures i in done <==> HandledAt(work, Reached(out), i)
    {
      HandledIff(work, out, stages, entries, locs, done, i);
    }
    forall p: nat, q: nat | p < q < |done|
      ensures done[p] != done[q] && !Precedes(rs, done[q], done[p])
    {
      HandledOrder(rs, key, stages, good, out, locs, done, p, q);
    }
  }

  /** Where the `p`-th handled record is. */
  ghost predicate HandledPlaced(work: Work<nat>, out: Outcome, locs: seq<Loc>, done: seq<nat>, p: nat) {
    && p < |locs| == |done|
    && var l := locs[p];
    && l.stage < |work| && l.run < |work[l.stage]| && l.place < DoneCount(work, Reached(out), l.stage, l.run)
    && done[p] == work[l.stage][l.run][l.place]
  }

  lemma PlacedAt(work: Work<nat>, out: Outcome, stages: seq<Stage>, entries: seq<Entry<nat>>, locs: seq<Loc>, done: seq<nat>, p: nat)
    requires SameShape(stages, work) && Located(stages, HandledWork(work, out), entries, locs, 0, |stages|)
    requires |done| == |locs| && p < |done| && done[p] == entries[p].item
    ensures HandledPlaced(work, out, locs, done, p)
  {
    var l := locs[p];
    assert Fits(HandledWork(work, out), l) && entries[p] == EntryAt(stages, HandledWork(work, out), l);
    assert HandledWork(work, out)[l.stage][l.run] == Handled(work, Reached(out), l.stage, l.run);
  }

  lemma HandledIff(work: Work<nat>, out: Outcome, stages: seq<Stage>, entries: seq<Entry<nat>>, locs: seq<Loc>, done: seq<nat>, i: nat)
    requires SameShape(stages, work) && Located(stages, HandledWork(work, out), entries, locs, 0, |stages|)
    requires |done| == |locs| && forall p: nat :: p < |done| ==> HandledPlaced(work, out, locs, done, p)
    ensures i in done <==> HandledAt(work, Reached(out), i)
  {
    if i in done {
      var p :| 0 <= p < |done| && done[p] == i;
      assert HandledPlaced(work, out, locs, done, p);
      var l := locs[p];
      assert Handled(work, Reached(out), l.stage, l.run)[l.place] == i;
      assert Execution.HandledItem(work, Reached(out), l.stage, l.run, i);
    }
    if HandledAt(work, Reached(out), i) {
      var g: nat, b: nat :| Execution.HandledItem(work, Reached(out), g, b, i);
      var run := Handled(work, Reached(out), g, b);
      var j :| 0 <= j < |run| && run[j] == i;
      assert HandledWork(work, out)[g][b] == run;
      assert Fits(HandledWork(work, out), Loc(g, b, j));
      var p :| 0 <= p < |locs| && locs[p] == Loc(g, b, j);
      assert HandledPlaced(work, out, locs, done, p);
    }
  }

  lemma HandledOrder(rs: seq<PlanRecord>, key: Key, stages: seq<Stage>, good: set<nat>, out: Outcome, locs: seq<Loc>, done: seq<nat>, p: nat, q: nat)
    requires KeyOk(rs, key, stages) && SortedLocs(locs) && p < q
    requires HandledPlaced(RecordWork(stages, good), out, locs, done, p) && HandledPlaced(RecordWork(stages, good), out, locs, done, q)
    ensures done[p] != done[q] && !Precedes(rs, done[q], done[p])
  {
    hide Decoded, SegmentsOk, Complete, RunOk, Precedes;
    var l, m := locs[p], locs[q];
    WorkIs(rs, key, stages, good, l.stage, l.run);
    WorkIs(rs, key, stages, good, m.stage, m.run);
    assert l.Before(m);
    assert done[p] in RecordWork(stages, good)[l.stage][l.run] && done[q] in RecordWork(stages, good)[m.stage][m.run];
    PrecedesAt(rs, key, stages, m.stage, m.run, done[q], l.stage, l.run, done[p]);
    if done[p] == done[q] {
      PlannedOnce(rs, key, stages, l.stage, l.run, m.stage, m.run, done[p]);
    }
  }

  lemma {:induction false} PickStage(src: seq<nat>, work: seq<seq<nat>>, items: seq<seq<nat>>)
    requires |items| == |work| && forall b :: 0 <= b < |work| ==> InBounds(work[b], |src|) && items[b] == Pick(src, work[b])
    ensures InBounds(StageItems(work), |src|) && StageItems(items) == Pick(src, StageItems(work))
  {
    if work != [] {
      PickStage(src, work[..|work| - 1], items[..|work| - 1]);
    }
  }

  lemma {:induction false} PickAll(src: seq<nat>, work: Work<nat>, items: Work<nat>)
    requires SameWork(src, work, items)
    ensures InBounds(AllItems(work), |src|) && AllItems(items) == Pick(src, AllItems(work))
  {
    hide StageItems;
    if work != [] {
      var n := |work| - 1;
      assert SameWork(src, work[..n], items[..n]);
      PickAll(src, work[..n], items[..n]);
      PickStage(src, work[n], items[n]);
    }
  }

  /** The executor handles the origins of what the machine handles. */
  lemma HandledPlain(src: seq<nat>, work: Work<nat>, items: Work<nat>, out: Outcome)
    requires SameWork(src, work, items) && OutcomeOk(work, out) && OutcomeOk(items, out)
    ensures InBounds(HandledAll(work, out), |src|)
    ensures HandledAll(items, out) == Pick(src, HandledAll(work, out))
  {
    hide OutcomeOk, HandledAll, AllItems;
    HandledItems(work, out);
    HandledItems(items, out);
    forall g, b | 0 <= g < |work| && 0 <= b < |work[g]|
      ensures InBounds(HandledWork(work, out)[g][b], |src|)
      ensures HandledWork(items, out)[g][b] == Pick(src, HandledWork(work, out)[g][b])
    {
      assert DoneCount(items, Reached(out), g, b) == DoneCount(work, Reached(out), g, b);
    }
    PickAll(src, HandledWork(work, out), HandledWork(items, out));
  }
}
