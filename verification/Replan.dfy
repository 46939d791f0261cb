/** Planning the retry records of a key again keeps the order its log required. */
module Replan {
  import opened Wrappers
  import opened Events
  import opened Segmentation
  import opened PlanOrder
  import opened Planner
  import opened Work
  import opened Encode
  import opened Execution

  /** Where an entry comes from: its stage, run, and place among what is left of the run. */
  datatype Loc = Loc(stage: nat, run: nat, place: nat)
  {
    predicate Before(o: Loc) {
      stage < o.stage || (stage == o.stage && (run < o.run || (run == o.run && place < o.place)))
    }
  }

  ghost function RunLocs(g: nat, b: nat, n: nat): (locs: seq<Loc>)
    ensures |locs| == n && forall j :: 0 <= j < n ==> locs[j] == Loc(g, b, j)
  {
    seq(n, j requires 0 <= j < n => Loc(g, b, j))
  }

  ghost function StageLocs(g: nat, items: seq<seq<nat>>): seq<Loc> {
    if items == [] then []
    else
      var n := |items| - 1;
      StageLocs(g, items[..n]) + RunLocs(g, n, |items[n]|)
  }

  ghost function Locs(items: Work<nat>, g: nat): seq<Loc>
    requires g <= |items|
  {
    if g == 0 then [] else Locs(items, g - 1) + StageLocs(g - 1, items[g - 1])
  }

  ghost predicate SortedLocs(locs: seq<Loc>) {
    forall p, q :: 0 <= p < q < |locs| ==> locs[p].Before(locs[q])
  }

  ghost predicate Fits(items: Work<nat>, l: Loc) {
    l.stage < |items| && l.run < |items[l.stage]| && l.place < |items[l.stage][l.run]|
  }

  /** The entry written for an item. */
  ghost function EntryAt(stages: seq<Stage>, items: Work<nat>, l: Loc): Entry<nat>
    requires Fits(items, l) && l.stage < |stages| && l.run < |stages[l.stage]|
  {
    var run := items[l.stage][l.run];
    Entry(run[l.place], stages[l.stage][l.run].tag, StageOrdering(l.stage % 3, |run|, l.place))
  }

  ghost predicate SameShape(stages: seq<Stage>, items: Work<nat>) {
    |items| == |stages| && forall k :: 0 <= k < |stages| ==> |items[k]| == |stages[k]|
  }

  /** `locs` says where the entries come from: every item left of the stages
      from `lo` to `hi` is written once, in plan order. */
  ghost predicate Located(stages: seq<Stage>, items: Work<nat>, entries: seq<Entry<nat>>, locs: seq<Loc>, lo: nat, hi: nat)
    requires SameShape(stages, items)
  {
    && |locs| == |entries|
    && SortedLocs(locs)
    && (forall p :: 0 <= p < |locs| ==>
          lo <= locs[p].stage < hi && Fits(items, locs[p]) && entries[p] == EntryAt(stages, items, locs[p]))
    && forall l: Loc :: lo <= l.stage < hi && Fits(items, l) ==> l in locs
  }

  lemma LocatedConcat(stages: seq<Stage>, items: Work<nat>, xs: seq<Entry<nat>>, xl: seq<Loc>,
                      ys: seq<Entry<nat>>, yl: seq<Loc>, lo: nat, mid: nat, hi: nat)
    requires SameShape(stages, items) && lo <= mid <= hi
    requires Located(stages, items, xs, xl, lo, mid) && Located(stages, items, ys, yl, mid, hi)
    ensures Located(stages, items, xs + ys, xl + yl, lo, hi)
  {
    hide EntryAt, Fits;
  }

  /** `locs` says where the entries of the first `n` runs of a stage come from. */
  ghost predicate RunsLocated(stages: seq<Stage>, items: Work<nat>, g: nat, n: nat, entries: seq<Entry<nat>>, locs: seq<Loc>)
    requires SameShape(stages, items) && g < |stages| && n <= |stages[g]|
  {
    && |locs| == |entries|
    && SortedLocs(locs)
    && (forall p :: 0 <= p < |locs| ==>
          locs[p].stage == g && locs[p].run < n && Fits(items, locs[p]) && entries[p] == EntryAt(stages, items, locs[p]))
    && forall b: nat, j: nat :: b < n && j < |items[g][b]| ==> Loc(g, b, j) in locs
  }

  lemma RunLocated(stages: seq<Stage>, items: Work<nat>, g: nat, n: nat, entries: seq<Entry<nat>>, locs: seq<Loc>)
    requires SameShape(stages, items) && g < |stages| && n < |stages[g]|
    requires RunsLocated(stages, items, g, n, entries, locs)
    ensures RunsLocated(stages, items, g, n + 1, entries + RunEntries(g % 3, stages[g][n].tag, items[g][n]),
                        locs + RunLocs(g, n, |items[g][n]|))
  {
    var back := RunLocs(g, n, |items[g][n]|);
    forall b: nat, j: nat | b < n + 1 && j < |items[g][b]|
      ensures Loc(g, b, j) in locs + back
    {
      if b == n {
        assert back[j] == Loc(g, b, j);
      }
    }
  }

  lemma {:induction false} StageLocated(stages: seq<Stage>, items: Work<nat>, g: nat, n: nat)
    requires SameShape(stages, items) && g < |stages| && n <= |stages[g]|
    ensures RunsLocated(stages, items, g, n, StageEntries(g % 3, stages[g][..n], items[g][..n]), StageLocs(g, items[g][..n]))
  {
    hide RunsLocated, RunEntries;
    if n > 0 {
      StageLocated(stages, items, g, n - 1);
      assert stages[g][..n][..n - 1] == stages[g][..n - 1] && items[g][..n][..n - 1] == items[g][..n - 1];
      RunLocated(stages, items, g, n - 1, StageEntries(g % 3, stages[g][..n - 1], items[g][..n - 1]), StageLocs(g, items[g][..n - 1]));
    } else {
      NoRuns(stages, items, g);
    }
  }

  lemma NoRuns(stages: seq<Stage>, items: Work<nat>, g: nat)
    requires SameShape(stages, items) && g < |stages|
    ensures RunsLocated(stages, items, g, 0, StageEntries(g % 3, stages[g][..0], items[g][..0]), StageLocs(g, items[g][..0]))
  {
  }

  lemma {:induction false} AllLocated(stages: seq<Stage>, items: Work<nat>, g: nat)
    requires SameShape(stages, items) && g <= |stages|
    ensures Located(stages, items, KeyEntries(stages, items, g), Locs(items, g), 0, g)
  {
    hide StageEntries, StageLocs, EntryAt;
    if g > 0 {
      AllLocated(stages, items, g - 1);
      StageLocated(stages, items, g - 1, |stages[g - 1]|);
      assert stages[g - 1][..|stages[g - 1]|] == stages[g - 1] && items[g - 1][..|stages[g - 1]|] == items[g - 1];
      var locs := StageLocs(g - 1, items[g - 1]);
      forall l: Loc | l.stage == g - 1 && Fits(items, l)
        ensures l in locs
      {
        assert l == Loc(g - 1, l.run, l.place);
      }
      LocatedConcat(stages, items, KeyEntries(stages, items, g - 1), Locs(items, g - 1),
                    StageEntries((g - 1) % 3, stages[g - 1], items[g - 1]), locs, 0, g - 1, g);
    }
  }

  /** An acquiring entry after `p` and up to `q`. */
  ghost predicate FencedBetween(entries: seq<Entry<nat>>, p: int, q: int) {
    exists z :: p < z <= q && 0 <= z < |entries| && entries[z].ordering.Acquires()
  }

  /** Any plan keeps entry `p` before entry `q`. */
  ghost predicate KeptApart(entries: seq<Entry<nat>>, p: nat, q: nat) {
    && p < q < |entries|
    && (|| entries[p].tag == entries[q].tag
        || entries[p].ordering.Acquires()
        || entries[q].ordering.Releases()
        || FencedBetween(entries, p, q))
  }

  /** `entries` is what an execution that got to `progress` writes. */
  ghost predicate Writes(rs: seq<PlanRecord>, key: Key, stages: seq<Stage>, good: set<nat>, progress: Progress, entries: seq<Entry<nat>>) {
    && KeyOk(rs, key, stages)
    && ProgressOk(RecordWork(stages, good), progress)
    && entries == KeyEntries(stages, LeftWork(RecordWork(stages, good), progress), |stages|)
  }

  /** What is known of where entry `p` comes from. */
  ghost predicate From(rs: seq<PlanRecord>, key: Key, stages: seq<Stage>, good: set<nat>, progress: Progress,
                       entries: seq<Entry<nat>>, locs: seq<Loc>, p: nat) {
    && |locs| == |entries| && p < |entries|
    && var l, left := locs[p], LeftWork(RecordWork(stages, good), progress);
    && Fits(left, l)
    && l.stage < |stages| && l.run < |stages[l.stage]|
    && entries[p] == EntryAt(stages, left, l)
    && Increasing(left[l.stage][l.run])
    && (forall j :: 0 <= j < |left[l.stage][l.run]| ==>
          && At(stages, l.stage, l.run, left[l.stage][l.run][j])
          && left[l.stage][l.run][j] in good)
  }

  lemma SuffixIs(s: seq<nat>, n: nat)
    requires Increasing(s) && n <= |s|
    ensures Increasing(s[n..])
    ensures forall i: nat :: i in s[n..] <==> i in s && i !in s[..n]
  {
    forall i: nat
      ensures i in s[n..] <==> i in s && i !in s[..n]
    {
      assert s == s[..n] + s[n..];
    }
  }

  lemma LeftIs(rs: seq<PlanRecord>, key: Key, stages: seq<Stage>, good: set<nat>, progress: Progress, g: nat, b: nat)
    requires RunsOk(rs, key, stages) && g < |stages| && b < |stages[g]|
    ensures
      var left := LeftWork(RecordWork(stages, good), progress)[g][b];
      && Increasing(left)
      && forall i: nat :: i in left <==> At(stages, g, b, i) && i in good && !HandledItem(RecordWork(stages, good), progress, g, b, i)
  {
    hide Decoded, RunOk;
    var work := RecordWork(stages, good);
    WorkIs(rs, key, stages, good, g, b);
    SuffixIs(work[g][b], DoneCount(work, progress, g, b));
  }

  /** Where every entry comes from. */
  lemma Origins(rs: seq<PlanRecord>, key: Key, stages: seq<Stage>, good: set<nat>, progress: Progress, entries: seq<Entry<nat>>)
    returns (locs: seq<Loc>)
    requires Writes(rs, key, stages, good, progress, entries)
    ensures |locs| == |entries| && SortedLocs(locs)
    ensures forall p: nat :: p < |entries| ==> From(rs, key, stages, good, progress, entries, locs, p)
    ensures forall l: Loc :: Fits(LeftWork(RecordWork(stages, good), progress), l) ==> l in locs
  {
    hide Decoded, RunOk, SegmentsOk, KeyEntries, Locs, Complete, EntryAt, Left;
    var left := LeftWork(RecordWork(stages, good), progress);
    locs := Locs(left, |stages|);
    AllLocated(stages, left, |stages|);
    forall p: nat | p < |entries|
      ensures From(rs, key, stages, good, progress, entries, locs, p)
    {
      LeftIs(rs, key, stages, good, progress, locs[p].stage, locs[p].run);
    }
  }

  lemma FromIs(rs: seq<PlanRecord>, key: Key, stages: seq<Stage>, good: set<nat>, progress: Progress,
               entries: seq<Entry<nat>>, locs: seq<Loc>, p: nat)
    requires KeyOk(rs, key, stages) && From(rs, key, stages, good, progress, entries, locs, p)
    ensures At(stages, locs[p].stage, locs[p].run, entries[p].item)
    ensures entries[p].item < |rs| && entries[p].item in good && rs[entries[p].item].key == key
    ensures entries[p].tag == rs[entries[p].item].tag
    ensures RankAt(rs, entries[p].item).Index() == locs[p].stage % 3
  {
    hide RunOk, SegmentsOk, Complete, LeftWork, RecordWork, RankAt;
    AtIs(rs, key, stages, locs[p].stage, locs[p].run, entries[p].item);
  }

  /** An acquiring record heads its segment. */
  lemma AcquiringHead(rs: seq<PlanRecord>, i: nat, j: nat)
    requires i < |rs| && j < |rs| && rs[i].ordering.Acquires()
    ensures RankAt(rs, i) == Head
    ensures j < i ==> SegmentAt(rs, j) != SegmentAt(rs, i)
  {
    hide Assign;
    AssignInv(rs);
  }

  /** A releasing record ends its segment, or is in its head run. */
  lemma ReleasingTail(rs: seq<PlanRecord>, i: nat, j: nat)
    requires i < |rs| && j < |rs| && rs[i].ordering.Release?
    ensures RankAt(rs, i) != Body
    ensures j > i ==> SegmentAt(rs, j) != SegmentAt(rs, i)
  {
    hide Assign;
    AssignInv(rs);
  }

  lemma SameSegment(rs: seq<PlanRecord>, key: Key, stages: seq<Stage>, g: nat, b: nat, i: nat, j: nat)
    requires KeyOk(rs, key, stages) && At(stages, g, b, i) && At(stages, g, b, j)
    ensures i < |rs| && j < |rs| && SegmentAt(rs, i) == SegmentAt(rs, j)
  {
    hide Assign, SegmentAt, RankAt, Complete;
    AtIs(rs, key, stages, g, b, i);
    AtIs(rs, key, stages, g, b, j);
  }

  /** A record that acquired is written first of its head run, and acquires. */
  lemma AcquireWritten(rs: seq<PlanRecord>, key: Key, stages: seq<Stage>, good: set<nat>, progress: Progress,
                       entries: seq<Entry<nat>>, locs: seq<Loc>, p: nat)
    requires KeyOk(rs, key, stages) && From(rs, key, stages, good, progress, entries, locs, p)
    requires entries[p].item < |rs| && rs[entries[p].item].ordering.Acquires()
    ensures entries[p].ordering == Acquire
  {
    hide KeyOk, RankAt, SegmentAt, At;
    FromIs(rs, key, stages, good, progress, entries, locs, p);
    var l := locs[p];
    var run := LeftWork(RecordWork(stages, good), progress)[l.stage][l.run];
    AcquiringHead(rs, run[l.place], run[l.place]);
    if l.place > 0 {
      SameSegment(rs, key, stages, l.stage, l.run, run[0], run[l.place]);
      AcquiringHead(rs, run[l.place], run[0]);
    }
  }

  /** A record that released releases when it is written, or an acquiring
      entry of its own stage is written up to it. */
  lemma ReleaseWritten(rs: seq<PlanRecord>, key: Key, stages: seq<Stage>, good: set<nat>, progress: Progress,
                       entries: seq<Entry<nat>>, locs: seq<Loc>, p: nat)
    returns (z: nat)
    requires Writes(rs, key, stages, good, progress, entries) && |locs| == |entries| && SortedLocs(locs)
    requires forall p: nat :: p < |entries| ==> From(rs, key, stages, good, progress, entries, locs, p)
    requires forall l: Loc :: Fits(LeftWork(RecordWork(stages, good), progress), l) ==> l in locs
    requires p < |entries| && entries[p].item < |rs| && rs[entries[p].item].ordering.Releases()
    ensures z <= p && locs[z].stage == locs[p].stage
    ensures entries[p].ordering.Releases() || entries[z].ordering.Acquires()
  {
    hide KeyOk, RankAt, SegmentAt, At, KeyEntries, OutcomeOk;
    z := p;
    var l := locs[p];
    assert From(rs, key, stages, good, progress, entries, locs, p);
    var run := LeftWork(RecordWork(stages, good), progress)[l.stage][l.run];
    FromIs(rs, key, stages, good, progress, entries, locs, p);
    if rs[entries[p].item].ordering.AcqRel? {
      AcquireWritten(rs, key, stages, good, progress, entries, locs, p);
    } else {
      ReleasingTail(rs, run[l.place], run[l.place]);
      if RankAt(rs, run[l.place]) == Tail {
        if l.place + 1 < |run| {
          SameSegment(rs, key, stages, l.stage, l.run, run[l.place], run[l.place + 1]);
          ReleasingTail(rs, run[l.place], run[l.place + 1]);
        }
      } else {
        var first := Loc(l.stage, l.run, 0);
        assert first in locs;
        z :| 0 <= z < |locs| && locs[z] == first;
        assert From(rs, key, stages, good, progress, entries, locs, z);
      }
    }
  }

  /** A required order is kept among the entries of one encoding. */
  lemma RequiredWritten(rs: seq<PlanRecord>, key: Key, stages: seq<Stage>, good: set<nat>, progress: Progress,
                        entries: seq<Entry<nat>>, locs: seq<Loc>, p: nat, q: nat)
    requires Writes(rs, key, stages, good, progress, entries) && |locs| == |entries| && SortedLocs(locs)
    requires forall p: nat :: p < |entries| ==> From(rs, key, stages, good, progress, entries, locs, p)
    requires forall l: Loc :: Fits(LeftWork(RecordWork(stages, good), progress), l) ==> l in locs
    requires p < |entries| && q < |entries| && entries[p].item < entries[q].item < |rs|
    requires Required(rs[entries[p].item], rs[entries[q].item])
    ensures KeptApart(entries, p, q)
  {
    hide KeyOk, RankAt, SegmentAt, At, KeyEntries, OutcomeOk, Precedes;
    var i, j := entries[p].item, entries[q].item;
    assert From(rs, key, stages, good, progress, entries, locs, p) && From(rs, key, stages, good, progress, entries, locs, q);
    FromIs(rs, key, stages, good, progress, entries, locs, p);
    FromIs(rs, key, stages, good, progress, entries, locs, q);
    RequiredPrecedes(rs, i, j);
    PrecedesAt(rs, key, stages, locs[p].stage, locs[p].run, i, locs[q].stage, locs[q].run, j);
    assert locs[p].Before(locs[q]);
    assert p < q;
    if rs[i].tag != rs[j].tag {
      if rs[i].ordering.Acquires() {
        AcquireWritten(rs, key, stages, good, progress, entries, locs, p);
      } else {
        var z := ReleaseWritten(rs, key, stages, good, progress, entries, locs, q);
        assert locs[p].stage < locs[z].stage;
      }
    }
  }

  /** What the encoding of a key keeps of its records. */
  ghost predicate EncodingOk(rs: seq<PlanRecord>, key: Key, good: set<nat>, work: Work<nat>, progress: Progress, entries: seq<Entry<nat>>) {
    && (forall p :: 0 <= p < |entries| ==>
          && entries[p].item < |rs| && entries[p].item in good
          && rs[entries[p].item].key == key && rs[entries[p].item].tag == entries[p].tag
          && !HandledAt(work, progress, entries[p].item)
          && (rs[entries[p].item].ordering.Acquires() ==> entries[p].ordering.Acquires())
          && (rs[entries[p].item].ordering.Releases() ==> entries[p].ordering.Releases() || FencedBetween(entries, -1, p)))
    && (forall p, q :: 0 <= p < q < |entries| ==> entries[p].item != entries[q].item)
    && (forall p: nat, q: nat ::
          p < |entries| && q < |entries| && entries[p].item < entries[q].item && Required(rs[entries[p].item], rs[entries[q].item])
          ==> KeptApart(entries, p, q))
    && (forall i: nat :: i < |rs| && rs[i].key == key && i in good && !HandledAt(work, progress, i) ==>
          exists p :: 0 <= p < |entries| && entries[p].item == i)
  }

  lemma WrittenIs(rs: seq<PlanRecord>, key: Key, stages: seq<Stage>, good: set<nat>, progress: Progress,
                  entries: seq<Entry<nat>>, locs: seq<Loc>, p: nat)
    requires Writes(rs, key, stages, good, progress, entries) && |locs| == |entries| && SortedLocs(locs)
    requires forall p: nat :: p < |entries| ==> From(rs, key, stages, good, progress, entries, locs, p)
    requires forall l: Loc :: Fits(LeftWork(RecordWork(stages, good), progress), l) ==> l in locs
    requires p < |entries|
    ensures entries[p].item < |rs| && entries[p].item in good
    ensures rs[entries[p].item].key == key && rs[entries[p].item].tag == entries[p].tag
    ensures !HandledAt(RecordWork(stages, good), progress, entries[p].item)
    ensures rs[entries[p].item].ordering.Acquires() ==> entries[p].ordering.Acquires()
    ensures rs[entries[p].item].ordering.Releases() ==> entries[p].ordering.Releases() || FencedBetween(entries, -1, p)
  {
    hide KeyOk, RankAt, SegmentAt, KeyEntries, OutcomeOk, Precedes, Decoded;
    assert From(rs, key, stages, good, progress, entries, locs, p);
    var i, l := entries[p].item, locs[p];
    FromIs(rs, key, stages, good, progress, entries, locs, p);
    if rs[i].ordering.Acquires() {
      AcquireWritten(rs, key, stages, good, progress, entries, locs, p);
    }
    if rs[i].ordering.Releases() {
      var z := ReleaseWritten(rs, key, stages, good, progress, entries, locs, p);
    }
    NotHandled(rs, key, stages, good, progress, l.stage, l.run, i);
  }

  lemma NotHandled(rs: seq<PlanRecord>, key: Key, stages: seq<Stage>, good: set<nat>, progress: Progress, g: nat, b: nat, i: nat)
    requires KeyOk(rs, key, stages) && At(stages, g, b, i) && i in good
    ensures i in LeftWork(RecordWork(stages, good), progress)[g][b] <==> !HandledAt(RecordWork(stages, good), progress, i)
  {
    hide RankAt, SegmentAt, SegmentsOk, Complete, Decoded, RunOk;
    var work := RecordWork(stages, good);
    LeftIs(rs, key, stages, good, progress, g, b);
    if HandledAt(work, progress, i) {
      var g': nat, b': nat :| HandledItem(work, progress, g', b', i);
      WorkIs(rs, key, stages, good, g', b');
      assert i in work[g'][b'];
      PlannedOnce(rs, key, stages, g, b, g', b', i);
    }
  }

  lemma WrittenOnce(rs: seq<PlanRecord>, key: Key, stages: seq<Stage>, good: set<nat>, progress: Progress,
                    entries: seq<Entry<nat>>, locs: seq<Loc>, p: nat, q: nat)
    requires KeyOk(rs, key, stages) && |locs| == |entries| && SortedLocs(locs) && p < q < |entries|
    requires From(rs, key, stages, good, progress, entries, locs, p) && From(rs, key, stages, good, progress, entries, locs, q)
    ensures entries[p].item != entries[q].item
  {
    hide KeyOk, At;
    FromIs(rs, key, stages, good, progress, entries, locs, p);
    FromIs(rs, key, stages, good, progress, entries, locs, q);
    if entries[p].item == entries[q].item {
      PlannedOnce(rs, key, stages, locs[p].stage, locs[p].run, locs[q].stage, locs[q].run, entries[p].item);
    }
  }

  /** Every unhandled record of the key is written once, with its fences. */
  lemma EncodingKeeps(rs: seq<PlanRecord>, key: Key, stages: seq<Stage>, good: set<nat>, progress: Progress, entries: seq<Entry<nat>>)
    requires Writes(rs, key, stages, good, progress, entries)
    ensures EncodingOk(rs, key, good, RecordWork(stages, good), progress, entries)
  {
    hide KeyOk, At, KeyEntries, OutcomeOk, From, HandledAt, KeptApart, FencedBetween, LeftWork, RecordWork;
    var locs := Origins(rs, key, stages, good, progress, entries);
    forall p: nat | p < |entries|
      ensures entries[p].item < |rs|
    {
      WrittenIs(rs, key, stages, good, progress, entries, locs, p);
    }
    forall p: nat | p < |entries|
      ensures entries[p].item in good
      ensures rs[entries[p].item].key == key && rs[entries[p].item].tag == entries[p].tag
      ensures !HandledAt(RecordWork(stages, good), progress, entries[p].item)
      ensures rs[entries[p].item].ordering.Acquires() ==> entries[p].ordering.Acquires()
      ensures rs[entries[p].item].ordering.Releases() ==> entries[p].ordering.Releases() || FencedBetween(entries, -1, p)
    {
      WrittenIs(rs, key, stages, good, progress, entries, locs, p);
    }
    forall p: nat, q: nat | p < q < |entries|
      ensures entries[p].item != entries[q].item
    {
      WrittenOnce(rs, key, stages, good, progress, entries, locs, p, q);
    }
    forall p: nat, q: nat | p < |entries| && q < |entries| && entries[p].item < entries[q].item && Required(rs[entries[p].item], rs[entries[q].item])
      ensures KeptApart(entries, p, q)
    {
      RequiredWritten(rs, key, stages, good, progress, entries, locs, p, q);
    }
    forall i: nat | i < |rs| && rs[i].key == key && i in good && !HandledAt(RecordWork(stages, good), progress, i)
      ensures exists p :: 0 <= p < |entries| && entries[p].item == i
    {
      var _ := EntryOf(rs, key, stages, good, progress, entries, locs, i);
    }
  }

  lemma EntryOf(rs: seq<PlanRecord>, key: Key, stages: seq<Stage>, good: set<nat>, progress: Progress,
                entries: seq<Entry<nat>>, locs: seq<Loc>, i: nat) returns (p: nat)
    requires KeyOk(rs, key, stages) && |locs| == |entries|
    requires forall p: nat :: p < |entries| ==> From(rs, key, stages, good, progress, entries, locs, p)
    requires forall l: Loc :: Fits(LeftWork(RecordWork(stages, good), progress), l) ==> l in locs
    requires i < |rs| && rs[i].key == key && i in good && !HandledAt(RecordWork(stages, good), progress, i)
    ensures p < |entries| && entries[p].item == i
  {
    hide KeyOk, HandledAt, RecordWork;
    var g, b := PlaceOf(rs, key, stages, i);
    NotHandled(rs, key, stages, good, progress, g, b, i);
    var run := LeftWork(RecordWork(stages, good), progress)[g][b];
    var j :| 0 <= j < |run| && run[j] == i;
    assert Loc(g, b, j) in locs;
    p :| 0 <= p < |locs| && locs[p] == Loc(g, b, j);
    assert From(rs, key, stages, good, progress, entries, locs, p);
  }

  /** What a fence of an entry says of its place. */
  lemma FenceAt(rs: seq<PlanRecord>, key: Key, stages: seq<Stage>, good: set<nat>, progress: Progress,
                entries: seq<Entry<nat>>, locs: seq<Loc>, p: nat)
    requires KeyOk(rs, key, stages) && From(rs, key, stages, good, progress, entries, locs, p)
    ensures entries[p].ordering.Acquires() ==> locs[p].stage % 3 == 0 && locs[p].run == 0 && locs[p].place == 0
    ensures entries[p].ordering.Releases() ==>
              && locs[p].stage % 3 == 2 && locs[p].run == 0
              && locs[p].place + 1 == |LeftWork(RecordWork(stages, good), progress)[locs[p].stage][0]|
  {
    hide RunsOk, SegmentsOk, Complete, LeftWork, RecordWork, TagsIncrease, At;
  }

  /** Entries at places in plan order come from records in the plan's order, if
      they are in different stages or of one type. */
  lemma PlacesOrdered(rs: seq<PlanRecord>, key: Key, stages: seq<Stage>, good: set<nat>, progress: Progress,
                      entries: seq<Entry<nat>>, locs: seq<Loc>, p: nat, q: nat)
    requires KeyOk(rs, key, stages) && locs != [] && p < |locs| && q < |locs| && locs[p].Before(locs[q])
    requires From(rs, key, stages, good, progress, entries, locs, p) && From(rs, key, stages, good, progress, entries, locs, q)
    requires locs[p].stage < locs[q].stage || locs[p].run == locs[q].run || entries[p].tag == entries[q].tag
    ensures Precedes(rs, entries[p].item, entries[q].item)
  {
    hide RunsOk, SegmentsOk, Complete, LeftWork, RecordWork, Precedes, RankAt;
    FromIs(rs, key, stages, good, progress, entries, locs, p);
    FromIs(rs, key, stages, good, progress, entries, locs, q);
    PrecedesAt(rs, key, stages, locs[p].stage, locs[p].run, entries[p].item, locs[q].stage, locs[q].run, entries[q].item);
  }

  /** Whatever order the fences and types of the entries require, the plan of
      their records required already. */
  lemma EncodingAddsNoOrder(rs: seq<PlanRecord>, key: Key, stages: seq<Stage>, good: set<nat>, progress: Progress,
                            entries: seq<Entry<nat>>, p: nat, q: nat)
    requires Writes(rs, key, stages, good, progress, entries) && KeptApart(entries, p, q)
    ensures Precedes(rs, entries[p].item, entries[q].item)
  {
    hide KeyOk, From, KeyEntries, LeftWork, RecordWork, Precedes, Fits, OutcomeOk;
    var locs := Origins(rs, key, stages, good, progress, entries);
    assert locs[p].Before(locs[q]);
    FenceAt(rs, key, stages, good, progress, entries, locs, p);
    FenceAt(rs, key, stages, good, progress, entries, locs, q);
    SingleRun(rs, key, stages, good, progress, entries, locs, p);
    SingleRun(rs, key, stages, good, progress, entries, locs, q);
    if FencedBetween(entries, p, q) {
      var z :| p < z <= q && 0 <= z < |entries| && entries[z].ordering.Acquires();
      FenceAt(rs, key, stages, good, progress, entries, locs, z);
      assert locs[p].Before(locs[z]);
      assert z < q ==> locs[z].Before(locs[q]);
    }
    PlacesOrdered(rs, key, stages, good, progress, entries, locs, p, q);
  }

  /** Heads and tails are single runs. */
  lemma SingleRun(rs: seq<PlanRecord>, key: Key, stages: seq<Stage>, good: set<nat>, progress: Progress,
                  entries: seq<Entry<nat>>, locs: seq<Loc>, p: nat)
    requires KeyOk(rs, key, stages) && From(rs, key, stages, good, progress, entries, locs, p)
    ensures locs[p].stage % 3 != 1 ==> locs[p].run == 0
  {
    hide RunsOk, SegmentsOk, Complete, LeftWork, RecordWork, TagsIncrease, At;
  }

  /** The entries as the records a later plan sees. */
  ghost function Headers(key: Key, entries: seq<Entry<nat>>): (rs: seq<PlanRecord>)
    ensures |rs| == |entries|
    ensures forall p :: 0 <= p < |entries| ==> rs[p] == PlanRecord(key, entries[p].tag, entries[p].ordering)
  {
    seq(|entries|, p requires 0 <= p < |entries| => PlanRecord(key, entries[p].tag, entries[p].ordering))
  }

  /** Entries that are kept apart are in this order in their plan. */
  lemma KeptApartPrecedes(key: Key, entries: seq<Entry<nat>>, p: nat, q: nat)
    requires KeptApart(entries, p, q)
    ensures Precedes(Headers(key, entries), p, q)
  {
    hide Precedes, Assign;
    var rs := Headers(key, entries);
    if FencedBetween(entries, p, q) {
      var z :| p < z <= q && 0 <= z < |entries| && entries[z].ordering.Acquires();
      CutPrecedes(rs, p, z, q);
    } else {
      RequiredPrecedes(rs, p, q);
    }
  }

  /** Planning the encoding of a diverted or stopped key again keeps every
      order its records required, whatever was handled before. */
  lemma ReplanKeepsOrder(rs: seq<PlanRecord>, key: Key, stages: seq<Stage>, good: set<nat>, progress: Progress,
                         entries: seq<Entry<nat>>, p: nat, q: nat)
    requires Writes(rs, key, stages, good, progress, entries)
    requires p < |entries| && q < |entries|
    ensures entries[p].item < |rs| && entries[q].item < |rs|
    ensures entries[p].item < entries[q].item && Required(rs[entries[p].item], rs[entries[q].item]) ==>
              Precedes(Headers(key, entries), p, q)
  {
    hide Writes, KeptApart, Precedes;
    EncodingKeeps(rs, key, stages, good, progress, entries);
    if entries[p].item < entries[q].item && Required(rs[entries[p].item], rs[entries[q].item]) {
      KeptApartPrecedes(key, entries, p, q);
    }
  }
}
