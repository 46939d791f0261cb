/** `Plan::new`: the plan of a polled batch. */
module PlanNew {
  import opened Wrappers
  import opened Events
  import opened Segmentation
  import opened PlanOrder
  import opened Planner
  import opened PlanBuilder

  /** What record `i` is sorted by. */
  function KeyOf(rs: seq<PlanRecord>, metas: seq<Meta>, segmentOf: seq<nat>, i: nat): SortKey
    requires i < |rs| == |segmentOf| && segmentOf[i] < |metas|
  {
    var m := metas[segmentOf[i]];
    SortKey(m.key, segmentOf[i], m.RankOf(rs[i].tag).Index(), rs[i].tag, i)
  }

  ghost predicate KeysOf(rs: seq<PlanRecord>, ks: seq<SortKey>) {
    && |ks| == |rs|
    && |Assign(rs).segmentOf| == |rs|
    && forall i :: 0 <= i < |rs| ==>
         && Assign(rs).segmentOf[i] < |Assign(rs).metas|
         && ks[i] == KeyOf(rs, Assign(rs).metas, Assign(rs).segmentOf, i)
  }

  /** The group of runs a record is sorted into. */
  function Group(k: SortKey): SortKey {
    k.(index := 0)
  }

  /** `runs` cut `order[..upto]` into its groups. */
  ghost predicate Covers(ks: seq<SortKey>, order: seq<nat>, groups: seq<SortKey>, runs: seq<Run>, upto: nat)
    requires forall a :: 0 <= a < |order| ==> order[a] < |ks|
  {
    && upto <= |order|
    && |runs| == |groups|
    && (forall r :: 0 <= r < |runs| ==>
          && runs[r].lo < runs[r].hi <= upto
          && runs[r].tag == groups[r].tag
          && forall p :: runs[r].lo <= p < runs[r].hi ==> Group(ks[order[p]]) == groups[r])
    && (forall p :: 0 <= p < upto ==> Covered(runs, p))
  }

  ghost predicate Within(runs: seq<Run>, r: nat, p: nat) {
    r < |runs| && runs[r].lo <= p < runs[r].hi
  }

  ghost predicate Covered(runs: seq<Run>, p: nat) {
    exists r: nat :: Within(runs, r, p)
  }

  lemma CoversSnoc(ks: seq<SortKey>, order: seq<nat>, groups: seq<SortKey>, runs: seq<Run>, start: nat, end: nat, g: SortKey)
    requires forall a :: 0 <= a < |order| ==> order[a] < |ks|
    requires Covers(ks, order, groups, runs, start) && start < end <= |order|
    requires forall p :: start <= p < end ==> Group(ks[order[p]]) == g
    ensures Covers(ks, order, groups + [g], runs + [Run(g.tag, start, end)], end)
  {
    var runs' := runs + [Run(g.tag, start, end)];
    forall p | 0 <= p < end
      ensures Covered(runs', p)
    {
      if p < start {
        assert Covered(runs, p);
        var r: nat :| Within(runs, r, p);
        assert Within(runs', r, p);
      } else {
        assert Within(runs', |runs|, p);
      }
    }
  }

  /** The next group sorts after every earlier one. */
  lemma GroupsSnoc(metas: seq<Meta>, groups: seq<SortKey>, g: SortKey)
    requires GroupsOk(metas, groups) && g.segment < |metas|
    requires g.key == metas[g.segment].key && g.rank == metas[g.segment].RankOf(g.tag).Index()
    requires groups != [] ==> groups[|groups| - 1].RunBefore(g)
    ensures GroupsOk(metas, groups + [g])
  {
  }

  /** Run `r` of a plan stands for its group. */
  lemma RunOfGroup(rs: seq<PlanRecord>, ks: seq<SortKey>, plan: Plan, groups: seq<SortKey>, key: Key, r: nat, g: nat)
    requires KeysOf(rs, ks) && Sorted(ks, plan.order) && plan.InRange()
    requires Covers(ks, plan.order, groups, plan.runs, |plan.order|)
    requires r < |plan.runs| && groups[r].rank == g % 3
    requires forall i :: 0 <= i < |rs| && Group(ks[i]) == groups[r] ==> rs[i].key == key
    ensures RunOk(rs, key, plan.RunOf(r), g)
    ensures forall i :: i in plan.RunOf(r).records ==> i < |rs| && SegmentAt(rs, i) == groups[r].segment
  {
    var run, view := plan.runs[r], plan.RunOf(r);
    forall p | 0 <= p < |view.records|
      ensures
        var i := view.records[p];
        && i < |rs| && Group(ks[i]) == groups[r] && RankAt(rs, i).Index() == g % 3
        && rs[i].tag == view.tag && SegmentAt(rs, i) == groups[r].segment
    {
      assert view.records[p] == plan.order[run.lo + p];
      assert Group(ks[plan.order[run.lo + p]]) == groups[r];
    }
    forall a, b | 0 <= a < b < |view.records|
      ensures view.records[a] < view.records[b]
    {
      assert ks[plan.order[run.lo + a]].Before(ks[plan.order[run.lo + b]]);
      assert Group(ks[plan.order[run.lo + a]]) == Group(ks[plan.order[run.lo + b]]);
    }
  }

  /** What the builder knows once every run is pushed. */
  ghost predicate BuiltFor(rs: seq<PlanRecord>, ks: seq<SortKey>, plan: Plan, groups: seq<SortKey>, owners: seq<nat>) {
    && KeysOf(rs, ks)
    && Sorted(ks, plan.order)
    && (forall i :: 0 <= i < |rs| ==> i in plan.order)
    && Covers(ks, plan.order, groups, plan.runs, |plan.order|)
    && BuilderOk(Assign(rs).metas, Assign(rs).keys, groups, plan.runs, plan.segments, owners, plan.keys, None)
  }

  lemma BuiltInRange(rs: seq<PlanRecord>, ks: seq<SortKey>, plan: Plan, groups: seq<SortKey>, owners: seq<nat>)
    requires BuiltFor(rs, ks, plan, groups, owners)
    ensures plan.InRange()
  {
    forall q | 0 <= q < |plan.segments|
      ensures plan.segments[q].bodyLo <= plan.segments[q].bodyHi <= |plan.runs|
      ensures plan.segments[q].head.Some? ==> plan.segments[q].head.value < |plan.runs|
      ensures plan.segments[q].tail.Some? ==> plan.segments[q].tail.value < |plan.runs|
    {
      assert SegBuilt(groups, plan.segments[q], owners[q]);
    }
  }

  /** The run in place `b` of stage `g` of key `k`. */
  lemma RunAt(plan: Plan, groups: seq<SortKey>, k: nat, g: nat, b: nat, m: nat) returns (r: nat)
    requires plan.InRange() && |groups| == |plan.runs|
    requires k < |plan.keys| && g < |plan.Stages(k)| && b < |plan.Stages(k)[g]|
    requires SegBuilt(groups, plan.segments[plan.keys[k].lo + g / 3], m)
    ensures r < |plan.runs| && plan.Stages(k)[g][b] == plan.RunOf(r)
    ensures groups[r].segment == m && groups[r].rank == g % 3
    ensures g % 3 == 1 ==> r == plan.segments[plan.keys[k].lo + g / 3].bodyLo + b
  {
    var s := plan.segments[plan.keys[k].lo + g / 3];
    assert plan.Stages(k)[g] == plan.StageAt(k, g);
    r := if g % 3 == 0 then s.head.value else if g % 3 == 1 then s.bodyLo + b else s.tail.value;
  }

  /** A record of the key of the segment a run was built from. */
  lemma KeyOfSegment(rs: seq<PlanRecord>, i: nat, k: nat)
    requires i < |rs| && k < |Assign(rs).keys|
    requires SegmentAt(rs, i) < |Assign(rs).metas| && Assign(rs).metas[SegmentAt(rs, i)].key == k
    ensures rs[i].key == Assign(rs).keys[k]
  {
    AssignInv(rs);
  }

  /** Segment `q` of key `k` is built from a segment of that key. */
  lemma Owned(rs: seq<PlanRecord>, ks: seq<SortKey>, plan: Plan, groups: seq<SortKey>, owners: seq<nat>, k: nat, q: nat)
    requires BuiltFor(rs, ks, plan, groups, owners) && k < |plan.keys| && plan.keys[k].lo <= q < plan.keys[k].hi
    ensures q < |owners| == |plan.segments| && SegBuilt(groups, plan.segments[q], owners[q])
    ensures owners[q] < |Assign(rs).metas| && Assign(rs).metas[owners[q]].key == k
    ensures |plan.keys| == |Assign(rs).keys| && plan.keys[k].key == Assign(rs).keys[k]
  {
    assert KeyBuilt(Assign(rs).metas, owners, plan.keys[k], k);
  }

  lemma OwnedRunOk(rs: seq<PlanRecord>, ks: seq<SortKey>, plan: Plan, groups: seq<SortKey>,
                   k: nat, g: nat, b: nat, m: nat)
    requires KeysOf(rs, ks) && Sorted(ks, plan.order) && plan.InRange()
    requires Covers(ks, plan.order, groups, plan.runs, |plan.order|)
    requires k < |plan.keys| == |Assign(rs).keys| && plan.keys[k].key == Assign(rs).keys[k]
    requires g < |plan.Stages(k)| && b < |plan.Stages(k)[g]|
    requires SegBuilt(groups, plan.segments[plan.keys[k].lo + g / 3], m)
    requires m < |Assign(rs).metas| && Assign(rs).metas[m].key == k
    ensures RunOk(rs, plan.keys[k].key, plan.Stages(k)[g][b], g)
    ensures forall i :: i in plan.Stages(k)[g][b].records ==> i < |rs| && SegmentAt(rs, i) == m
  {
    var r := RunAt(plan, groups, k, g, b, m);
    forall i | 0 <= i < |rs| && Group(ks[i]) == groups[r]
      ensures rs[i].key == plan.keys[k].key
    {
      KeyOfSegment(rs, i, k);
    }
    RunOfGroup(rs, ks, plan, groups, plan.keys[k].key, r, g);
  }

  lemma StageRunOk(rs: seq<PlanRecord>, ks: seq<SortKey>, plan: Plan, groups: seq<SortKey>, owners: seq<nat>,
                   k: nat, g: nat, b: nat)
    requires BuiltFor(rs, ks, plan, groups, owners) && plan.InRange()
    requires k < |plan.keys| && g < |plan.Stages(k)| && b < |plan.Stages(k)[g]|
    ensures plan.keys[k].lo + g / 3 < |owners|
    ensures RunOk(rs, plan.keys[k].key, plan.Stages(k)[g][b], g)
    ensures forall i :: i in plan.Stages(k)[g][b].records ==>
              i < |rs| && SegmentAt(rs, i) == owners[plan.keys[k].lo + g / 3]
  {
    hide Assign, RunOk, SegmentAt, KeysOf, BuilderOk, SegBuilt;
    var q := plan.keys[k].lo + g / 3;
    Owned(rs, ks, plan, groups, owners, k, q);
    OwnedRunOk(rs, ks, plan, groups, k, g, b, owners[q]);
  }

  lemma StagesTags(metas: seq<Meta>, plan: Plan, groups: seq<SortKey>, owners: seq<nat>, k: nat)
    requires plan.InRange() && |groups| == |plan.runs| && |owners| == |plan.segments| && k < |plan.keys|
    requires GroupsOk(metas, groups)
    requires forall r :: 0 <= r < |plan.runs| ==> plan.runs[r].tag == groups[r].tag
    requires forall q :: 0 <= q < |owners| ==> SegBuilt(groups, plan.segments[q], owners[q])
    ensures TagsIncrease(plan.Stages(k))
    ensures forall g :: 0 <= g < |plan.Stages(k)| && g % 3 != 1 ==> |plan.Stages(k)[g]| <= 1
  {
    var stages: seq<Stage> := plan.Stages(k);
    forall g: nat, b: nat, c: nat | g < |stages| && b < c < |stages[g]|
      ensures stages[g][b].tag < stages[g][c].tag
    {
      assert stages[g] == plan.StageAt(k, g);
      var m := owners[plan.keys[k].lo + g / 3];
      var r := RunAt(plan, groups, k, g, b, m);
      var t := RunAt(plan, groups, k, g, c, m);
      assert groups[r].RunBefore(groups[t]);
    }
    forall g | 0 <= g < |stages| && g % 3 != 1
      ensures |stages[g]| <= 1
    {
      assert stages[g] == plan.StageAt(k, g);
    }
  }

  /** The segments of a key follow the order of their metadata. */
  lemma StagesSegments(rs: seq<PlanRecord>, stages: seq<Stage>, owned: seq<nat>)
    requires |stages| == 3 * |owned|
    requires forall q, q' :: 0 <= q < q' < |owned| ==> owned[q] < owned[q']
    requires forall g: nat, b: nat, i: nat :: At(stages, g, b, i) ==> i < |rs| && SegmentAt(rs, i) == owned[g / 3]
    ensures SegmentsOk(rs, stages)
  {
  }

  lemma StagesComplete(plan: Plan, groups: seq<SortKey>, ks: seq<SortKey>,
                       k: nat, q: nat, m: nat, i: nat, p: nat) returns (g: nat, b: nat)
    requires plan.InRange() && k < |plan.keys| && |groups| == |plan.runs|
    requires plan.keys[k].lo <= q < plan.keys[k].hi && SegBuilt(groups, plan.segments[q], m)
    requires p < |plan.order| && plan.order[p] == i
    requires exists r: nat :: Within(plan.runs, r, p) && groups[r].segment == m && groups[r].rank < 3
    ensures At(plan.Stages(k), g, b, i)
  {
    var r: nat :| Within(plan.runs, r, p) && groups[r].segment == m && groups[r].rank < 3;
    g := 3 * (q - plan.keys[k].lo) + groups[r].rank;
    b := if groups[r].rank == 1 then r - plan.segments[q].bodyLo else 0;
    assert g / 3 == q - plan.keys[k].lo && g % 3 == groups[r].rank;
    assert plan.Stages(k)[g] == plan.StageAt(k, g);
    assert plan.Stages(k)[g][b] == plan.RunOf(r);
    assert plan.RunOf(r).records[p - plan.runs[r].lo] == i;
  }

  lemma RecordPlanned(rs: seq<PlanRecord>, ks: seq<SortKey>, plan: Plan, groups: seq<SortKey>, owners: seq<nat>,
                      k: nat, i: nat) returns (g: nat, b: nat)
    requires BuiltFor(rs, ks, plan, groups, owners) && plan.InRange() && k < |plan.keys|
    requires i < |rs| && rs[i].key == plan.keys[k].key
    ensures At(plan.Stages(k), g, b, i)
  {
    AssignInv(rs);
    assert i in plan.order;
    var p :| 0 <= p < |plan.order| && plan.order[p] == i;
    assert Covered(plan.runs, p);
    var r: nat :| Within(plan.runs, r, p);
    assert Group(ks[plan.order[p]]) == groups[r];
    assert groups[r].segment in owners;
    var q :| 0 <= q < |owners| && owners[q] == groups[r].segment;
    assert Assign(rs).metas[owners[q]].key == k;
    assert KeyBuilt(Assign(rs).metas, owners, plan.keys[k], k);
    g, b := StagesComplete(plan, groups, ks, k, q, owners[q], i, p);
  }

  lemma BuiltSegmentsOk(rs: seq<PlanRecord>, ks: seq<SortKey>, plan: Plan, groups: seq<SortKey>, owners: seq<nat>, k: nat)
    requires BuiltFor(rs, ks, plan, groups, owners) && plan.InRange() && k < |plan.keys|
    ensures SegmentsOk(rs, plan.Stages(k))
  {
    var stages: seq<Stage> := plan.Stages(k);
    var lo, hi := plan.keys[k].lo, plan.keys[k].hi;
    var metas := Assign(rs).metas;
    assert KeyBuilt(metas, owners, plan.keys[k], k);
    var owned := owners[lo..hi];
    forall g: nat, b: nat, i: nat | At(stages, g, b, i)
      ensures i < |rs| && SegmentAt(rs, i) == owned[g / 3]
    {
      StageRunOk(rs, ks, plan, groups, owners, k, g, b);
    }
    forall q, q' | 0 <= q < q' < hi - lo
      ensures owned[q] < owned[q']
    {
      assert SegBefore(metas, owners[lo + q], owners[lo + q']);
    }
    StagesSegments(rs, stages, owned);
  }

  lemma BuiltKeyOk(rs: seq<PlanRecord>, ks: seq<SortKey>, plan: Plan, groups: seq<SortKey>, owners: seq<nat>, k: nat)
    requires BuiltFor(rs, ks, plan, groups, owners) && plan.InRange() && k < |plan.keys|
    ensures KeyOk(rs, plan.keys[k].key, plan.Stages(k))
  {
    hide RunOk, At, SegmentAt, Assign;
    var stages: seq<Stage> := plan.Stages(k);
    assert RunsOk(rs, plan.keys[k].key, stages) by {
      forall g, b | 0 <= g < |stages| && 0 <= b < |stages[g]|
        ensures RunOk(rs, plan.keys[k].key, stages[g][b], g)
      {
        StageRunOk(rs, ks, plan, groups, owners, k, g, b);
      }
    }
    assert TagsIncrease(stages) && forall g :: 0 <= g < |stages| && g % 3 != 1 ==> |stages[g]| <= 1 by {
      StagesTags(Assign(rs).metas, plan, groups, owners, k);
    }
    BuiltSegmentsOk(rs, ks, plan, groups, owners, k);
    forall i | 0 <= i < |rs| && rs[i].key == plan.keys[k].key
      ensures exists g, b :: At(stages, g, b, i)
    {
      var g, b := RecordPlanned(rs, ks, plan, groups, owners, k, i);
    }
  }

  /** The sorted order is one the plan allows. */
  lemma SortedAllowed(rs: seq<PlanRecord>, ks: seq<SortKey>, order: seq<nat>, a: nat, b: nat)
    requires KeysOf(rs, ks) && Sorted(ks, order) && a < b < |order|
    ensures order[a] != order[b] && !Precedes(rs, order[b], order[a])
  {
    hide Assign;
    AssignInv(rs);
    assert ks[order[a]].Before(ks[order[b]]);
  }

  /** What the records of run `r` have in common. */
  lemma RunGroup(rs: seq<PlanRecord>, ks: seq<SortKey>, plan: Plan, groups: seq<SortKey>, r: nat, a: nat)
    requires KeysOf(rs, ks) && Sorted(ks, plan.order) && |plan.order| == |rs|
    requires Covers(ks, plan.order, groups, plan.runs, |rs|) && r < |plan.runs| && plan.runs[r].lo <= a < plan.runs[r].hi
    ensures a < |plan.order| && plan.order[a] < |rs| && Group(ks[plan.order[a]]) == groups[r]
    ensures rs[plan.order[a]].tag == plan.runs[r].tag
  {
    hide Assign;
  }

  lemma BuiltCanonical(rs: seq<PlanRecord>, ks: seq<SortKey>, plan: Plan, groups: seq<SortKey>, metas: seq<Meta>)
    requires KeysOf(rs, ks) && Sorted(ks, plan.order) && |plan.order| == |rs| && plan.InRange()
    requires forall i :: 0 <= i < |rs| ==> i in plan.order
    requires Covers(ks, plan.order, groups, plan.runs, |rs|) && Tiles(plan.runs, |rs|)
    requires GroupsOk(metas, groups)
    ensures Canonical(rs, plan)
  {
    hide Assign, Precedes, KeysOf, Covers, GroupsOk, Group, SameRun;
    var order, runs := plan.order, plan.runs;
    GroupCount(rs, ks, plan, groups);
    forall a, b | 0 <= a < b < |order|
      ensures order[a] != order[b] && !Precedes(rs, order[b], order[a])
    {
      SortedAllowed(rs, ks, order, a, b);
    }
    forall r, a, b | 0 <= r < |runs| && runs[r].lo <= a < b < runs[r].hi
      ensures SameRun(rs, order[a], order[b])
    {
      RunGroup(rs, ks, plan, groups, r, a);
      RunGroup(rs, ks, plan, groups, r, b);
      SameGroup(rs, ks, order[a], order[b]);
    }
    forall r | 0 <= r < |runs|
      ensures rs[order[runs[r].lo]].tag == runs[r].tag
    {
      RunGroup(rs, ks, plan, groups, r, runs[r].lo);
    }
    forall r, r' | 0 <= r < r' < |runs|
      ensures !SameRun(rs, order[runs[r].lo], order[runs[r'].lo])
    {
      RunGroup(rs, ks, plan, groups, r, runs[r].lo);
      RunGroup(rs, ks, plan, groups, r', runs[r'].lo);
      OtherGroup(rs, ks, metas, groups, r, r', order[runs[r].lo], order[runs[r'].lo]);
    }
  }

  lemma GroupCount(rs: seq<PlanRecord>, ks: seq<SortKey>, plan: Plan, groups: seq<SortKey>)
    requires KeysOf(rs, ks) && Sorted(ks, plan.order) && Covers(ks, plan.order, groups, plan.runs, |rs|)
    ensures |groups| == |plan.runs| && |ks| == |rs|
  {
    hide Assign;
  }

  lemma OtherGroup(rs: seq<PlanRecord>, ks: seq<SortKey>, metas: seq<Meta>, groups: seq<SortKey>, r: nat, r': nat, i: nat, j: nat)
    requires KeysOf(rs, ks) && GroupsOk(metas, groups) && r < r' < |groups| && i < |rs| && j < |rs|
    requires Group(ks[i]) == groups[r] && Group(ks[j]) == groups[r']
    ensures !SameRun(rs, i, j)
  {
    hide Assign;
    AssignInv(rs);
    assert groups[r].RunBefore(groups[r']);
  }

  lemma SameGroup(rs: seq<PlanRecord>, ks: seq<SortKey>, i: nat, j: nat)
    requires KeysOf(rs, ks) && i < |rs| && j < |rs| && Group(ks[i]) == Group(ks[j])
    ensures SameRun(rs, i, j)
  {
    hide Assign;
    AssignInv(rs);
  }

  lemma BuiltIsPlan(rs: seq<PlanRecord>, ks: seq<SortKey>, plan: Plan, groups: seq<SortKey>, owners: seq<nat>)
    requires BuiltFor(rs, ks, plan, groups, owners)
    ensures PlanOk(rs, plan)
  {
    BuiltInRange(rs, ks, plan, groups, owners);
    forall k | 0 <= k < |plan.keys|
      ensures plan.keys[k].key == Assign(rs).keys[k] && KeyOk(rs, plan.keys[k].key, plan.Stages(k))
    {
      BuiltKeyOk(rs, ks, plan, groups, owners, k);
    }
  }

  /** The run being scanned: its sort position, and where it starts. */
  datatype Scan = Scan(segment: nat, rank: Rank, tag: Tag, start: nat)

  /** The finished runs cover the order up to the run being scanned. */
  ghost predicate ScanOk(ks: seq<SortKey>, metas: seq<Meta>, order: seq<nat>,
                         groups: seq<SortKey>, runs: seq<Run>, run: Option<Scan>, position: nat)
  {
    && Sorted(ks, order)
    && position <= |order|
    && (run.None? ==> position == 0 && groups == [])
    && var start := if run.Some? then run.value.start else 0;
    && start <= position
    && (run.Some? ==>
          && start < position
          && GroupsOk(metas, groups + [ScanGroup(metas, run.value)])
          && run.value.segment < |metas|
          && metas[run.value.segment].RankOf(run.value.tag) == run.value.rank
          && forall p :: start <= p < position ==> Group(ks[order[p]]) == ScanGroup(metas, run.value))
    && Covers(ks, order, groups, runs, start)
    && Tiles(runs, start)
  }

  ghost function ScanGroup(metas: seq<Meta>, s: Scan): SortKey {
    SortKey(if s.segment < |metas| then metas[s.segment].key else 0, s.segment, s.rank.Index(), s.tag, 0)
  }

  /** Every sort key is that of a segment. */
  ghost predicate KeysIn(metas: seq<Meta>, ks: seq<SortKey>) {
    forall i :: 0 <= i < |ks| ==>
      && ks[i].segment < |metas|
      && ks[i].key == metas[ks[i].segment].key
      && ks[i].rank == metas[ks[i].segment].RankOf(ks[i].tag).Index()
  }

  /** The first record starts a run. */
  lemma ScanFirst(ks: seq<SortKey>, metas: seq<Meta>, order: seq<nat>, runs: seq<Run>, next: Scan)
    requires KeysIn(metas, ks) && next.start < |order|
    requires ScanOk(ks, metas, order, [], runs, None, next.start)
    requires Group(ks[order[next.start]]) == ScanGroup(metas, next)
    requires next.segment < |metas| && metas[next.segment].RankOf(next.tag) == next.rank
    ensures ScanOk(ks, metas, order, [], runs, Some(next), next.start + 1)
  {
    GroupsSnoc(metas, [], ScanGroup(metas, next));
  }

  /** The next record starts a run, which ends the run before it. */
  lemma ScanCut(ks: seq<SortKey>, metas: seq<Meta>, order: seq<nat>,
                groups: seq<SortKey>, runs: seq<Run>, s: Scan, next: Scan)
    requires KeysIn(metas, ks) && next.start < |order|
    requires ScanOk(ks, metas, order, groups, runs, Some(s), next.start)
    requires Group(ks[order[next.start]]) == ScanGroup(metas, next)
    requires next.segment < |metas| && metas[next.segment].RankOf(next.tag) == next.rank
    requires (s.segment, s.rank, s.tag) != (next.segment, next.rank, next.tag)
    ensures ScanOk(ks, metas, order, groups + [ScanGroup(metas, s)], runs + [Run(s.tag, s.start, next.start)],
                   Some(next), next.start + 1)
  {
    var g := ScanGroup(metas, s);
    CoversSnoc(ks, order, groups, runs, s.start, next.start, g);
    assert g.RunBefore(ScanGroup(metas, next)) by {
      assert ks[order[next.start - 1]].Before(ks[order[next.start]]);
      assert Group(ks[order[next.start - 1]]) == g;
    }
    GroupsSnoc(metas, groups + [g], ScanGroup(metas, next));
  }

  /** The last run ends with the order. */
  lemma ScanEnd(ks: seq<SortKey>, metas: seq<Meta>, order: seq<nat>, groups: seq<SortKey>, runs: seq<Run>, s: Scan)
    requires ScanOk(ks, metas, order, groups, runs, Some(s), |order|)
    ensures Covers(ks, order, groups + [ScanGroup(metas, s)], runs + [Run(s.tag, s.start, |order|)], |order|)
    ensures Tiles(runs + [Run(s.tag, s.start, |order|)], |order|)
  {
    CoversSnoc(ks, order, groups, runs, s.start, |order|, ScanGroup(metas, s));
  }

  ghost predicate Scanning(builder: Builder, ks: seq<SortKey>, metas: seq<Meta>, keys: seq<Key>, order: seq<nat>,
                           run: Option<Scan>, position: nat)
    reads builder
  {
    && KeysIn(metas, ks)
    && ScanOk(ks, metas, order, builder.groups, builder.runs, run, position)
    && builder.Valid(metas, keys)
    && (builder.groups == [] || builder.open.Some?)
  }

  /** Scans one more record, ending the run before it if it isn't of that run. */
  method ScanRecord(builder: Builder, metas: seq<Meta>, ghost keys: seq<Key>, ghost ks: seq<SortKey>,
                    ghost order: seq<nat>, run: Option<Scan>, next: Scan) returns (run': Option<Scan>)
    requires Scanning(builder, ks, metas, keys, order, run, next.start)
    requires next.start < |order| && Group(ks[order[next.start]]) == ScanGroup(metas, next)
    requires next.segment < |metas| && metas[next.segment].RankOf(next.tag) == next.rank
    modifies builder
    ensures Scanning(builder, ks, metas, keys, order, run', next.start + 1)
  {
    if run.Some? {
      var open := run.value;
      if (open.segment, open.rank, open.tag) == (next.segment, next.rank, next.tag) {
        return run;
      }
      ScanCut(ks, metas, order, builder.groups, builder.runs, open, next);
      builder.PushRun(metas, keys, open.segment, open.rank, open.tag, open.start, next.start);
    } else {
      ScanFirst(ks, metas, order, builder.runs, next);
    }
    run' := Some(next);
  }

  /** Collects the runs of `order` into segments. */
  method BuildRuns(records: seq<PlanRecord>, keys: seq<Key>, metas: seq<Meta>, segmentOf: seq<nat>,
                   ghost ks: seq<SortKey>, order: seq<nat>) returns (builder: Builder)
    requires |ks| == |records| == |segmentOf| && KeysIn(metas, ks) && Sorted(ks, order)
    requires forall m :: 0 <= m < |metas| ==> metas[m].key < |keys|
    requires forall i :: 0 <= i < |records| ==> segmentOf[i] < |metas| && ks[i] == KeyOf(records, metas, segmentOf, i)
    ensures builder.Valid(metas, keys) && builder.open.None?
    ensures Covers(ks, order, builder.groups, builder.runs, |order|) && Tiles(builder.runs, |order|)
  {
    builder := new Builder(keys, metas);
    var run: Option<Scan> := None;
    for position := 0 to |order|
      invariant fresh(builder)
      invariant Scanning(builder, ks, metas, keys, order, run, position)
    {
      var i := order[position];
      var segment, tag := segmentOf[i], records[i].tag;
      run := ScanRecord(builder, metas, keys, ks, order, run, Scan(segment, metas[segment].RankOf(tag), tag, position));
    }
    if run.Some? {
      var open := run.value;
      ScanEnd(ks, metas, order, builder.groups, builder.runs, open);
      builder.PushRun(metas, keys, open.segment, open.rank, open.tag, open.start, |order|);
    }
    builder.FinishSegment(metas, keys);
  }

  /** Plans a batch: the result is its plan, holds every record once, and its runs
      tile its order. */
  method New(records: seq<PlanRecord>) returns (plan: Plan)
    ensures PlanOk(records, plan)
    ensures Canonical(records, plan)
  {
    hide Assign;
    var keys, metas, segmentOf := AssignSegments(records);
    AssignInv(records);
    var ks := seq(|records|, i requires 0 <= i < |records| => KeyOf(records, metas, segmentOf, i));
    var order := SortIndices(ks);
    assert KeysIn(metas, ks);
    var builder := BuildRuns(records, keys, metas, segmentOf, ks, order);
    plan := Plan(order, builder.runs, builder.segments, builder.keys);
    BuiltIsPlan(records, ks, plan, builder.groups, builder.owners);
    BuiltCanonical(records, ks, plan, builder.groups, metas);
  }
}
