/** Building a plan: sort the records, scan the runs, collect the segments. */
module PlanBuilder {
  import opened Wrappers
  import opened Events
  import opened Segmentation
  import opened PlanOrder
  import opened Planner

  /** What records are sorted by. */
  datatype SortKey = SortKey(key: nat, segment: nat, rank: nat, tag: Tag, index: nat)
  {
    predicate SameRun(o: SortKey) {
      segment == o.segment && rank == o.rank && tag == o.tag
    }

    /** In a run sorted earlier. */
    predicate RunBefore(o: SortKey) {
      || key < o.key
      || (key == o.key && (|| segment < o.segment
                           || (segment == o.segment && (|| rank < o.rank
                                                        || (rank == o.rank && tag < o.tag)))))
    }

    predicate Before(o: SortKey) {
      RunBefore(o) || (!o.RunBefore(this) && index < o.index)
    }
  }

  ghost predicate Sorted(ks: seq<SortKey>, order: seq<nat>) {
    && (forall a :: 0 <= a < |order| ==> order[a] < |ks|)
    && (forall a, b :: 0 <= a < b < |order| ==> ks[order[a]].Before(ks[order[b]]))
  }

  /** Inserting the next index where it belongs. */
  lemma InsertSorted(ks: seq<SortKey>, order: seq<nat>, p: nat, n: nat)
    requires Sorted(ks, order) && p <= |order| == n < |ks| && forall i :: 0 <= i < |ks| ==> ks[i].index == i
    requires forall a :: 0 <= a < |order| ==> order[a] < n
    requires forall b :: p <= b < n ==> ks[n].Before(ks[order[b]])
    requires p > 0 ==> !ks[n].Before(ks[order[p - 1]])
    ensures Sorted(ks, order[..p] + [n] + order[p..])
  {
    if p > 0 {
      assert ks[order[p - 1]].Before(ks[n]);
    }
    forall a | 0 <= a < p
      ensures ks[order[a]].Before(ks[n])
    {
    }
    assert forall a, b :: 0 <= a < b < n ==> ks[order[a]].Before(ks[order[b]]);
  }

  lemma InsertKeeps(order: seq<nat>, p: nat, n: nat)
    requires p <= |order|
    ensures forall i: nat :: i in order ==> i in order[..p] + [n] + order[p..]
  {
    assert order == order[..p] + order[p..];
  }

  /** The indices of `ks`, sorted by their keys. */
  method SortIndices(ks: seq<SortKey>) returns (order: seq<nat>)
    requires forall i :: 0 <= i < |ks| ==> ks[i].index == i
    ensures Sorted(ks, order)
    ensures forall i :: 0 <= i < |ks| ==> i in order
    ensures |order| == |ks|
  {
    order := [];
    for n := 0 to |ks|
      invariant Sorted(ks, order)
      invariant |order| == n
      invariant forall i :: 0 <= i < n ==> i in order
      invariant forall a :: 0 <= a < |order| ==> order[a] < n
    {
      var p := n;
      while p > 0 && ks[n].Before(ks[order[p - 1]])
        invariant 0 <= p <= n
        invariant forall b :: p <= b < n ==> ks[n].Before(ks[order[b]])
      {
        p := p - 1;
      }
      InsertSorted(ks, order, p, n);
      InsertKeeps(order, p, n);
      order := order[..p] + [n] + order[p..];
    }
  }

  /** Every run is known by its key, segment, rank and type, and runs arrive in order. */
  ghost predicate GroupsOk(metas: seq<Meta>, groups: seq<SortKey>) {
    && (forall r :: 0 <= r < |groups| ==>
          && groups[r].segment < |metas|
          && groups[r].key == metas[groups[r].segment].key
          && groups[r].rank == metas[groups[r].segment].RankOf(groups[r].tag).Index())
    && (forall a, b :: 0 <= a < b < |groups| ==> groups[a].RunBefore(groups[b]))
  }

  /** `seg` points at exactly the runs of segment `m`. */
  ghost predicate SegBuilt(groups: seq<SortKey>, seg: Segment, m: nat) {
    && (seg.head.Some? ==> seg.head.value < |groups|)
    && seg.bodyLo <= seg.bodyHi <= |groups|
    && (seg.tail.Some? ==> seg.tail.value < |groups|)
    && forall r :: 0 <= r < |groups| ==>
         && (seg.head == Some(r) <==> groups[r].segment == m && groups[r].rank == 0)
         && (seg.bodyLo <= r < seg.bodyHi <==> groups[r].segment == m && groups[r].rank == 1)
         && (seg.tail == Some(r) <==> groups[r].segment == m && groups[r].rank == 2)
  }

  /** Segment `m` sorts before segment `m'`. */
  predicate SegBefore(metas: seq<Meta>, m: nat, m': nat)
    requires m < |metas| && m' < |metas|
  {
    metas[m].key < metas[m'].key || (metas[m].key == metas[m'].key && m < m')
  }

  ghost predicate SegmentsBuilt(metas: seq<Meta>, groups: seq<SortKey>, segments: seq<Segment>, owners: seq<nat>) {
    && |owners| == |segments|
    && (forall q :: 0 <= q < |owners| ==> owners[q] < |metas| && SegBuilt(groups, segments[q], owners[q]))
    && (forall q, q' :: 0 <= q < q' < |owners| ==> SegBefore(metas, owners[q], owners[q']))
  }

  /** Key `k` has exactly the segments it owns. */
  ghost predicate KeyBuilt(metas: seq<Meta>, owners: seq<nat>, kp: KeyPlan, k: nat)
    requires forall q :: 0 <= q < |owners| ==> owners[q] < |metas|
  {
    && kp.lo <= kp.hi <= |owners|
    && forall q :: 0 <= q < |owners| ==> (kp.lo <= q < kp.hi <==> metas[owners[q]].key == k)
  }

  ghost predicate KeysBuilt(metas: seq<Meta>, owners: seq<nat>, keys: seq<KeyPlan>, names: seq<Key>)
    requires forall q :: 0 <= q < |owners| ==> owners[q] < |metas|
  {
    && |keys| == |names|
    && forall k :: 0 <= k < |keys| ==> keys[k].key == names[k] && KeyBuilt(metas, owners, keys[k], k)
  }

  /** What of segment `meta` was pushed so far. */
  datatype Opened = Opened(meta: nat, segment: Segment)

  /** The segment being built holds the last run, and no run sorts before an earlier segment. */
  ghost predicate OpenedOk(metas: seq<Meta>, groups: seq<SortKey>, owners: seq<nat>, open: Option<Opened>)
    requires forall q :: 0 <= q < |owners| ==> owners[q] < |metas|
  {
    match open
    case None =>
      && (groups == [] ==> owners == [])
      && (groups != [] ==> owners != [] && owners[|owners| - 1] == groups[|groups| - 1].segment)
      && (forall r :: 0 <= r < |groups| ==> groups[r].segment in owners)
    case Some(o) =>
      && groups != []
      && o.meta < |metas|
      && o.meta == groups[|groups| - 1].segment
      && SegBuilt(groups, o.segment, o.meta)
      && (o.segment.tail.None? ==> o.segment.bodyHi == |groups|)
      && (forall q :: 0 <= q < |owners| ==> SegBefore(metas, owners[q], o.meta))
      && (forall r :: 0 <= r < |groups| ==> groups[r].segment == o.meta || groups[r].segment in owners)
  }

  /** A later run doesn't belong to a segment already built. */
  lemma SegBuiltSnoc(groups: seq<SortKey>, seg: Segment, m: nat, g: SortKey)
    requires SegBuilt(groups, seg, m) && g.segment != m
    ensures SegBuilt(groups + [g], seg, m)
  {
    forall r | 0 <= r < |groups + [g]|
      ensures seg.head == Some(r) <==> (groups + [g])[r].segment == m && (groups + [g])[r].rank == 0
      ensures seg.bodyLo <= r < seg.bodyHi <==> (groups + [g])[r].segment == m && (groups + [g])[r].rank == 1
      ensures seg.tail == Some(r) <==> (groups + [g])[r].segment == m && (groups + [g])[r].rank == 2
    {
      if r < |groups| {
        assert (groups + [g])[r] == groups[r];
      }
    }
  }

  /** A segment with its first run. */
  lemma SegBuiltFirst(groups: seq<SortKey>, g: SortKey, seg: Segment)
    requires forall r :: 0 <= r < |groups| ==> groups[r].segment != g.segment
    requires g.rank == 0 ==> seg == Segment(Some(|groups|), |groups| + 1, |groups| + 1, None)
    requires g.rank == 1 ==> seg == Segment(None, |groups|, |groups| + 1, None)
    requires g.rank == 2 ==> seg == Segment(None, |groups|, |groups|, Some(|groups|))
    requires g.rank < 3
    ensures SegBuilt(groups + [g], seg, g.segment)
  {
  }

  /** A segment with one more run. */
  lemma SegBuiltNext(metas: seq<Meta>, groups: seq<SortKey>, g: SortKey, seg: Segment)
    requires GroupsOk(metas, groups + [g]) && groups != []
    requires groups[|groups| - 1].segment == g.segment
    requires SegBuilt(groups, seg, g.segment) && (seg.tail.None? ==> seg.bodyHi == |groups|)
    ensures g.rank != 0
    ensures seg.tail.None?
    ensures g.rank == 1 ==> SegBuilt(groups + [g], seg.(bodyHi := |groups| + 1), g.segment)
    ensures g.rank == 2 ==> SegBuilt(groups + [g], seg.(tail := Some(|groups|)), g.segment)
  {
    var all := groups + [g];
    assert forall r :: 0 <= r < |groups| ==> groups[r] == all[r] && all[r].RunBefore(all[|groups|]);
    if g.rank == 1 {
      SegBuiltBody(groups, g, seg);
    }
    if g.rank == 2 {
      SegBuiltTail(groups, g, seg);
    }
  }

  lemma SegBuiltBody(groups: seq<SortKey>, g: SortKey, seg: Segment)
    requires SegBuilt(groups, seg, g.segment) && seg.tail.None? && seg.bodyHi == |groups| && g.rank == 1
    ensures SegBuilt(groups + [g], seg.(bodyHi := |groups| + 1), g.segment)
  {
    assert forall r :: 0 <= r < |groups| ==> (groups + [g])[r] == groups[r];
  }

  lemma SegBuiltTail(groups: seq<SortKey>, g: SortKey, seg: Segment)
    requires SegBuilt(groups, seg, g.segment) && seg.tail.None? && seg.bodyHi == |groups| && g.rank == 2
    ensures SegBuilt(groups + [g], seg.(tail := Some(|groups|)), g.segment)
  {
    assert forall r :: 0 <= r < |groups| ==> (groups + [g])[r] == groups[r];
  }

  /** The segment being built, with run `index` of rank `rank` added. */
  ghost function Extended(open: Option<Opened>, index: nat, rank: nat): Segment {
    var seg := if open.Some? then open.value.segment else Segment(None, index, index, None);
    if rank == 0 then seg.(head := Some(index), bodyLo := index + 1, bodyHi := index + 1)
    else if rank == 1 then seg.(bodyHi := index + 1)
    else seg.(tail := Some(index))
  }

  ghost predicate BuilderOk(metas: seq<Meta>, names: seq<Key>, groups: seq<SortKey>, runs: seq<Run>,
                            segments: seq<Segment>, owners: seq<nat>, keys: seq<KeyPlan>, open: Option<Opened>)
  {
    && GroupsOk(metas, groups)
    && (forall m :: 0 <= m < |metas| ==> metas[m].key < |names|)
    && |runs| == |groups|
    && (forall r :: 0 <= r < |runs| ==> runs[r].tag == groups[r].tag)
    && SegmentsBuilt(metas, groups, segments, owners)
    && KeysBuilt(metas, owners, keys, names)
    && OpenedOk(metas, groups, owners, open)
  }

  /** One more run keeps what was built, and extends the open segment. */
  lemma Pushed(metas: seq<Meta>, names: seq<Key>, groups: seq<SortKey>, runs: seq<Run>, segments: seq<Segment>,
               owners: seq<nat>, keys: seq<KeyPlan>, open: Option<Opened>, g: SortKey, run: Run)
    requires BuilderOk(metas, names, groups, runs, segments, owners, keys, open)
    requires GroupsOk(metas, groups + [g]) && g.segment < |metas| && g.rank < 3
    requires open.Some? ==> open.value.meta == g.segment
    requires open.None? && groups != [] ==> groups[|groups| - 1].segment != g.segment
    requires run.tag == g.tag
    ensures BuilderOk(metas, names, groups + [g], runs + [run], segments, owners, keys,
                      Some(Opened(g.segment, Extended(open, |groups|, g.rank))))
  {
    if open.Some? {
      SegBuiltNext(metas, groups, g, open.value.segment);
    } else {
      NotOwned(metas, groups, owners, g);
      SegBuiltFirst(groups, g, Extended(open, |groups|, g.rank));
    }
    forall q | 0 <= q < |owners|
      ensures SegBuilt(groups + [g], segments[q], owners[q])
    {
      SegBuiltSnoc(groups, segments[q], owners[q], g);
    }
  }

  /** Ending the open segment keeps what was built. */
  lemma Finished(metas: seq<Meta>, names: seq<Key>, groups: seq<SortKey>, runs: seq<Run>, segments: seq<Segment>,
                 owners: seq<nat>, keys: seq<KeyPlan>, o: Opened)
    requires BuilderOk(metas, names, groups, runs, segments, owners, keys, Some(o))
    ensures
      var k := metas[o.meta].key;
      var kp := KeyPlan(keys[k].key, if keys[k].lo == keys[k].hi then |owners| else keys[k].lo, |owners| + 1);
      BuilderOk(metas, names, groups, runs, segments + [o.segment], owners + [o.meta], keys[k := kp], None)
  {
    KeysSnoc(metas, owners, keys, names, o.meta);
  }

  class Builder {
    var runs: seq<Run>
    var segments: seq<Segment>
    var keys: seq<KeyPlan>
    var open: Option<Opened>
    /** What every run is sorted by. */
    ghost var groups: seq<SortKey>
    /** The metadata every finished segment was built from. */
    ghost var owners: seq<nat>

    ghost predicate Valid(metas: seq<Meta>, names: seq<Key>)
      reads this
    {
      BuilderOk(metas, names, groups, runs, segments, owners, keys, open)
    }

    /** The last run is not of segment `s`, if no segment is open. */
    ghost predicate Fresh(s: nat)
      reads this
    {
      open.None? && groups != [] ==> groups[|groups| - 1].segment != s
    }

    constructor (names: seq<Key>, metas: seq<Meta>)
      requires forall m :: 0 <= m < |metas| ==> metas[m].key < |names|
      ensures Valid(metas, names) && runs == [] && groups == []
    {
      runs, segments, open := [], [], None;
      keys := seq(|names|, k requires 0 <= k < |names| => KeyPlan(names[k], 0, 0));
      groups, owners := [], [];
    }

    /** Adds the next run. */
    method PushRun(metas: seq<Meta>, ghost names: seq<Key>, segment: nat, rank: Rank, tag: Tag, lo: nat, hi: nat)
      requires Valid(metas, names)
      requires segment < |metas|
      requires rank == metas[segment].RankOf(tag)
      requires Fresh(segment)
      requires GroupsOk(metas, groups + [SortKey(metas[segment].key, segment, rank.Index(), tag, 0)])
      modifies this
      ensures Valid(metas, names)
      ensures open.Some?
      ensures runs == old(runs) + [Run(tag, lo, hi)]
      ensures groups == old(groups) + [SortKey(metas[segment].key, segment, rank.Index(), tag, 0)]
    {
      if open.Some? && open.value.meta != segment {
        FinishSegment(metas, names);
      }
      ExtendSegment(metas, names, segment, rank, tag, lo, hi);
    }

    /** Adds a run to the segment being built, or starts one with it. */
    method ExtendSegment(ghost metas: seq<Meta>, ghost names: seq<Key>, segment: nat, rank: Rank, tag: Tag, lo: nat, hi: nat)
      requires Valid(metas, names)
      requires segment < |metas|
      requires GroupsOk(metas, groups + [SortKey(metas[segment].key, segment, rank.Index(), tag, 0)])
      requires if open.Some? then open.value.meta == segment else Fresh(segment)
      modifies this
      ensures Valid(metas, names)
      ensures open.Some?
      ensures runs == old(runs) + [Run(tag, lo, hi)]
      ensures groups == old(groups) + [SortKey(metas[segment].key, segment, rank.Index(), tag, 0)]
    {
      ghost var g := SortKey(metas[segment].key, segment, rank.Index(), tag, 0);
      Pushed(metas, names, groups, runs, segments, owners, keys, open, g, Run(tag, lo, hi));
      var index := |runs|;
      runs := runs + [Run(tag, lo, hi)];
      var building := if open.Some? then open.value.segment else Segment(None, index, index, None);
      match rank {
        case Head => building := building.(head := Some(index), bodyLo := |runs|, bodyHi := |runs|);
        case Body => building := building.(bodyHi := |runs|);
        case Tail => building := building.(tail := Some(index));
      }
      open := Some(Opened(segment, building));
      groups := groups + [g];
    }

    /** Ends the segment being built, if any. */
    method FinishSegment(metas: seq<Meta>, ghost names: seq<Key>)
      requires Valid(metas, names)
      modifies this
      ensures Valid(metas, names) && open.None?
      ensures runs == old(runs) && groups == old(groups)
    {
      if open.None? {
        return;
      }
      var o := open.value;
      var index := |segments|;
      var k := metas[o.meta].key;
      Finished(metas, names, groups, runs, segments, owners, keys, o);
      segments := segments + [o.segment];
      if keys[k].lo == keys[k].hi {
        keys := keys[k := KeyPlan(keys[k].key, index, |segments|)];
      } else {
        keys := keys[k := KeyPlan(keys[k].key, keys[k].lo, |segments|)];
      }
      open := None;
      owners := owners + [o.meta];
    }
  }

  /** Nothing of a new segment was built before. */
  lemma NotOwned(metas: seq<Meta>, groups: seq<SortKey>, owners: seq<nat>, g: SortKey)
    requires forall q :: 0 <= q < |owners| ==> owners[q] < |metas|
    requires forall q, q' :: 0 <= q < q' < |owners| ==> SegBefore(metas, owners[q], owners[q'])
    requires OpenedOk(metas, groups, owners, None) && GroupsOk(metas, groups + [g]) && g.segment < |metas|
    requires groups != [] ==> groups[|groups| - 1].segment != g.segment
    ensures forall q :: 0 <= q < |owners| ==> owners[q] != g.segment && SegBefore(metas, owners[q], g.segment)
    ensures forall r :: 0 <= r < |groups| ==> groups[r].segment != g.segment
  {
    if groups != [] {
      var last := |groups| - 1;
      assert (groups + [g])[last] == groups[last] && (groups + [g])[|groups|] == g;
      assert groups[last].RunBefore(g);
      assert owners[|owners| - 1] == groups[last].segment;
    }
  }

  /** The key of a new last segment, with that segment added. */
  lemma KeysSnoc(metas: seq<Meta>, owners: seq<nat>, keys: seq<KeyPlan>, names: seq<Key>, m: nat)
    requires forall q :: 0 <= q < |owners| ==> owners[q] < |metas| && m < |metas| && SegBefore(metas, owners[q], m)
    requires forall q, q' :: 0 <= q < q' < |owners| ==> SegBefore(metas, owners[q], owners[q'])
    requires m < |metas| && metas[m].key < |keys| && KeysBuilt(metas, owners, keys, names)
    ensures
      var k := metas[m].key;
      var kp := KeyPlan(keys[k].key, if keys[k].lo == keys[k].hi then |owners| else keys[k].lo, |owners| + 1);
      KeysBuilt(metas, owners + [m], keys[k := kp], names)
  {
    var k := metas[m].key;
    var kp := KeyPlan(keys[k].key, if keys[k].lo == keys[k].hi then |owners| else keys[k].lo, |owners| + 1);
    var keys', owners' := keys[k := kp], owners + [m];
    assert KeyBuilt(metas, owners, keys[k], k);
    if keys[k].lo < keys[k].hi {
      var lo := keys[k].lo;
      assert metas[owners[lo]].key == k;
      forall q | lo <= q < |owners|
        ensures metas[owners[q]].key == k
      {
        assert lo < q ==> SegBefore(metas, owners[lo], owners[q]);
      }
    }
    forall q | 0 <= q < |owners'|
      ensures kp.lo <= q < kp.hi <==> metas[owners'[q]].key == k
    {
      assert q < |owners| ==> owners'[q] == owners[q];
    }
    forall l | 0 <= l < |keys'| && l != k
      ensures KeyBuilt(metas, owners', keys'[l], l)
    {
      assert KeyBuilt(metas, owners, keys[l], l);
    }
  }
}
