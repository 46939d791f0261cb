/** Where the segments of a key begin and what their heads and tails are, said
    of the records of the log alone. */
module Fences {
  import opened Wrappers
  import opened Events
  import opened Segmentation
  import opened PlanOrder

  /** `p` and `z` are consecutive records of one key. */
  ghost predicate Next(rs: seq<PlanRecord>, p: nat, z: nat) {
    && p < z < |rs| && rs[p].key == rs[z].key
    && forall m: nat :: p < m < z ==> rs[m].key != rs[z].key
  }

  /** Record `h` acquires, and no record of the key between it and `z` fences. */
  ghost predicate Holds(rs: seq<PlanRecord>, h: nat, z: nat) {
    && h < z < |rs| && rs[h].key == rs[z].key && rs[h].ordering.Acquires()
    && forall m: nat :: h < m < z && rs[m].key == rs[z].key ==> rs[m].ordering.Relaxed?
  }

  /** A record of the key between `h` and `z` has another type than `z`. */
  ghost predicate OtherBetween(rs: seq<PlanRecord>, h: nat, z: nat) {
    z < |rs| && exists o: nat :: h < o < z && rs[o].key == rs[z].key && rs[o].tag != rs[z].tag
  }

  ghost predicate FollowsRelease(rs: seq<PlanRecord>, z: nat) {
    exists p: nat :: Next(rs, p, z) && rs[p].ordering.Release?
  }

  /** `z` releases what a record of its own type acquired, after other types joined. */
  ghost predicate ReleasesMixed(rs: seq<PlanRecord>, z: nat) {
    && z < |rs| && rs[z].ordering.Release?
    && exists h: nat :: Holds(rs, h, z) && rs[h].tag == rs[z].tag && OtherBetween(rs, h, z)
  }

  /** The fences of the log make record `z` begin a segment. */
  ghost predicate Begins(rs: seq<PlanRecord>, z: nat) {
    z < |rs| && (rs[z].ordering.Acquires() || FollowsRelease(rs, z) || ReleasesMixed(rs, z))
  }

  // --- What the walk over the first `n` records keeps ---

  ghost predicate HeadBy(rs: seq<PlanRecord>, st: SegState, s: nat, h: nat) {
    && h < |st.segmentOf| <= |rs| && s < |st.metas|
    && st.segmentOf[h] == s && rs[h].ordering.Acquires() && st.metas[s].head == Some(rs[h].tag)
  }

  ghost predicate TailBy(rs: seq<PlanRecord>, st: SegState, s: nat, z: nat) {
    && z < |st.segmentOf| <= |rs| && s < |st.metas|
    && st.segmentOf[z] == s && rs[z].ordering.Release? && st.metas[s].tail == Some(rs[z].tag)
  }

  ghost predicate MixedBy(rs: seq<PlanRecord>, st: SegState, s: nat, o: nat) {
    && o < |st.segmentOf| <= |rs| && s < |st.metas|
    && st.segmentOf[o] == s && st.metas[s].head.Some? && Some(rs[o].tag) != st.metas[s].head
  }

  /** What a segment says of itself comes from its records. */
  ghost predicate MetaOk(rs: seq<PlanRecord>, st: SegState, s: nat) {
    s < |st.metas| ==>
      && (st.metas[s].head.Some? ==> exists h: nat :: HeadBy(rs, st, s, h))
      && (st.metas[s].tail.Some? ==> exists z: nat :: TailBy(rs, st, s, z))
      && (st.metas[s].mixed ==> exists o: nat :: MixedBy(rs, st, s, o))
  }

  /** Record `l` is the last one of key `k` so far; it closed its segment or left it open. */
  ghost predicate LastIs(rs: seq<PlanRecord>, st: SegState, k: Key, l: nat) {
    && l < |st.segmentOf| <= |rs| && rs[l].key == k && k in st.slots
    && (forall m: nat :: l < m < |st.segmentOf| ==> rs[m].key != k)
    && st.slots[k].open == if rs[l].ordering.Release? then None else Some(st.segmentOf[l])
  }

  ghost predicate LastsOk(rs: seq<PlanRecord>, st: SegState) {
    forall k :: k in st.slots ==> exists l: nat :: LastIs(rs, st, k, l)
  }

  /** Segments change only where the fences say. */
  ghost predicate CutsOk(rs: seq<PlanRecord>, st: SegState) {
    |st.segmentOf| <= |rs| &&
    forall p: nat, z: nat :: Next(rs, p, z) && z < |st.segmentOf| && st.segmentOf[p] != st.segmentOf[z] ==> Begins(rs, z)
  }

  ghost predicate SeenBefore(rs: seq<PlanRecord>, k: Key, j: nat) {
    j <= |rs| && exists i: nat :: i < j && rs[i].key == k
  }

  /** Keys are listed in the order of their first records. */
  ghost predicate KeysOk(rs: seq<PlanRecord>, st: SegState) {
    |st.segmentOf| <= |rs| &&
    forall m: nat, n: nat, j: nat :: m < n < |st.keys| && j < |st.segmentOf| && rs[j].key == st.keys[n] ==>
      SeenBefore(rs, st.keys[m], j)
  }

  ghost predicate WalkOk(rs: seq<PlanRecord>, st: SegState) {
    && (forall s: nat :: MetaOk(rs, st, s))
    && LastsOk(rs, st)
    && CutsOk(rs, st)
    && KeysOk(rs, st)
  }

  /** Which segment the next record joins. */
  lemma StepSegment(st: SegState, r: PlanRecord)
    requires st.InRange()
    ensures
      var st', joined := Step(st, r), st.Joined(r);
      var s := if joined.Some? then joined.value else |st.metas|;
      && st'.segmentOf == st.segmentOf + [s]
      && |st.metas| <= |st'.metas| && s < |st'.metas|
      && st'.slots == st.slots[r.key := Slot(st.SlotOf(r.key).index, if r.ordering.Release? then None else Some(s))]
      && st'.keys == (if r.key in st.slots then st.keys else st.keys + [r.key])
      && (forall q :: 0 <= q < |st'.metas| && q != s ==> q < |st.metas| && st'.metas[q] == st.metas[q])
      && st'.metas[s] == (if joined.Some? then st.metas[s] else Meta(st.SlotOf(r.key).index, None, None, false)).Absorb(r)
  {
  }

  lemma StepMeta(rs: seq<PlanRecord>, st: SegState, r: PlanRecord, s: nat)
    requires st.InRange() && |st.segmentOf| < |rs| && rs[|st.segmentOf|] == r
    requires MetaOk(rs, st, s)
    ensures MetaOk(rs, Step(st, r), s)
  {
    hide Step;
    StepSegment(st, r);
    var st', n := Step(st, r), |st.segmentOf|;
    if s < |st'.metas| {
      var m' := st'.metas[s];
      if st'.segmentOf[n] == s {
        if m'.head.Some? {
          if r.ordering.Acquires() {
            assert HeadBy(rs, st', s, n);
          } else {
            var h: nat :| HeadBy(rs, st, s, h);
            assert HeadBy(rs, st', s, h);
          }
        }
        if m'.tail.Some? {
          if r.ordering.Release? {
            assert TailBy(rs, st', s, n);
          } else {
            var z: nat :| TailBy(rs, st, s, z);
            assert TailBy(rs, st', s, z);
          }
        }
        StepMixed(rs, st, r, s);
      } else {
        Carried(rs, st, st', s);
      }
    }
  }

  lemma Carried(rs: seq<PlanRecord>, st: SegState, st': SegState, s: nat)
    requires MetaOk(rs, st, s) && s < |st.metas| && s < |st'.metas| && st'.metas[s] == st.metas[s]
    requires st.segmentOf <= st'.segmentOf && |st'.segmentOf| <= |rs|
    ensures MetaOk(rs, st', s)
  {
    if st.metas[s].head.Some? {
      var h: nat :| HeadBy(rs, st, s, h);
      assert HeadBy(rs, st', s, h);
    }
    if st.metas[s].tail.Some? {
      var z: nat :| TailBy(rs, st, s, z);
      assert TailBy(rs, st', s, z);
    }
    if st.metas[s].mixed {
      var o: nat :| MixedBy(rs, st, s, o);
      assert MixedBy(rs, st', s, o);
    }
  }

  /** A segment is mixed only by a record of it. */
  lemma StepMixed(rs: seq<PlanRecord>, st: SegState, r: PlanRecord, s: nat)
    requires st.InRange() && |st.segmentOf| < |rs| && rs[|st.segmentOf|] == r
    requires MetaOk(rs, st, s) && Step(st, r).segmentOf[|st.segmentOf|] == s
    ensures s < |Step(st, r).metas| && (Step(st, r).metas[s].mixed ==> exists o: nat :: MixedBy(rs, Step(st, r), s, o))
  {
    hide Step;
    StepSegment(st, r);
    var st', n := Step(st, r), |st.segmentOf|;
    if st'.metas[s].mixed {
      if st'.metas[s].head.Some? && st'.metas[s].head.value != r.tag {
        assert MixedBy(rs, st', s, n);
      } else {
        var o: nat :| MixedBy(rs, st, s, o);
        assert MixedBy(rs, st', s, o);
      }
    }
  }

  lemma StepLasts(rs: seq<PlanRecord>, st: SegState, r: PlanRecord)
    requires st.InRange() && |st.segmentOf| < |rs| && rs[|st.segmentOf|] == r && LastsOk(rs, st)
    ensures LastsOk(rs, Step(st, r))
  {
    hide Step;
    StepSegment(st, r);
    var st', n := Step(st, r), |st.segmentOf|;
    forall k | k in st'.slots
      ensures exists l: nat :: LastIs(rs, st', k, l)
    {
      if k == r.key {
        assert LastIs(rs, st', k, n);
      } else {
        var l: nat :| LastIs(rs, st, k, l);
        assert LastIs(rs, st', k, l);
      }
    }
  }

  lemma StepKeys(rs: seq<PlanRecord>, st: SegState, r: PlanRecord)
    requires st.InRange() && |st.segmentOf| < |rs| && rs[|st.segmentOf|] == r && KeysOk(rs, st)
    requires Indexed(rs[..|st.segmentOf|], st) && Inhabited(rs[..|st.segmentOf|], st)
    ensures KeysOk(rs, Step(st, r))
  {
    hide Step;
    StepSegment(st, r);
    var st', n := Step(st, r), |st.segmentOf|;
    forall a: nat, b: nat, j: nat | a < b < |st'.keys| && j <= n && rs[j].key == st'.keys[b]
      ensures SeenBefore(rs, st'.keys[a], j)
    {
      if j == n {
        assert st'.keys[a] in st.keys;
        var i: nat :| HasKey(rs[..n], i, st'.keys[a]);
        assert rs[i].key == st'.keys[a];
      } else {
        assert rs[..n][j].key in st.slots;
        assert b < |st.keys|;
      }
    }
  }

  /** The record after `p` in its key begins a segment only at a fence. */
  lemma StepCut(rs: seq<PlanRecord>, st: SegState, r: PlanRecord, p: nat)
    requires st.InRange() && |st.segmentOf| < |rs| && rs[|st.segmentOf|] == r
    requires SegInv(rs[..|st.segmentOf|], st) && LastsOk(rs, st) && forall s: nat :: MetaOk(rs, st, s)
    requires Next(rs, p, |st.segmentOf|) && st.segmentOf[p] != Step(st, r).segmentOf[|st.segmentOf|]
    ensures Begins(rs, |st.segmentOf|)
  {
    hide Step, SegInv, MetaOk;
    StepSegment(st, r);
    var n := |st.segmentOf|;
    KeySlotted(rs[..n], st, p);
    var l: nat :| LastIs(rs, st, r.key, l);
    assert l == p;
    if rs[p].ordering.Release? {
      assert FollowsRelease(rs, n);
    } else if !r.ordering.Acquires() {
      var v := st.segmentOf[p];
      assert st.SlotOf(r.key).open == Some(v) && st.metas[v].Cuts(r);
      MixedRelease(rs, st, v, p);
    }
  }

  lemma KeySlotted(rs: seq<PlanRecord>, st: SegState, p: nat)
    requires SegInv(rs, st) && p < |rs|
    ensures |st.segmentOf| == |rs| && st.segmentOf[p] < |st.metas| && rs[p].key in st.slots
  {
  }

  lemma MixedRelease(rs: seq<PlanRecord>, st: SegState, v: nat, p: nat)
    requires |st.segmentOf| < |rs| && SegInv(rs[..|st.segmentOf|], st) && MetaOk(rs, st, v)
    requires Next(rs, p, |st.segmentOf|) && !rs[p].ordering.Release?
    requires v < |st.metas| && st.segmentOf[p] == v
    requires rs[|st.segmentOf|].ordering.Release? && st.metas[v].mixed && st.metas[v].head == Some(rs[|st.segmentOf|].tag)
    ensures ReleasesMixed(rs, |st.segmentOf|)
  {
    hide Inhabited, TailNotHead, OpenOk;
    var n := |st.segmentOf|;
    var h: nat :| HeadBy(rs, st, v, h);
    var o: nat :| MixedBy(rs, st, v, o);
    InSegment(rs[..n], st, h, p);
    InSegment(rs[..n], st, o, p);
    FirstInSegment(rs[..n], st, h, o);
    forall m: nat | h < m < n && rs[m].key == rs[n].key
      ensures rs[m].ordering.Relaxed?
    {
      assert m <= p;
      Between(rs[..n], st, h, m, p);
      NotFirst(rs[..n], st, h, m);
    }
    assert Holds(rs, h, n);
    assert OtherBetween(rs, h, n);
  }

  lemma InSegment(rs: seq<PlanRecord>, st: SegState, i: nat, j: nat)
    requires SegInv(rs, st) && i < |rs| && j < |rs| && st.segmentOf[i] == st.segmentOf[j]
    ensures rs[i].key == rs[j].key
  {
    hide Inhabited, Monotone, AcquireFirst, ReleaseLast, TailNotHead, OpenOk;
  }

  /** An acquiring record is ahead of everything else in its segment. */
  lemma FirstInSegment(rs: seq<PlanRecord>, st: SegState, h: nat, i: nat)
    requires SegInv(rs, st) && h < |rs| && i < |rs| && st.segmentOf[h] == st.segmentOf[i] && rs[h].ordering.Acquires()
    ensures h <= i
  {
    hide Inhabited, Monotone, ReleaseLast, TailNotHead, OpenOk;
  }

  lemma NotFirst(rs: seq<PlanRecord>, st: SegState, h: nat, m: nat)
    requires SegInv(rs, st) && h < m < |rs| && st.segmentOf[h] == st.segmentOf[m]
    ensures !rs[m].ordering.Acquires()
  {
    hide Inhabited, Monotone, ReleaseLast, TailNotHead, OpenOk;
  }

  lemma Between(rs: seq<PlanRecord>, st: SegState, h: nat, m: nat, p: nat)
    requires SegInv(rs, st) && h <= m <= p < |rs| && st.segmentOf[h] == st.segmentOf[p]
    requires rs[h].key == rs[m].key == rs[p].key
    ensures st.segmentOf[m] == st.segmentOf[h]
    ensures m < p ==> !rs[m].ordering.Release?
  {
    hide Inhabited, AcquireFirst, TailNotHead, OpenOk, Indexed;
    SegmentsFit(rs, st);
    assert m > h ==> st.segmentOf[h] <= st.segmentOf[m];
    assert m < p ==> st.segmentOf[m] <= st.segmentOf[p];
  }

  lemma SegmentsFit(rs: seq<PlanRecord>, st: SegState)
    requires SegInv(rs, st)
    ensures |st.segmentOf| == |rs| && forall i :: 0 <= i < |rs| ==> st.segmentOf[i] < |st.metas|
  {
  }

  lemma StepCuts(rs: seq<PlanRecord>, st: SegState, r: PlanRecord)
    requires st.InRange() && |st.segmentOf| < |rs| && rs[|st.segmentOf|] == r
    requires SegInv(rs[..|st.segmentOf|], st) && WalkOk(rs, st)
    ensures CutsOk(rs, Step(st, r))
  {
    hide Step, SegInv, MetaOk, LastsOk, Begins, KeysOk;
    StepSegment(st, r);
    var st', n := Step(st, r), |st.segmentOf|;
    forall p: nat, z: nat | Next(rs, p, z) && z <= n && st'.segmentOf[p] != st'.segmentOf[z]
      ensures Begins(rs, z)
    {
      if z == n {
        StepCut(rs, st, r, p);
      }
    }
  }

  lemma StepWalk(rs: seq<PlanRecord>, st: SegState, r: PlanRecord)
    requires st.InRange() && |st.segmentOf| < |rs| && rs[|st.segmentOf|] == r
    requires SegInv(rs[..|st.segmentOf|], st) && WalkOk(rs, st)
    ensures WalkOk(rs, Step(st, r))
  {
    hide Step, SegInv, MetaOk, LastsOk, CutsOk, KeysOk;
    StepCuts(rs, st, r);
    StepLasts(rs, st, r);
    InvIndexed(rs[..|st.segmentOf|], st);
    StepKeys(rs, st, r);
    forall s: nat ensures MetaOk(rs, Step(st, r), s) {
      StepMeta(rs, st, r, s);
    }
  }

  lemma InvIndexed(rs: seq<PlanRecord>, st: SegState)
    requires SegInv(rs, st)
    ensures Indexed(rs, st) && Inhabited(rs, st)
  {
  }

  lemma NoneWalked(rs: seq<PlanRecord>)
    ensures WalkOk(rs, SegState([], map[], [], []))
  {
  }

  lemma {:induction false} AssignWalk(rs: seq<PlanRecord>, n: nat)
    requires n <= |rs|
    ensures |Assign(rs[..n]).segmentOf| == n && WalkOk(rs, Assign(rs[..n]))
  {
    hide Assign, Step, WalkOk, SegInv;
    AssignInv(rs[..n]);
    SegmentsFit(rs[..n], Assign(rs[..n]));
    if n == 0 {
      AssignNone();
      NoneWalked(rs);
    } else {
      AssignWalk(rs, n - 1);
      AssignInv(rs[..n - 1]);
      AssignSnoc(rs, n - 1);
      StepWalk(rs, Assign(rs[..n - 1]), rs[n - 1]);
    }
  }

  // --- The segments of a log ---

  /** The record before `j` in its key, from `i` on. */
  lemma {:induction false} Previous(rs: seq<PlanRecord>, i: nat, j: nat) returns (p: nat)
    requires i < j < |rs| && rs[i].key == rs[j].key
    ensures i <= p && Next(rs, p, j)
  {
    p := j - 1;
    while rs[p].key != rs[j].key
      invariant i <= p < j && forall m: nat :: p < m < j ==> rs[m].key != rs[j].key
      decreases p
    {
      p := p - 1;
    }
  }

  lemma Walked(rs: seq<PlanRecord>)
    ensures WalkOk(rs, Assign(rs)) && SegInv(rs, Assign(rs))
  {
    hide Assign, WalkOk, SegInv;
    AssignWalk(rs, |rs|);
    AssignInv(rs);
    assert rs[..|rs|] == rs;
  }

  /** A segment ends only at a fence. */
  lemma {:induction false} CutBetween(rs: seq<PlanRecord>, i: nat, j: nat) returns (z: nat)
    requires i < j < |rs| && rs[i].key == rs[j].key && SegmentAt(rs, i) < SegmentAt(rs, j)
    ensures i < z <= j && rs[z].key == rs[j].key && Begins(rs, z)
    decreases j
  {
    hide Assign, Begins, MetaOk, LastsOk, SegInv, KeysOk;
    Walked(rs);
    SegmentsFit(rs, Assign(rs));
    var p := Previous(rs, i, j);
    if SegmentAt(rs, p) != SegmentAt(rs, j) {
      z := j;
    } else {
      z := CutBetween(rs, i, p);
    }
  }

  /** And it does end there. */
  lemma BeginsApart(rs: seq<PlanRecord>, i: nat, z: nat)
    requires i < z < |rs| && rs[i].key == rs[z].key && Begins(rs, z)
    ensures SegmentAt(rs, i) < SegmentAt(rs, z)
  {
    hide Assign, Indexed, Inhabited, OpenOk, ReleasesMixed;
    AssignInv(rs);
    var st := Assign(rs);
    SegmentsFit(rs, st);
    assert st.segmentOf[i] <= st.segmentOf[z];
    if rs[z].ordering.Acquires() {
      assert st.segmentOf[i] != st.segmentOf[z];
    } else if FollowsRelease(rs, z) {
      var p: nat :| Next(rs, p, z) && rs[p].ordering.Release?;
      assert i <= p;
      assert i < p ==> st.segmentOf[i] <= st.segmentOf[p];
      assert st.segmentOf[p] != st.segmentOf[z] && st.segmentOf[p] <= st.segmentOf[z];
    } else {
      MixedApart(rs, i, z);
    }
  }

  lemma MixedApart(rs: seq<PlanRecord>, i: nat, z: nat)
    requires i < z < |rs| && rs[i].key == rs[z].key && ReleasesMixed(rs, z)
    ensures SegmentAt(rs, i) != SegmentAt(rs, z)
  {
    hide Assign, SegInv, Begins;
    AssignInv(rs);
    var st := Assign(rs);
    var h: nat :| Holds(rs, h, z) && rs[h].tag == rs[z].tag && OtherBetween(rs, h, z);
    var o: nat :| h < o < z && rs[o].key == rs[z].key && rs[o].tag != rs[z].tag;
    if SegmentAt(rs, i) == SegmentAt(rs, z) {
      if i < h {
        Between(rs, st, i, h, z);
        FirstInSegment(rs, st, h, i);
      } else {
        NoCut(rs, h, i, z);
        Between(rs, st, h, o, z);
        ReleaseAlone(rs, st, h, o, z);
      }
    }
  }

  /** Relaxed records don't begin segments after an acquiring one. */
  lemma NoCut(rs: seq<PlanRecord>, h: nat, i: nat, z: nat)
    requires Holds(rs, h, z) && h <= i < z && rs[i].key == rs[z].key
    ensures SegmentAt(rs, h) == SegmentAt(rs, i)
  {
    hide Assign, SegmentAt;
    if h < i && SegmentAt(rs, h) != SegmentAt(rs, i) {
      SegmentsGrow(rs, h, i);
      var y := CutBetween(rs, h, i);
      if FollowsRelease(rs, y) {
        var p: nat :| Next(rs, p, y) && rs[p].ordering.Release?;
        HoldsFrom(rs, h, p, y);
      }
    }
  }

  lemma HoldsFrom(rs: seq<PlanRecord>, h: nat, p: nat, y: nat)
    requires Next(rs, p, y) && h < y && rs[h].key == rs[y].key
    ensures h <= p
  {
  }

  lemma SegmentsGrow(rs: seq<PlanRecord>, i: nat, j: nat)
    requires i < j < |rs| && rs[i].key == rs[j].key
    ensures SegmentAt(rs, i) <= SegmentAt(rs, j)
  {
    hide Assign;
    AssignInv(rs);
  }

  lemma ReleaseAlone(rs: seq<PlanRecord>, st: SegState, h: nat, o: nat, z: nat)
    requires SegInv(rs, st) && h < |rs| && o < |rs| && z < |rs|
    requires st.segmentOf[h] == st.segmentOf[o] == st.segmentOf[z]
    requires rs[h].ordering.Acquires() && rs[z].ordering.Release? && rs[h].tag == rs[z].tag
    ensures rs[o].tag == rs[z].tag
  {
    hide Inhabited, Monotone, ReleaseLast, OpenOk;
  }

  ghost predicate BeginsBetween(rs: seq<PlanRecord>, i: nat, j: nat) {
    exists z: nat :: i < z <= j && j < |rs| && rs[z].key == rs[j].key && Begins(rs, z)
  }

  /** The segments of a log, from its records alone: two records of a key are in
      different segments exactly if a fence between them begins one. */
  lemma SegmentsExactly(rs: seq<PlanRecord>, i: nat, j: nat)
    requires i < j < |rs| && rs[i].key == rs[j].key
    ensures SegmentAt(rs, i) < SegmentAt(rs, j) <==> BeginsBetween(rs, i, j)
    ensures SegmentAt(rs, i) == SegmentAt(rs, j) <==> !BeginsBetween(rs, i, j)
  {
    hide SegmentAt, Begins;
    SegmentsGrow(rs, i, j);
    if SegmentAt(rs, i) < SegmentAt(rs, j) {
      var z := CutBetween(rs, i, j);
      assert BeginsBetween(rs, i, j);
    }
    if BeginsBetween(rs, i, j) {
      var z: nat :| i < z <= j && j < |rs| && rs[z].key == rs[j].key && Begins(rs, z);
      BeginsApart(rs, i, z);
      if z < j {
        SegmentsGrow(rs, z, j);
      }
    }
  }

  ghost predicate Acquired(rs: seq<PlanRecord>, i: nat) {
    i < |rs| && exists h: nat :: h < |rs| && SegmentAt(rs, h) == SegmentAt(rs, i) && rs[h].tag == rs[i].tag && rs[h].ordering.Acquires()
  }

  ghost predicate Released(rs: seq<PlanRecord>, i: nat) {
    i < |rs| && exists z: nat :: z < |rs| && SegmentAt(rs, z) == SegmentAt(rs, i) && rs[z].tag == rs[i].tag && rs[z].ordering.Release?
  }

  /** Heads hold the type that acquired their segment, tails the type that
      released it, and bodies everything else. */
  lemma RanksExactly(rs: seq<PlanRecord>, i: nat)
    requires i < |rs|
    ensures RankAt(rs, i) == Head <==> Acquired(rs, i)
    ensures RankAt(rs, i) == Tail <==> !Acquired(rs, i) && Released(rs, i)
  {
    hide Assign, Inhabited, Monotone, TailNotHead, OpenOk, CutsOk, LastsOk, KeysOk;
    Walked(rs);
    var st := Assign(rs);
    var s := st.segmentOf[i];
    assert MetaOk(rs, st, s);
    if st.metas[s].head == Some(rs[i].tag) {
      var h: nat :| HeadBy(rs, st, s, h);
      assert Acquired(rs, i);
    }
    if st.metas[s].tail == Some(rs[i].tag) {
      var z: nat :| TailBy(rs, st, s, z);
      assert Released(rs, i);
    }
  }

  /** Keys come in the order of their first records. */
  lemma KeysInOrder(rs: seq<PlanRecord>, m: nat, n: nat, j: nat)
    requires m < n < |Assign(rs).keys| && j < |rs| && rs[j].key == Assign(rs).keys[n]
    ensures SeenBefore(rs, Assign(rs).keys[m], j)
  {
    hide Assign, MetaOk, LastsOk, CutsOk, SegInv;
    Walked(rs);
    SegmentsFit(rs, Assign(rs));
    assert KeysOk(rs, Assign(rs));
  }
}
