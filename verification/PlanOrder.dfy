/** The order a plan enforces, and that it is the one the fences require. */
module PlanOrder {
  import opened Wrappers
  import opened Events
  import opened Segmentation

  /** Rank of record `i` inside its segment. */
  ghost function RankAt(rs: seq<PlanRecord>, i: nat): Rank
    requires i < |rs|
  {
    AssignInv(rs);
    Assign(rs).metas[Assign(rs).segmentOf[i]].RankOf(rs[i].tag)
  }

  ghost function SegmentAt(rs: seq<PlanRecord>, i: nat): nat
    requires i < |rs|
  {
    AssignInv(rs);
    Assign(rs).segmentOf[i]
  }

  /** The plan makes record `j` wait for record `i`: within a key, for earlier
      segments, within a segment for earlier ranks, within a run for earlier
      records. */
  ghost predicate Precedes(rs: seq<PlanRecord>, i: nat, j: nat) {
    && i < |rs| && j < |rs|
    && rs[i].key == rs[j].key
    && (|| SegmentAt(rs, i) < SegmentAt(rs, j)
        || (&& SegmentAt(rs, i) == SegmentAt(rs, j)
            && (|| (rs[i].tag == rs[j].tag && i < j)
                || RankAt(rs, i).Index() < RankAt(rs, j).Index())))
  }

  /** The plan keeps every order the fences and types of the log require. */
  lemma RequiredPrecedes(rs: seq<PlanRecord>, i: nat, j: nat)
    requires i < j < |rs| && Required(rs[i], rs[j])
    ensures Precedes(rs, i, j)
  {
    hide Assign;
    AssignInv(rs);
    var st := Assign(rs);
    assert st.segmentOf[i] <= st.segmentOf[j];
    if st.segmentOf[i] == st.segmentOf[j] && rs[i].tag != rs[j].tag {
      if rs[i].ordering.Acquires() {
        assert RankAt(rs, i) == Head && RankAt(rs, j) != Head;
      } else {
        assert rs[j].ordering.Release?;
        assert RankAt(rs, j) == Tail && RankAt(rs, i) != Tail;
      }
    }
  }

  /** A cut orders everything before it against everything from it on. */
  lemma CutPrecedes(rs: seq<PlanRecord>, i: nat, z: nat, j: nat)
    requires i < z <= j < |rs| && rs[i].key == rs[z].key == rs[j].key
    requires rs[z].ordering.Acquires()
    ensures SegmentAt(rs, i) < SegmentAt(rs, z) <= SegmentAt(rs, j)
    ensures Precedes(rs, i, j)
  {
    hide Assign;
    AssignInv(rs);
  }

  /** The order of a plan is a strict partial order. */
  lemma PrecedesIrreflexive(rs: seq<PlanRecord>, i: nat, j: nat)
    requires Precedes(rs, i, j)
    ensures i != j && !Precedes(rs, j, i)
  {
  }

  lemma PrecedesTransitive(rs: seq<PlanRecord>, i: nat, j: nat, k: nat)
    requires Precedes(rs, i, j) && Precedes(rs, j, k)
    ensures Precedes(rs, i, k)
  {
  }

  /** A chain of records each of which must stay before the next. */
  ghost predicate RequiredChain(rs: seq<PlanRecord>, chain: seq<nat>) {
    && (forall c :: 0 <= c < |chain| ==> chain[c] < |rs|)
    && forall c {:trigger chain[c]} :: 0 <= c < |chain| - 1 ==>
         chain[c] < chain[c + 1] && Required(rs[chain[c]], rs[chain[c + 1]])
  }

  /** The plan keeps the transitive closure of what the log requires. */
  lemma {:induction false} ChainPrecedes(rs: seq<PlanRecord>, chain: seq<nat>)
    requires |chain| >= 2 && RequiredChain(rs, chain)
    ensures Precedes(rs, chain[0], chain[|chain| - 1])
  {
    RequiredPrecedes(rs, chain[0], chain[1]);
    if |chain| > 2 {
      var rest := chain[1..];
      forall c | 0 <= c < |rest| - 1
        ensures rest[c] < rest[c + 1] && Required(rs[rest[c]], rs[rest[c + 1]])
      {
        assert rest[c] == chain[c + 1] && rest[c + 1] == chain[c + 2];
      }
      ChainPrecedes(rs, rest);
      PrecedesTransitive(rs, chain[0], chain[1], chain[|chain| - 1]);
    }
  }
}
