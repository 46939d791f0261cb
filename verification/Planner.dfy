/** Building the execution plan of one polled batch. */
module Planner {
  import opened Wrappers
  import opened Events
  import opened Segmentation
  import opened PlanOrder
  import opened Commuting

  /** The positions `lo..hi` of `order` that hold a type's records of a segment. */
  datatype Run = Run(tag: Tag, lo: nat, hi: nat)

  /** Indices of the runs of one segment. */
  datatype Segment = Segment(head: Option<nat>, bodyLo: nat, bodyHi: nat, tail: Option<nat>)

  /** Segments `lo..hi` belong to `key`. */
  datatype KeyPlan = KeyPlan(key: Key, lo: nat, hi: nat)

  /** A run as its type and the indices of its records, in log order. */
  datatype RunView = RunView(tag: Tag, records: seq<nat>)

  /** Runs with no order among them. */
  type Stage = seq<RunView>

  datatype Plan = Plan(order: seq<nat>, runs: seq<Run>, segments: seq<Segment>, keys: seq<KeyPlan>)
  {
    predicate InRange() {
      && (forall r :: 0 <= r < |runs| ==> runs[r].lo <= runs[r].hi <= |order|)
      && (forall q :: 0 <= q < |segments| ==>
            && (segments[q].head.Some? ==> segments[q].head.value < |runs|)
            && segments[q].bodyLo <= segments[q].bodyHi <= |runs|
            && (segments[q].tail.Some? ==> segments[q].tail.value < |runs|))
      && (forall k :: 0 <= k < |keys| ==> keys[k].lo <= keys[k].hi <= |segments|)
    }

    function RunOf(r: nat): RunView
      requires InRange() && r < |runs|
    {
      RunView(runs[r].tag, order[runs[r].lo..runs[r].hi])
    }

    /** The first stage of segment `q`: its head, if it has one. */
    function HeadRuns(q: nat): Stage
      requires InRange() && q < |segments|
    {
      match segments[q].head case Some(r) => [RunOf(r)] case None => []
    }

    /** Runs between the head and the tail. */
    function BodyRuns(q: nat): Stage
      requires InRange() && q < |segments|
    {
      seq(segments[q].bodyHi - segments[q].bodyLo,
          b requires 0 <= b < segments[q].bodyHi - segments[q].bodyLo => RunOf(segments[q].bodyLo + b))
    }

    /** The last stage of segment `q`: its tail, if it has one. */
    function TailRuns(q: nat): Stage
      requires InRange() && q < |segments|
    {
      match segments[q].tail case Some(r) => [RunOf(r)] case None => []
    }

    /** Stage `g` of key `k`: the head, body and tail of its segments in turn. */
    function StageAt(k: nat, g: nat): Stage
      requires InRange() && k < |keys| && g < 3 * (keys[k].hi - keys[k].lo)
    {
      var q := keys[k].lo + g / 3;
      if g % 3 == 0 then HeadRuns(q) else if g % 3 == 1 then BodyRuns(q) else TailRuns(q)
    }

    /** The stages of key `k`, three per segment. */
    function Stages(k: nat): seq<Stage>
      requires InRange() && k < |keys|
    {
      seq(3 * (keys[k].hi - keys[k].lo), g requires 0 <= g < 3 * (keys[k].hi - keys[k].lo) => StageAt(k, g))
    }
  }

  /** `run` may stand in stage `g` of `key`: its records have its key, its type
      and the rank of the stage, and are in log order. */
  ghost predicate RunOk(rs: seq<PlanRecord>, key: Key, run: RunView, g: nat) {
    && run.records != []
    && Increasing(run.records)
    && forall p :: 0 <= p < |run.records| ==>
         && run.records[p] < |rs|
         && rs[run.records[p]].key == key
         && rs[run.records[p]].tag == run.tag
         && RankAt(rs, run.records[p]).Index() == g % 3
  }

  /** Record `i` is in run `b` of stage `g`. */
  ghost predicate At(stages: seq<Stage>, g: nat, b: nat, i: nat) {
    g < |stages| && b < |stages[g]| && i in stages[g][b].records
  }

  /** Every run is in a stage of its own rank. */
  ghost predicate RunsOk(rs: seq<PlanRecord>, key: Key, stages: seq<Stage>) {
    forall g, b :: 0 <= g < |stages| && 0 <= b < |stages[g]| ==> RunOk(rs, key, stages[g][b], g)
  }

  /** The runs of a stage have different types, in increasing order. */
  ghost predicate TagsIncrease(stages: seq<Stage>) {
    forall g, b, c :: 0 <= g < |stages| && 0 <= b < c < |stages[g]| ==> stages[g][b].tag < stages[g][c].tag
  }

  /** The segments follow log order, and records of one segment stay together. */
  ghost predicate SegmentsOk(rs: seq<PlanRecord>, stages: seq<Stage>) {
    forall g: nat, b: nat, i: nat, g': nat, b': nat, i': nat :: At(stages, g, b, i) && At(stages, g', b', i') && i < |rs| && i' < |rs| ==>
      && (g / 3 < g' / 3 ==> SegmentAt(rs, i) < SegmentAt(rs, i'))
      && (g / 3 == g' / 3 ==> SegmentAt(rs, i) == SegmentAt(rs, i'))
  }

  /** Every record of the key is planned. */
  ghost predicate Complete(rs: seq<PlanRecord>, key: Key, stages: seq<Stage>) {
    forall i :: 0 <= i < |rs| && rs[i].key == key ==> exists g, b :: At(stages, g, b, i)
  }

  /** `stages` is the plan of `key` in the batch `rs`. */
  ghost predicate KeyOk(rs: seq<PlanRecord>, key: Key, stages: seq<Stage>) {
    && |stages| % 3 == 0
    && RunsOk(rs, key, stages)
    && TagsIncrease(stages)
    && (forall g :: 0 <= g < |stages| && g % 3 != 1 ==> |stages[g]| <= 1)
    && SegmentsOk(rs, stages)
    && Complete(rs, key, stages)
  }

  /** `plan` is the plan of the batch `rs`. */
  ghost predicate PlanOk(rs: seq<PlanRecord>, plan: Plan) {
    && plan.InRange()
    && |plan.keys| == |Assign(rs).keys|
    && forall k :: 0 <= k < |plan.keys| ==>
         plan.keys[k].key == Assign(rs).keys[k] && KeyOk(rs, plan.keys[k].key, plan.Stages(k))
  }

  /** The runs tile `order` without gaps. */
  ghost predicate Tiles(runs: seq<Run>, upto: nat) {
    && (forall r :: 0 <= r < |runs| ==> runs[r].lo < runs[r].hi <= upto)
    && (runs == [] ==> upto == 0)
    && (runs != [] ==> runs[0].lo == 0 && runs[|runs| - 1].hi == upto)
    && forall r {:trigger runs[r]} :: 0 <= r < |runs| - 1 ==> runs[r].hi == runs[r + 1].lo
  }

  /** Records `i` and `j` share a key, a segment and a type. */
  ghost predicate SameRun(rs: seq<PlanRecord>, i: nat, j: nat) {
    && i < |rs| && j < |rs|
    && rs[i].key == rs[j].key && rs[i].tag == rs[j].tag && SegmentAt(rs, i) == SegmentAt(rs, j)
  }

  /** `order` holds every record once, in an order the plan allows, and is cut
      into runs of one key, segment and type each. */
  ghost predicate Canonical(rs: seq<PlanRecord>, plan: Plan) {
    && plan.InRange()
    && Permutation(plan.order, |rs|)
    && Tiles(plan.runs, |rs|)
    && (forall a, b :: 0 <= a < b < |plan.order| ==> !Precedes(rs, plan.order[b], plan.order[a]))
    && (forall r, a, b :: 0 <= r < |plan.runs| && plan.runs[r].lo <= a < b < plan.runs[r].hi ==>
          SameRun(rs, plan.order[a], plan.order[b]))
    && (forall r :: 0 <= r < |plan.runs| ==> rs[plan.order[plan.runs[r].lo]].tag == plan.runs[r].tag)
    && (forall r, r' :: 0 <= r < r' < |plan.runs| ==>
          !SameRun(rs, plan.order[plan.runs[r].lo], plan.order[plan.runs[r'].lo]))
  }

  lemma AtIs(rs: seq<PlanRecord>, key: Key, stages: seq<Stage>, g: nat, b: nat, i: nat)
    requires RunsOk(rs, key, stages) && At(stages, g, b, i)
    ensures i < |rs| && rs[i].key == key && rs[i].tag == stages[g][b].tag && RankAt(rs, i).Index() == g % 3
  {
    assert RunOk(rs, key, stages[g][b], g);
    var p :| 0 <= p < |stages[g][b].records| && stages[g][b].records[p] == i;
  }

  /** A record is planned only once. */
  lemma PlannedOnce(rs: seq<PlanRecord>, key: Key, stages: seq<Stage>, g: nat, b: nat, g': nat, b': nat, i: nat)
    requires KeyOk(rs, key, stages) && At(stages, g, b, i) && At(stages, g', b', i)
    ensures g == g' && b == b'
  {
    AtIs(rs, key, stages, g, b, i);
    AtIs(rs, key, stages, g', b', i);
    assert g / 3 == g' / 3;
    assert g == 3 * (g / 3) + g % 3 && g' == 3 * (g' / 3) + g' % 3;
  }

  /** In terms of places, the order of the plan is: an earlier stage, or
      earlier in the same run. */
  lemma PrecedesAt(rs: seq<PlanRecord>, key: Key, stages: seq<Stage>,
                   g: nat, b: nat, i: nat, g': nat, b': nat, i': nat)
    requires KeyOk(rs, key, stages) && At(stages, g, b, i) && At(stages, g', b', i')
    ensures Precedes(rs, i, i') <==> g < g' || (g == g' && b == b' && i < i')
  {
    AtIs(rs, key, stages, g, b, i);
    AtIs(rs, key, stages, g', b', i');
    assert g == 3 * (g / 3) + g % 3 && g' == 3 * (g' / 3) + g' % 3;
    if g == g' && b < b' {
      assert stages[g][b].tag < stages[g][b'].tag;
    } else if g == g' && b' < b {
      assert stages[g][b'].tag < stages[g][b].tag;
    }
  }
}
