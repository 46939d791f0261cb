/** Executing one key record by record, without reduction: what is handled,
    what is finished and what is left. */
module Execution {
  import opened Wrappers
  import opened Events
  import opened PlanOrder
  import opened Planner
  import opened Work

  /** The records of a run that decode. */
  ghost function Decoded(records: seq<nat>, good: set<nat>): seq<nat> {
    if records == [] then []
    else
      var n := |records| - 1;
      Decoded(records[..n], good) + (if records[n] in good then [records[n]] else [])
  }

  /** The records of every run that decode. */
  ghost function RecordWork(stages: seq<Stage>, good: set<nat>): (work: Work<nat>)
    ensures |work| == |stages| && forall g :: 0 <= g < |stages| ==> |work[g]| == |stages[g]|
    ensures forall g, b {:trigger work[g][b]} :: 0 <= g < |stages| && 0 <= b < |stages[g]| ==>
              work[g][b] == Decoded(stages[g][b].records, good)
  {
    seq(|stages|, g requires 0 <= g < |stages| =>
      seq(|stages[g]|, b requires 0 <= b < |stages[g]| => Decoded(stages[g][b].records, good)))
  }

  lemma {:induction false} DecodedIs(records: seq<nat>, good: set<nat>, i: nat)
    ensures i in Decoded(records, good) <==> i in records && i in good
  {
    if records != [] {
      var n := |records| - 1;
      DecodedIs(records[..n], good, i);
      assert records == records[..n] + [records[n]];
    }
  }

  lemma {:induction false} DecodedIncreasing(records: seq<nat>, good: set<nat>)
    requires Increasing(records)
    ensures Increasing(Decoded(records, good))
  {
    if records != [] {
      var n := |records| - 1;
      var rest := Decoded(records[..n], good);
      DecodedIncreasing(records[..n], good);
      forall a | 0 <= a < |rest|
        ensures rest[a] < records[n]
      {
        DecodedIs(records[..n], good, rest[a]);
      }
    }
  }

  /** The items of a run are its records that decode, in log order. */
  lemma WorkIs(rs: seq<PlanRecord>, key: Key, stages: seq<Stage>, good: set<nat>, g: nat, b: nat)
    requires RunsOk(rs, key, stages) && g < |stages| && b < |stages[g]|
    ensures Increasing(RecordWork(stages, good)[g][b])
    ensures forall i: nat :: i in RecordWork(stages, good)[g][b] <==> At(stages, g, b, i) && i in good
  {
    assert RunOk(rs, key, stages[g][b], g);
    DecodedIncreasing(stages[g][b].records, good);
    forall i: nat
      ensures i in RecordWork(stages, good)[g][b] <==> At(stages, g, b, i) && i in good
    {
      DecodedIs(stages[g][b].records, good, i);
    }
  }

  /** Run `b` of stage `g` completed. */
  ghost predicate RunDone(out: Outcome, g: nat, b: nat) {
    g < out.stop || (g == out.stop && b < |out.fail| && out.fail[b].None?)
  }

  /** Run `b` of stage `g` failed. */
  ghost predicate RunFailed(out: Outcome, g: nat, b: nat) {
    g == out.stop && b < |out.fail| && out.fail[b].Some?
  }

  /** Item `i` of run `b` of stage `g` was handled. */
  ghost predicate HandledItem(work: Work<nat>, progress: Progress, g: nat, b: nat, i: nat) {
    g < |work| && b < |work[g]| && i in Handled(work, progress, g, b)
  }

  ghost predicate HandledAt(work: Work<nat>, progress: Progress, i: nat) {
    exists g: nat, b: nat :: HandledItem(work, progress, g, b, i)
  }

  ghost predicate Distinct(s: seq<nat>) {
    forall p, q :: 0 <= p < q < |s| ==> s[p] != s[q]
  }

  /** `done` is an order in which an execution of the stages of `key` that ended
      with `out` may have handled records of the batch. */
  ghost predicate Executes(rs: seq<PlanRecord>, key: Key, stages: seq<Stage>, good: set<nat>, out: Outcome, done: seq<nat>) {
    && KeyOk(rs, key, stages)
    && OutcomeOk(RecordWork(stages, good), out)
    && Distinct(done)
    && (forall i: nat :: i in done <==> HandledAt(RecordWork(stages, good), Reached(out), i))
    && (forall p, q :: 0 <= p < q < |done| ==> !Precedes(rs, done[q], done[p]))
  }

  lemma PlaceOf(rs: seq<PlanRecord>, key: Key, stages: seq<Stage>, i: nat) returns (g: nat, b: nat)
    requires KeyOk(rs, key, stages) && i < |rs| && rs[i].key == key
    ensures At(stages, g, b, i)
  {
    g, b :| At(stages, g, b, i);
  }

  /** A handled record decodes, and its run completed or failed. */
  lemma HandledPlace(rs: seq<PlanRecord>, key: Key, stages: seq<Stage>, good: set<nat>, out: Outcome, i: nat)
    returns (g: nat, b: nat)
    requires KeyOk(rs, key, stages) && OutcomeOk(RecordWork(stages, good), out)
    requires HandledAt(RecordWork(stages, good), Reached(out), i)
    ensures HandledItem(RecordWork(stages, good), Reached(out), g, b, i)
    ensures At(stages, g, b, i) && i in good && i < |rs| && rs[i].key == key
    ensures RunDone(out, g, b) || RunFailed(out, g, b)
  {
    hide RunOk, SegmentsOk, Decoded;
    g, b :| HandledItem(RecordWork(stages, good), Reached(out), g, b, i);
    WorkIs(rs, key, stages, good, g, b);
    assert i in RecordWork(stages, good)[g][b];
    AtIs(rs, key, stages, g, b, i);
  }

  /** Everything that decodes was handled in a completed run. */
  lemma DoneHandled(rs: seq<PlanRecord>, key: Key, stages: seq<Stage>, good: set<nat>, out: Outcome, g: nat, b: nat, i: nat)
    requires KeyOk(rs, key, stages) && OutcomeOk(RecordWork(stages, good), out)
    requires At(stages, g, b, i) && RunDone(out, g, b) && i in good
    ensures HandledAt(RecordWork(stages, good), Reached(out), i)
  {
    hide RunOk, SegmentsOk, Decoded;
    var work := RecordWork(stages, good);
    WorkIs(rs, key, stages, good, g, b);
    assert Handled(work, Reached(out), g, b) == work[g][b];
    assert HandledItem(work, Reached(out), g, b, i);
  }

  /** What the plan puts before a handled record was handled: it is in an
      earlier stage, all of which completed, or earlier in the same run. */
  lemma BeforeHandled(rs: seq<PlanRecord>, key: Key, stages: seq<Stage>, good: set<nat>, out: Outcome, i: nat, j: nat)
    returns (g: nat, b: nat)
    requires KeyOk(rs, key, stages) && OutcomeOk(RecordWork(stages, good), out)
    requires HandledAt(RecordWork(stages, good), Reached(out), j) && Precedes(rs, i, j)
    ensures At(stages, g, b, i)
    ensures i in good ==> HandledAt(RecordWork(stages, good), Reached(out), i)
    ensures rs[i].tag != rs[j].tag ==> RunDone(out, g, b)
  {
    hide RunOk, SegmentsOk, Decoded, Precedes;
    var work := RecordWork(stages, good);
    var g', b' := HandledPlace(rs, key, stages, good, out, j);
    assert rs[i].key == rs[j].key by { PrecedesSameKey(rs, i, j); }
    g, b := PlaceOf(rs, key, stages, i);
    PrecedesAt(rs, key, stages, g, b, i, g', b', j);
    if g < g' {
      assert RunDone(out, g, b);
      if i in good {
        DoneHandled(rs, key, stages, good, out, g, b, i);
      }
    } else {
      AtIs(rs, key, stages, g, b, i);
      AtIs(rs, key, stages, g', b', j);
      if i in good {
        WorkIs(rs, key, stages, good, g, b);
        PrefixHolds(work[g][b], DoneCount(work, Reached(out), g, b), i, j);
        assert HandledItem(work, Reached(out), g, b, i);
      }
    }
  }

  lemma PrecedesSameKey(rs: seq<PlanRecord>, i: nat, j: nat)
    requires Precedes(rs, i, j)
    ensures i < |rs| && j < |rs| && rs[i].key == rs[j].key && i != j
  {
  }

  lemma PrefixHolds(s: seq<nat>, n: nat, i: nat, j: nat)
    requires Increasing(s) && n <= |s| && i in s && j in s[..n] && i < j
    ensures i in s[..n]
  {
    var p :| 0 <= p < |s| && s[p] == i;
    var q :| 0 <= q < n && s[q] == j;
    assert p < n;
    assert s[..n][p] == i;
  }

  /** What the plan puts before a handled record was handled earlier. */
  lemma DoneInOrder(rs: seq<PlanRecord>, key: Key, stages: seq<Stage>, good: set<nat>, out: Outcome, done: seq<nat>, i: nat, q: nat)
    requires Executes(rs, key, stages, good, out, done)
    requires q < |done| && Precedes(rs, i, done[q]) && i in good
    ensures exists p :: 0 <= p < q && done[p] == i
  {
    hide KeyOk, OutcomeOk, HandledAt, Precedes;
    var _, _ := BeforeHandled(rs, key, stages, good, out, i, done[q]);
    assert i in done;
    var p :| 0 <= p < |done| && done[p] == i;
    PrecedesSameKey(rs, i, done[q]);
  }
}
