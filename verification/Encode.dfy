/** From what is left of a key to its retry records, with the fences that keep
    its stages apart. */
module Encode {
  import opened Wrappers
  import opened Events
  import opened Planner
  import opened Commuting
  import opened Work
  import opened Handler
  import opened Execute

  /** A retry record: what is handled when it is retried, its type and its fence. */
  datatype Entry<T> = Entry(item: T, tag: Tag, ordering: Ordering)

  /** The fence on entry `i` of a run of `len` entries: `Acquire` on the first of
      rank 0 (head), `Release` on the last of rank 2 (tail), none elsewhere. */
  function StageOrdering(rank: nat, len: nat, i: nat): Ordering {
    if rank == 0 && i == 0 then Acquire
    else if rank == 2 && i + 1 == len then Release
    else Relaxed
  }

  function RunEntries<T>(rank: nat, tag: Tag, items: seq<T>): seq<Entry<T>> {
    seq(|items|, i requires 0 <= i < |items| => Entry(items[i], tag, StageOrdering(rank, |items|, i)))
  }

  /** The entries of the runs of a stage. */
  ghost function StageEntries<T>(rank: nat, stage: Stage, items: seq<seq<T>>): seq<Entry<T>>
    requires |items| == |stage|
  {
    if stage == [] then []
    else
      var n := |stage| - 1;
      StageEntries(rank, stage[..n], items[..n]) + RunEntries(rank, stage[n].tag, items[n])
  }

  /** The entries of the first `g` stages. */
  ghost function KeyEntries<T>(stages: seq<Stage>, items: Work<T>, g: nat): seq<Entry<T>>
    requires g <= |stages| == |items| && forall k :: 0 <= k < |stages| ==> |items[k]| == |stages[k]|
  {
    if g == 0 then [] else KeyEntries(stages, items, g - 1) + StageEntries((g - 1) % 3, stages[g - 1], items[g - 1])
  }

  /** What is still to be handled of every run. */
  ghost function LeftWork<T>(work: Work<T>, progress: Progress): (left: Work<T>)
    ensures |left| == |work| && forall g :: 0 <= g < |work| ==> |left[g]| == |work[g]|
  {
    seq(|work|, g requires 0 <= g < |work| =>
      seq(|work[g]|, b requires 0 <= b < |work[g]| => Left(work, progress, g, b)))
  }

  /** The serialized events still to be handled of every run. */
  ghost function LeftPayloads<P, E>(h: Handlers<P, E>, stages: seq<Stage>, work: Work<E>, progress: Progress): (left: Work<P>)
    requires |work| == |stages| && forall g :: 0 <= g < |stages| ==> |work[g]| == |stages[g]|
    ensures |left| == |stages| && forall g :: 0 <= g < |stages| ==> |left[g]| == |stages[g]|
  {
    seq(|stages|, g requires 0 <= g < |stages| =>
      seq(|stages[g]|, b requires 0 <= b < |stages[g]| => Encoded(h, stages[g][b].tag, Left(work, progress, g, b))))
  }

  /** The failure an execution that got to `progress` reports. */
  ghost predicate FailureOf<P, E>(h: Handlers<P, E>, stages: seq<Stage>, work: Work<E>, progress: Progress, failure: Option<KeyFailure<P>>)
    requires |work| == |stages| && forall g :: 0 <= g < |stages| ==> |work[g]| == |stages[g]|
  {
    match progress
    case Untouched => failure == None
    case Reached(out) =>
      && OutcomeOk(work, out)
      && out.stop < |stages|
      && failure == Some(KeyFailure(out.stop / 3, FailedIn(h, out.stop % 3, stages[out.stop], work[out.stop], out.fail)))
  }

  /** The failed runs are those of the outcome, each at its own place. */
  lemma {:induction false} FailedInIs<P, E>(h: Handlers<P, E>, rank: nat, stage: Stage, work: seq<seq<E>>, fail: seq<Option<nat>>, fr: FailedRun<P>)
    requires FailFits(work, fail) && |stage| == |work|
    ensures fr in FailedIn(h, rank, stage, work, fail) <==>
      && fr.stage.rank == rank
      && fr.stage.place < |stage|
      && fail[fr.stage.place].Some?
      && fr == FailedRun(StagePos(rank, fr.stage.place), stage[fr.stage.place].records,
                         Encoded(h, stage[fr.stage.place].tag, work[fr.stage.place][fail[fr.stage.place].value..]))
  {
    if stage != [] {
      var n := |stage| - 1;
      FailedInIs(h, rank, stage[..n], work[..n], fail[..n], fr);
    }
  }

  ghost predicate StagesDistinct<P>(failed: seq<FailedRun<P>>) {
    forall p, q :: 0 <= p < q < |failed| ==> failed[p].stage != failed[q].stage
  }

  lemma {:induction false} FailedInDistinct<P, E>(h: Handlers<P, E>, rank: nat, stage: Stage, work: seq<seq<E>>, fail: seq<Option<nat>>)
    requires FailFits(work, fail) && |stage| == |work|
    ensures StagesDistinct(FailedIn(h, rank, stage, work, fail))
  {
    if stage != [] {
      var n := |stage| - 1;
      FailedInDistinct(h, rank, stage[..n], work[..n], fail[..n]);
      forall fr | fr in FailedIn(h, rank, stage[..n], work[..n], fail[..n])
        ensures fr.stage.place < n
      {
        FailedInIs(h, rank, stage[..n], work[..n], fail[..n], fr);
      }
    }
  }

  /** Removes the failed run of a stage, if there is one. */
  method TakeFailed<P>(failed: seq<FailedRun<P>>, stage: StagePos) returns (found: Option<FailedRun<P>>, rest: seq<FailedRun<P>>)
    requires StagesDistinct(failed)
    ensures found.None? ==> rest == failed && forall fr :: fr in failed ==> fr.stage != stage
    ensures found.Some? ==> found.value in failed && found.value.stage == stage
    ensures forall fr :: fr in rest <==> fr in failed && fr.stage != stage
    ensures StagesDistinct(rest)
  {
    for position := 0 to |failed|
      invariant forall p :: 0 <= p < position ==> failed[p].stage != stage
    {
      if failed[position].stage == stage {
        var last := |failed| - 1;
        rest := failed[position := failed[last]][..last];
        forall fr | fr in failed && fr.stage != stage
          ensures fr in rest
        {
          var p :| 0 <= p < |failed| && failed[p] == fr;
          assert rest[if p == last then position else p] == fr;
        }
        return Some(failed[position]), rest;
      }
    }
    return None, failed;
  }

  /** What is written of the runs of a stage: nothing before the failed stage of
      the failed segment, the remainders of the failed runs in it, and the
      reduced runs everywhere else. */
  ghost predicate Unfinished<P, E>(h: Handlers<P, E>, rank: nat, stage: Stage, payloads: seq<P>, failedRank: Option<nat>,
                                   failed: seq<FailedRun<P>>, items: seq<seq<P>>)
    requires StageFits(stage, |payloads|)
  {
    && |items| == |stage|
    && forall b :: 0 <= b < |stage| ==>
         if failedRank.Some? && rank < failedRank.value then items[b] == []
         else if failedRank == Some(rank) then
           && (forall fr :: fr in failed && fr.stage == StagePos(rank, b) ==> items[b] == fr.remainder)
           && ((forall fr :: fr in failed ==> fr.stage != StagePos(rank, b)) ==> items[b] == [])
         else items[b] == Encoded(h, stage[b].tag, ReducedRun(h, stage[b].tag, Pick(payloads, stage[b].records)))
  }

  /** Nothing is written of a run of an unknown type. */
  ghost predicate UnknownEmpty<P, E>(h: Handlers<P, E>, stage: Stage, items: seq<seq<P>>) {
    |items| == |stage| && forall b :: 0 <= b < |stage| && h.algebra(stage[b].tag).None? ==> items[b] == []
  }

  method ReduceRun<P, E(==)>(h: Handlers<P, E>, tag: Tag, payloads: seq<P>) returns (reduced: seq<P>)
    ensures reduced == Encoded(h, tag, ReducedRun(h, tag, payloads))
  {
    var alg := h.algebra(tag);
    if alg.None? {
      return [];
    }
    var events := DecodeRun(h, tag, alg.value, payloads);
    reduced := EncodeRun(h, tag, events);
  }

  /** Writes the payloads of one run. */
  method PushRun<P, E(==)>(h: Handlers<P, E>, entries: seq<Entry<P>>, rank: nat, tag: Tag, payloads: seq<P>)
    returns (entries': seq<Entry<P>>)
    ensures entries' == if h.algebra(tag).None? then entries else entries + RunEntries(rank, tag, payloads)
  {
    if h.algebra(tag).None? {
      return entries;
    }
    entries' := entries + RunEntries(rank, tag, payloads);
  }

  /** Writes what is unfinished of one stage. */
  method EncodeStage<P, E(==)>(h: Handlers<P, E>, rank: nat, stage: Stage, payloads: seq<P>, failedRank: Option<nat>,
                               failed: seq<FailedRun<P>>, ghost items: seq<seq<P>>)
    returns (entries: seq<Entry<P>>, failed': seq<FailedRun<P>>)
    requires StageFits(stage, |payloads|) && StagesDistinct(failed)
    requires Unfinished(h, rank, stage, payloads, failedRank, failed, items) && UnknownEmpty(h, stage, items)
    ensures entries == StageEntries(rank, stage, items)
    ensures StagesDistinct(failed') && (failedRank != Some(rank) ==> failed' == failed)
  {
    hide ReducedRun, Encoded;
    entries, failed' := [], failed;
    for b := 0 to |stage|
      invariant entries == StageEntries(rank, stage[..b], items[..b])
      invariant StagesDistinct(failed') && (failedRank != Some(rank) ==> failed' == failed)
      invariant forall fr :: fr in failed' <==> fr in failed && !(failedRank == Some(rank) && fr.stage.rank == rank && fr.stage.place < b)
    {
      assert stage[..b + 1][..b] == stage[..b] && items[..b + 1][..b] == items[..b];
      assert RunEntries<P>(rank, stage[b].tag, []) == [];
      var run := stage[b];
      if failedRank.Some? && rank < failedRank.value {
        continue;
      }
      var written;
      if failedRank == Some(rank) {
        var found, rest := TakeFailed(failed', StagePos(rank, b));
        failed' := rest;
        if found.None? {
          continue;
        }
        written := found.value.remainder;
      } else {
        written := ReduceRun(h, run.tag, Pick(payloads, run.records));
      }
      entries := PushRun(h, entries, rank, run.tag, written);
    }
    assert stage[..|stage|] == stage && items[..|stage|] == items;
  }

  lemma {:induction false} NoStageEntries<T>(rank: nat, stage: Stage, items: seq<seq<T>>)
    requires |items| == |stage| && forall b :: 0 <= b < |items| ==> items[b] == []
    ensures StageEntries(rank, stage, items) == []
  {
    if stage != [] {
      NoStageEntries(rank, stage[..|stage| - 1], items[..|stage| - 1]);
    }
  }

  /** If stages up to `g` have no items, the entries up to `g` are none. */
  lemma {:induction false} NoEntriesBefore<T>(stages: seq<Stage>, items: Work<T>, g: nat)
    requires g <= |stages| == |items| && forall k :: 0 <= k < |stages| ==> |items[k]| == |stages[k]|
    requires forall k, b :: 0 <= k < g && 0 <= b < |items[k]| ==> items[k][b] == []
    ensures KeyEntries(stages, items, g) == []
  {
    if g > 0 {
      NoEntriesBefore(stages, items, g - 1);
      NoStageEntries((g - 1) % 3, stages[g - 1], items[g - 1]);
    }
  }

  /** Whether `failedRank` and `failed` describe stage `g` of a key that got to `progress`. */
  ghost predicate Resumes<P, E>(h: Handlers<P, E>, stages: seq<Stage>, work: Work<E>, progress: Progress, g: nat,
                                failedRank: Option<nat>, failed: seq<FailedRun<P>>)
    requires |work| == |stages| && forall g :: 0 <= g < |stages| ==> |work[g]| == |stages[g]|
  {
    match progress
    case Untouched => failedRank == None
    case Reached(out) =>
      && OutcomeOk(work, out) && out.stop < |stages|
      && 3 * (out.stop / 3) <= g
      && failedRank == (if g / 3 == out.stop / 3 then Some(out.stop % 3) else None)
      && (g <= out.stop ==> failed == FailedIn(h, out.stop % 3, stages[out.stop], work[out.stop], out.fail))
  }

  lemma UnfinishedIsLeft<P, E>(h: Handlers<P, E>, stages: seq<Stage>, payloads: seq<P>, progress: Progress, g: nat,
                               failedRank: Option<nat>, failed: seq<FailedRun<P>>)
    requires StagesFit(stages, |payloads|) && g < |stages|
    requires Resumes(h, stages, KeyWork(h, stages, payloads), progress, g, failedRank, failed)
    ensures Unfinished(h, g % 3, stages[g], payloads, failedRank, failed,
                       LeftPayloads(h, stages, KeyWork(h, stages, payloads), progress)[g])
    ensures UnknownEmpty(h, stages[g], LeftPayloads(h, stages, KeyWork(h, stages, payloads), progress)[g])
  {
    hide Encoded, DecodedRun;
    var work := KeyWork(h, stages, payloads);
    var items := LeftPayloads(h, stages, work, progress)[g];
    forall b | 0 <= b < |stages[g]|
      ensures items[b] == Encoded(h, stages[g][b].tag, Left(work, progress, g, b))
    {
    }
    forall b | 0 <= b < |stages[g]|
      ensures
        if failedRank.Some? && g % 3 < failedRank.value then items[b] == []
        else if failedRank == Some(g % 3) then
          && (forall fr :: fr in failed && fr.stage == StagePos(g % 3, b) ==> items[b] == fr.remainder)
          && ((forall fr :: fr in failed ==> fr.stage != StagePos(g % 3, b)) ==> items[b] == [])
        else items[b] == Encoded(h, stages[g][b].tag, ReducedRun(h, stages[g][b].tag, Pick(payloads, stages[g][b].records)))
    {
      EncodedEmpty(h, stages[g][b].tag);
      UnfinishedRun(h, stages, work, progress, g, failedRank, failed, b);
      assert work[g][b] == ReducedRun(h, stages[g][b].tag, Pick(payloads, stages[g][b].records));
      assert work[g][b][0..] == work[g][b];
    }
    forall b | 0 <= b < |stages[g]| && h.algebra(stages[g][b].tag).None?
      ensures items[b] == []
    {
      assert work[g][b] == ReducedRun(h, stages[g][b].tag, Pick(payloads, stages[g][b].records));
      EncodedEmpty(h, stages[g][b].tag);
    }
  }

  lemma EncodedEmpty<P, E>(h: Handlers<P, E>, tag: Tag)
    ensures Encoded(h, tag, []) == []
  {
  }

  lemma UnfinishedRun<P, E>(h: Handlers<P, E>, stages: seq<Stage>, work: Work<E>, progress: Progress, g: nat,
                            failedRank: Option<nat>, failed: seq<FailedRun<P>>, b: nat)
    requires |work| == |stages| && forall g :: 0 <= g < |stages| ==> |work[g]| == |stages[g]|
    requires g < |stages| && b < |stages[g]| && Resumes(h, stages, work, progress, g, failedRank, failed)
    ensures
      var left := Left(work, progress, g, b);
      if failedRank.Some? && g % 3 < failedRank.value then left == []
      else if failedRank == Some(g % 3) then
        && (forall fr :: fr in failed && fr.stage == StagePos(g % 3, b) ==> fr.remainder == Encoded(h, stages[g][b].tag, left))
        && ((forall fr :: fr in failed ==> fr.stage != StagePos(g % 3, b)) ==> left == [])
      else left == work[g][b][0..]
  {
    hide Encoded;
    assert g == 3 * (g / 3) + g % 3;
    if progress.Reached? {
      var out := progress.outcome;
      assert out.stop == 3 * (out.stop / 3) + out.stop % 3;
      if g == out.stop {
        var fr := FailedRun(StagePos(g % 3, b), stages[g][b].records,
                            Encoded(h, stages[g][b].tag, if out.fail[b].Some? then work[g][b][out.fail[b].value..] else []));
        FailedInIs(h, g % 3, stages[g], work[g], out.fail, fr);
        forall fr' | fr' in failed && fr'.stage == StagePos(g % 3, b)
          ensures fr' == fr && out.fail[b].Some?
        {
          FailedInIs(h, g % 3, stages[g], work[g], out.fail, fr');
        }
      }
    }
  }

  /** The retry records of a key that got to `progress`: one per item left of its
      runs, in plan order. */
  method EncodeKey<P, E(==)>(h: Handlers<P, E>, stages: seq<Stage>, payloads: seq<P>,
                             failure: Option<KeyFailure<P>>, ghost progress: Progress)
    returns (entries: seq<Entry<P>>)
    requires StagesFit(stages, |payloads|) && |stages| % 3 == 0
    requires FailureOf(h, stages, KeyWork(h, stages, payloads), progress, failure)
    ensures entries == KeyEntries(stages, LeftPayloads(h, stages, KeyWork(h, stages, payloads), progress), |stages|)
  {
    hide Encoded, ReducedRun, StageEntries, Unfinished, UnknownEmpty, FailedIn, StageWork, LeftPayloads;
    ghost var work := KeyWork(h, stages, payloads);
    ghost var items := LeftPayloads(h, stages, work, progress);
    var start, failed := 0, [];
    var failedRank: Option<nat> := None;
    if failure.Some? {
      start, failed := failure.value.segment, failure.value.failedRuns;
      FailedSome(h, stages, work, progress.outcome);
      failedRank := Some(failed[0].stage.rank);
    }
    NothingBefore(h, stages, work, progress, 3 * start);
    entries := [];
    for segment := start to |stages| / 3
      invariant entries == KeyEntries(stages, items, 3 * segment)
      invariant StagesDistinct(failed)
      invariant segment < |stages| / 3 ==>
                  Resumes(h, stages, work, progress, 3 * segment, if segment == start then failedRank else None, failed)
    {
      var here := if segment == start then failedRank else None;
      entries, failed := EncodeSegment(h, stages, payloads, segment, here, entries, failed, progress);
    }
  }

  /** Encodes the unfinished stages of one segment. */
  method EncodeSegment<P, E(==)>(h: Handlers<P, E>, stages: seq<Stage>, payloads: seq<P>, segment: nat, failedRank: Option<nat>,
                                 before: seq<Entry<P>>, failedBefore: seq<FailedRun<P>>, ghost progress: Progress)
    returns (entries: seq<Entry<P>>, failed: seq<FailedRun<P>>)
    requires StagesFit(stages, |payloads|) && 3 * segment + 3 <= |stages|
    requires before == KeyEntries(stages, LeftPayloads(h, stages, KeyWork(h, stages, payloads), progress), 3 * segment)
    requires StagesDistinct(failedBefore)
    requires Resumes(h, stages, KeyWork(h, stages, payloads), progress, 3 * segment, failedRank, failedBefore)
    ensures entries == KeyEntries(stages, LeftPayloads(h, stages, KeyWork(h, stages, payloads), progress), 3 * segment + 3)
    ensures StagesDistinct(failed)
    ensures 3 * segment + 3 < |stages| ==>
              Resumes(h, stages, KeyWork(h, stages, payloads), progress, 3 * segment + 3,
                      None, failed)
  {
    hide Encoded, ReducedRun, StageEntries, Unfinished, UnknownEmpty, FailedIn, StageWork, LeftPayloads;
    ghost var work := KeyWork(h, stages, payloads);
    ghost var items := LeftPayloads(h, stages, work, progress);
    entries, failed := before, failedBefore;
    for rank := 0 to 3
      invariant entries == KeyEntries(stages, items, 3 * segment + rank)
      invariant StagesDistinct(failed)
      invariant rank < 3 ==> Resumes(h, stages, work, progress, 3 * segment + rank, failedRank, failed)
    {
      var g := 3 * segment + rank;
      assert g % 3 == rank && g / 3 == segment;
      UnfinishedIsLeft(h, stages, payloads, progress, g, failedRank, failed);
      var more;
      more, failed := EncodeStage(h, rank, stages[g], payloads, failedRank, failed, items[g]);
      entries := entries + more;
    }
  }

  lemma FailedSome<P, E>(h: Handlers<P, E>, stages: seq<Stage>, work: Work<E>, out: Outcome)
    requires |work| == |stages| && forall g :: 0 <= g < |stages| ==> |work[g]| == |stages[g]|
    requires OutcomeOk(work, out) && out.stop < |stages|
    ensures
      var failed := FailedIn(h, out.stop % 3, stages[out.stop], work[out.stop], out.fail);
      failed != [] && failed[0].stage.rank == out.stop % 3 && StagesDistinct(failed)
  {
    var stage, items := stages[out.stop], work[out.stop];
    var failed := FailedIn(h, out.stop % 3, stage, items, out.fail);
    var b :| 0 <= b < |out.fail| && out.fail[b].Some?;
    FailedInIs(h, out.stop % 3, stage, items, out.fail,
               FailedRun(StagePos(out.stop % 3, b), stage[b].records, Encoded(h, stage[b].tag, items[b][out.fail[b].value..])));
    FailedInIs(h, out.stop % 3, stage, items, out.fail, failed[0]);
    FailedInDistinct(h, out.stop % 3, stage, items, out.fail);
  }

  lemma NothingBefore<P, E>(h: Handlers<P, E>, stages: seq<Stage>, work: Work<E>, progress: Progress, g: nat)
    requires |work| == |stages| && forall g :: 0 <= g < |stages| ==> |work[g]| == |stages[g]|
    requires g <= |stages| && ProgressOk(work, progress)
    requires progress.Untouched? ==> g == 0
    requires progress.Reached? ==> g <= progress.outcome.stop
    ensures KeyEntries(stages, LeftPayloads(h, stages, work, progress), g) == []
  {
    var items := LeftPayloads(h, stages, work, progress);
    forall k, b | 0 <= k < g && 0 <= b < |items[k]|
      ensures items[k][b] == []
    {
      assert Left(work, progress, k, b) == [];
      EncodedEmpty(h, stages[k][b].tag);
    }
    NoEntriesBefore(stages, items, g);
  }
}
