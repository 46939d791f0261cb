/** Running the stages of a key with handlers that may fail, and reporting what
    completed and what didn't. */
module Execute {
  import opened Wrappers
  import opened Events
  import opened Planner
  import opened Commuting
  import opened Work
  import opened Handler

  /** Position of a run: the rank of its stage, and its place in the stage. */
  datatype StagePos = StagePos(rank: nat, place: nat)

  /** A run whose handler asked for a retry: its place, its records, and the
      payloads of the events not handled. */
  datatype FailedRun<P> = FailedRun(stage: StagePos, records: seq<nat>, remainder: seq<P>)

  /** Where a key stopped, and every run that failed there. */
  datatype KeyFailure<P> = KeyFailure(segment: nat, failedRuns: seq<FailedRun<P>>)

  /** What is known of a key after its execution: the records that are finished,
      and the stage that stopped it, if one did. */
  datatype KeyReport<P> = KeyReport(completed: seq<nat>, failure: Option<KeyFailure<P>>)

  ghost predicate StagesFit(stages: seq<Stage>, count: nat) {
    forall g, b :: 0 <= g < |stages| && 0 <= b < |stages[g]| ==>
      forall p :: 0 <= p < |stages[g][b].records| ==> stages[g][b].records[p] < count
  }

  ghost predicate StageFits(stage: Stage, count: nat) {
    forall b :: 0 <= b < |stage| ==> forall p :: 0 <= p < |stage[b].records| ==> stage[b].records[p] < count
  }

  /** The reduced events of the runs of a stage. */
  ghost function StageWork<P, E>(h: Handlers<P, E>, stage: Stage, payloads: seq<P>): seq<seq<E>>
    requires StageFits(stage, |payloads|)
  {
    seq(|stage|, b requires 0 <= b < |stage| => ReducedRun(h, stage[b].tag, Pick(payloads, stage[b].records)))
  }

  /** The reduced events of every run of a key. */
  ghost function KeyWork<P, E>(h: Handlers<P, E>, stages: seq<Stage>, payloads: seq<P>): (work: Work<E>)
    requires StagesFit(stages, |payloads|)
    ensures |work| == |stages| && forall g :: 0 <= g < |stages| ==> |work[g]| == |stages[g]|
  {
    seq(|stages|, g requires 0 <= g < |stages| => StageWork(h, stages[g], payloads))
  }

  /** The records of the runs of a stage that completed. */
  ghost function CompletedIn(stage: Stage, fail: seq<Option<nat>>): seq<nat>
    requires |fail| == |stage|
  {
    if stage == [] then []
    else
      var n := |stage| - 1;
      CompletedIn(stage[..n], fail[..n]) + (if fail[n].None? then stage[n].records else [])
  }

  /** The runs of a stage that failed, with what is left of them. */
  ghost function FailedIn<P, E>(h: Handlers<P, E>, rank: nat, stage: Stage, work: seq<seq<E>>, fail: seq<Option<nat>>): seq<FailedRun<P>>
    requires |fail| == |stage| == |work|
  {
    if stage == [] then []
    else
      var n := |stage| - 1;
      FailedIn(h, rank, stage[..n], work[..n], fail[..n]) +
      (if fail[n].Some? && fail[n].value <= |work[n]|
       then [FailedRun(StagePos(rank, n), stage[n].records, Encoded(h, stage[n].tag, work[n][fail[n].value..]))]
       else [])
  }

  /** No run failed. */
  function NoFailure(n: nat): seq<Option<nat>> {
    seq(n, _ => None)
  }

  /** The records of every run before stage `g`. */
  ghost function CompletedBefore(stages: seq<Stage>, g: nat): seq<nat>
    requires g <= |stages|
  {
    if g == 0 then [] else CompletedBefore(stages, g - 1) + CompletedIn(stages[g - 1], NoFailure(|stages[g - 1]|))
  }

  /** What `execute_key` reports of an outcome. */
  ghost predicate Reports<P, E>(h: Handlers<P, E>, stages: seq<Stage>, work: Work<E>, out: Outcome, report: KeyReport<P>)
    requires |work| == |stages| && OutcomeOk(work, out)
    requires forall g :: 0 <= g < |stages| ==> |work[g]| == |stages[g]|
  {
    if out.stop == |stages| then
      report == KeyReport(CompletedBefore(stages, out.stop), None)
    else
      report == KeyReport(
        CompletedBefore(stages, out.stop) + CompletedIn(stages[out.stop], out.fail),
        Some(KeyFailure(out.stop / 3, FailedIn(h, out.stop % 3, stages[out.stop], work[out.stop], out.fail))))
  }

  /** The events of the runs of a stage that were handled, run by run. */
  ghost function HandledIn<E>(work: seq<seq<E>>, fail: seq<Option<nat>>): seq<E>
    requires |fail| == |work|
  {
    if work == [] then []
    else
      var n := |work| - 1;
      HandledIn(work[..n], fail[..n]) +
      (if fail[n].Some? && fail[n].value <= |work[n]| then work[n][..fail[n].value] else work[n])
  }

  ghost function HandledBefore<E>(work: Work<E>, g: nat): seq<E>
    requires g <= |work|
  {
    if g == 0 then [] else HandledBefore(work, g - 1) + HandledIn(work[g - 1], NoFailure(|work[g - 1]|))
  }

  /** Everything handled, stage by stage. */
  ghost function HandledAll<E>(work: Work<E>, out: Outcome): seq<E>
    requires OutcomeOk(work, out)
  {
    HandledBefore(work, out.stop) + (if out.stop == |work| then [] else HandledIn(work[out.stop], out.fail))
  }

  lemma CalledConcat<E>(xs: seq<Call<E>>, ys: seq<Call<E>>)
    ensures CalledEvents(xs + ys) == CalledEvents(xs) + CalledEvents(ys)
  {
    if ys == [] {
      assert xs + ys == xs;
    } else {
      var n := |ys| - 1;
      assert (xs + ys)[..|xs| + n] == xs + ys[..n];
      CalledConcat(xs, ys[..n]);
    }
  }

  ghost predicate FailFits<E>(work: seq<seq<E>>, fail: seq<Option<nat>>) {
    && |fail| == |work|
    && forall b :: 0 <= b < |fail| && fail[b].Some? ==> fail[b].value < |work[b]|
  }

  /** The results of the first `n` runs of a stage. */
  ghost predicate Settled<P, E>(h: Handlers<P, E>, rank: nat, stage: Stage, work: seq<seq<E>>, n: nat,
                                completed: seq<nat>, failedRuns: seq<FailedRun<P>>, fail: seq<Option<nat>>,
                                calls: seq<Call<E>>)
  {
    && n <= |stage| == |work|
    && FailFits(work[..n], fail)
    && completed == CompletedIn(stage[..n], fail)
    && failedRuns == FailedIn(h, rank, stage[..n], work[..n], fail)
    && CalledEvents(calls) == HandledIn(work[..n], fail)
    && (failedRuns == [] <==> forall c :: 0 <= c < n ==> fail[c].None?)
  }

  lemma FailedSnoc<P, E>(h: Handlers<P, E>, rank: nat, stage: Stage, work: seq<seq<E>>, n: nat, fail: seq<Option<nat>>, entry: Option<nat>)
    requires n < |stage| == |work| && FailFits(work[..n], fail) && (entry.Some? ==> entry.value < |work[n]|)
    ensures FailFits(work[..n + 1], fail + [entry])
    ensures CompletedIn(stage[..n + 1], fail + [entry]) ==
            CompletedIn(stage[..n], fail) + (if entry.None? then stage[n].records else [])
    ensures FailedIn(h, rank, stage[..n + 1], work[..n + 1], fail + [entry]) ==
            FailedIn(h, rank, stage[..n], work[..n], fail) +
            (if entry.Some? then [FailedRun(StagePos(rank, n), stage[n].records, Encoded(h, stage[n].tag, work[n][entry.value..]))] else [])
    ensures HandledIn(work[..n + 1], fail + [entry]) ==
            HandledIn(work[..n], fail) + (if entry.Some? then work[n][..entry.value] else work[n])
  {
    hide Encoded;
    assert stage[..n + 1][..n] == stage[..n] && work[..n + 1][..n] == work[..n];
    assert work[..n + 1][n] == work[n] && stage[..n + 1][n] == stage[n];
    assert (fail + [entry])[..n] == fail && (fail + [entry])[n] == entry;
  }

  /** One more result. */
  lemma SettledSnoc<P, E>(h: Handlers<P, E>, rank: nat, stage: Stage, work: seq<seq<E>>, n: nat,
                          completed: seq<nat>, failedRuns: seq<FailedRun<P>>, fail: seq<Option<nat>>,
                          calls: seq<Call<E>>, result: RunResult<P>, handled: nat, chunks: seq<Call<E>>)
    requires n < |stage| == |work| && Settled(h, rank, stage, work, n, completed, failedRuns, fail, calls)
    requires handled <= |work[n]| && CalledEvents(chunks) == work[n][..handled]
    requires match result
      case Done => handled == |work[n]|
      case Failed(remainder) => handled < |work[n]| && remainder == Encoded(h, stage[n].tag, work[n][handled..])
    ensures match result
      case Done =>
        Settled(h, rank, stage, work, n + 1, completed + stage[n].records, failedRuns, fail + [None], calls + chunks)
      case Failed(remainder) =>
        Settled(h, rank, stage, work, n + 1, completed,
                failedRuns + [FailedRun(StagePos(rank, n), stage[n].records, remainder)], fail + [Some(handled)], calls + chunks)
  {
    hide CompletedIn, FailedIn, HandledIn, CalledEvents, Encoded;
    CalledConcat(calls, chunks);
    var entry := if result.Done? then None else Some(handled);
    FailedSnoc(h, rank, stage, work, n, fail, entry);
    assert work[n][..|work[n]|] == work[n];
    assert CompletedIn(stage[..n], fail) + [] == CompletedIn(stage[..n], fail);
    assert failedRuns + [] == failedRuns;
  }

  /** Runs every run of a stage, and settles their results. */
  method RunStage<P, E(==)>(h: Handlers<P, E>, rank: nat, stage: Stage, payloads: seq<P>, replies: nat -> nat -> Answer)
    returns (completed: seq<nat>, failedRuns: seq<FailedRun<P>>, fail: seq<Option<nat>>, calls: seq<Call<E>>)
    requires HandlersOk(h) && StageFits(stage, |payloads|)
    ensures Settled(h, rank, stage, StageWork(h, stage, payloads), |stage|, completed, failedRuns, fail, calls)
    ensures forall b :: 0 <= b < |stage| && fail[b].Some? ==> replies(b)(fail[b].value) == Retryable
  {
    hide CallsTo, Encoded, DecodedRun, ReducedRun;
    completed, failedRuns, fail, calls := [], [], [], [];
    ghost var work := StageWork(h, stage, payloads);
    for b := 0 to |stage|
      invariant Settled(h, rank, stage, work, b, completed, failedRuns, fail, calls)
      invariant forall c :: 0 <= c < b && fail[c].Some? ==> replies(c)(fail[c].value) == Retryable
    {
      var run := stage[b];
      var result, handled, chunks := HandleEvents(h, run.tag, Pick(payloads, run.records), replies(b));
      CallsAreEvents(work[b], h.maxBatch(run.tag), replies(b), handled);
      SettledSnoc(h, rank, stage, work, b, completed, failedRuns, fail, calls, result, handled, chunks);
      calls := calls + chunks;
      match result {
        case Done =>
          completed := completed + run.records;
          fail := fail + [None];
        case Failed(remainder) =>
          failedRuns := failedRuns + [FailedRun(StagePos(rank, b), run.records, remainder)];
          fail := fail + [Some(handled)];
      }
    }
  }

  /** Every stage before `g` completed. */
  ghost predicate PassedTo<E>(stages: seq<Stage>, work: Work<E>, g: nat, completed: seq<nat>, calls: seq<Call<E>>) {
    && g <= |stages| == |work|
    && completed == CompletedBefore(stages, g)
    && CalledEvents(calls) == HandledBefore(work, g)
  }

  /** A stage none of whose runs failed is passed. */
  lemma StagePassed<P, E>(h: Handlers<P, E>, stages: seq<Stage>, work: Work<E>, g: nat,
                          completed: seq<nat>, calls: seq<Call<E>>,
                          completed': seq<nat>, failedRuns: seq<FailedRun<P>>, fail: seq<Option<nat>>, calls': seq<Call<E>>)
    requires PassedTo(stages, work, g, completed, calls) && g < |stages|
    requires Settled(h, g % 3, stages[g], work[g], |stages[g]|, completed', failedRuns, fail, calls')
    requires failedRuns == []
    ensures PassedTo(stages, work, g + 1, completed + completed', calls + calls')
  {
    hide CompletedIn, HandledIn, CalledEvents, FailedIn;
    assert stages[g][..|stages[g]|] == stages[g] && work[g][..|work[g]|] == work[g];
    assert fail == NoFailure(|stages[g]|);
    CalledConcat(calls, calls');
  }

  /** If stage `g` fails, the report of the key is settled. */
  lemma StageStopped<P, E>(h: Handlers<P, E>, stages: seq<Stage>, work: Work<E>, g: nat,
                           completed: seq<nat>, calls: seq<Call<E>>,
                           completed': seq<nat>, failedRuns: seq<FailedRun<P>>, fail: seq<Option<nat>>, calls': seq<Call<E>>)
    requires PassedTo(stages, work, g, completed, calls) && g < |stages|
    requires forall g :: 0 <= g < |stages| ==> |work[g]| == |stages[g]|
    requires Settled(h, g % 3, stages[g], work[g], |stages[g]|, completed', failedRuns, fail, calls')
    requires failedRuns != []
    ensures OutcomeOk(work, Outcome(g, fail))
    ensures Reports(h, stages, work, Outcome(g, fail),
                    KeyReport(completed + completed', Some(KeyFailure(g / 3, failedRuns))))
    ensures CalledEvents(calls + calls') == HandledAll(work, Outcome(g, fail))
  {
    hide CompletedIn, HandledIn, CalledEvents, FailedIn, CompletedBefore, HandledBefore;
    assert stages[g][..|stages[g]|] == stages[g] && work[g][..|work[g]|] == work[g];
    CalledConcat(calls, calls');
  }

  /** Every stage completed. */
  lemma AllPassed<P, E>(h: Handlers<P, E>, stages: seq<Stage>, work: Work<E>, completed: seq<nat>, calls: seq<Call<E>>)
    requires PassedTo(stages, work, |stages|, completed, calls)
    requires forall g :: 0 <= g < |stages| ==> |work[g]| == |stages[g]|
    ensures OutcomeOk(work, Outcome(|stages|, []))
    ensures Reports(h, stages, work, Outcome(|stages|, []), KeyReport<P>.KeyReport(completed, None))
    ensures CalledEvents(calls) == HandledAll(work, Outcome(|stages|, []))
  {
  }

  /** Runs stage after stage until one fails: the report is that of some outcome,
      and the chunks passed to handlers are exactly what that outcome handled. */
  method ExecuteKey<P, E(==)>(h: Handlers<P, E>, stages: seq<Stage>, payloads: seq<P>,
                              replies: nat -> nat -> nat -> Answer)
    returns (report: KeyReport<P>, calls: seq<Call<E>>, out: Outcome)
    requires HandlersOk(h) && StagesFit(stages, |payloads|) && |stages| % 3 == 0
    ensures OutcomeOk(KeyWork(h, stages, payloads), out)
    ensures Reports(h, stages, KeyWork(h, stages, payloads), out, report)
    ensures CalledEvents(calls) == HandledAll(KeyWork(h, stages, payloads), out)
    ensures forall b :: 0 <= b < |out.fail| && out.fail[b].Some? ==> replies(out.stop)(b)(out.fail[b].value) == Retryable
  {
    hide Settled, Reports, CompletedIn, FailedIn, HandledIn, StageWork, HandledAll;
    ghost var work := KeyWork(h, stages, payloads);
    var completed: seq<nat> := [];
    calls := [];
    for segment := 0 to |stages| / 3
      invariant PassedTo(stages, work, 3 * segment, completed, calls)
    {
      for rank := 0 to 3
        invariant PassedTo(stages, work, 3 * segment + rank, completed, calls)
      {
        var g := 3 * segment + rank;
        assert g % 3 == rank && g / 3 == segment;
        var done, failedRuns, fail, chunks := RunStage(h, rank, stages[g], payloads, replies(g));
        if failedRuns != [] {
          StageStopped(h, stages, work, g, completed, calls, done, failedRuns, fail, chunks);
          out := Outcome(g, fail);
          return KeyReport(completed + done, Some(KeyFailure(segment, failedRuns))), calls + chunks, out;
        }
        StagePassed(h, stages, work, g, completed, calls, done, failedRuns, fail, chunks);
        completed := completed + done;
        calls := calls + chunks;
      }
    }
    out := Outcome(|stages|, []);
    report := KeyReport(completed, None);
    AllPassed(h, stages, work, completed, calls);
  }
}
