/** The consumer of one partition as a state machine that may crash between any
    two steps. Runs aren't reduced here: every retry record stands for one
    record of the main partition, its origin. */
module Task {
  import opened Wrappers
  import opened Events
  import opened PlanOrder
  import opened Planner
  import opened Work
  import opened Encode
  import opened Execution
  import opened Replan
  import opened Retry

  datatype Mode = NoEventLose | NoDoubleConsume

  /** A record of the main partition: its header, whether the header parses, and
      whether the payload is an event of a registered type. */
  datatype Message = Message(record: PlanRecord, parses: bool, decodes: bool)

  /** `log` is all that is ever produced; a poll may end anywhere before its end. */
  datatype Config = Config(log: seq<Message>, delays: seq<nat>, maxPending: nat, mode: Mode)

  /** The handling of one event: whether it was applied or reported
      unrecoverable, and whether its record stays pending. */
  datatype Handling = Handling(origin: nat, applied: bool, again: bool)

  /** Reading the retry partition, running its due keys, processing a polled
      batch of which `keys` are still to be processed, or having sent its retry
      records. */
  datatype Phase =
    | Draining
    | Running
    | Working(count: nat, keys: set<Key>, entries: seq<Entry<nat>>)
    | Sent(count: nat)

  datatype State = State(
    // kept by the server: the retry partition, and how much of each partition is stored as consumed
    retry: seq<Entry<nat>>, storedMain: nat, storedRetry: nat,
    // lost in a crash: next main and retry records to read, and the retry schedule
    next: nat, read: nat, schedule: Schedule, retryStored: Option<nat>, phase: Phase,
    // what happened so far: handlings, dropped events, main records planned and retry records read, in order
    hist: seq<Handling>, dropped: set<nat>, planned: seq<nat>, taken: seq<nat>, crashed: bool)

  ghost predicate Init(c: Config, s: State) {
    && c.delays != []
    && s == State([], 0, 0, 0, 0, Schedule(map[], 0), None, Draining, [], {}, [], [], false)
  }

  function KeyAt(c: Config, o: nat): Key {
    if o < |c.log| then c.log[o].record.key else 0
  }

  /** Indices of the records whose origin decodes. */
  function Good(c: Config, src: seq<nat>): set<nat> {
    set i | 0 <= i < |src| && src[i] < |c.log| && c.log[src[i]].decodes
  }

  /** The records of a batch, by offset in the main partition: those that parse. */
  ghost predicate Batch(c: Config, lo: nat, count: nat, src: seq<nat>) {
    && Increasing(src)
    && forall o: nat :: o in src <==> lo <= o < lo + count && o < |c.log| && c.log[o].parses
  }

  ghost function Records(c: Config, src: seq<nat>): (rs: seq<PlanRecord>)
    requires forall i :: 0 <= i < |src| ==> src[i] < |c.log|
    ensures |rs| == |src| && forall i :: 0 <= i < |src| ==> rs[i] == c.log[src[i]].record
  {
    seq(|src|, i requires 0 <= i < |src| => c.log[src[i]].record)
  }

  /** The pending retry records of a key. */
  ghost function Queue(s: State, queue: seq<nat>): (entries: seq<Entry<nat>>)
    requires forall i :: 0 <= i < |queue| ==> queue[i] < |s.retry|
    ensures |entries| == |queue| && forall i :: 0 <= i < |queue| ==> entries[i] == s.retry[queue[i]]
  {
    seq(|queue|, i requires 0 <= i < |queue| => s.retry[queue[i]])
  }

  ghost function Items(entries: seq<Entry<nat>>): (items: seq<nat>)
    ensures |items| == |entries| && forall i :: 0 <= i < |entries| ==> items[i] == entries[i].item
  {
    seq(|entries|, i requires 0 <= i < |entries| => entries[i].item)
  }

  ghost function ItemSet(entries: seq<Entry<nat>>): set<nat> {
    set e | e in entries :: e.item
  }

  /** Entries of records of the batch as entries of their origins. */
  ghost function Renamed(src: seq<nat>, entries: seq<Entry<nat>>): (renamed: seq<Entry<nat>>)
    requires forall p :: 0 <= p < |entries| ==> entries[p].item < |src|
    ensures |renamed| == |entries|
    ensures forall p :: 0 <= p < |entries| ==> renamed[p] == Entry(src[entries[p].item], entries[p].tag, entries[p].ordering)
  {
    seq(|entries|, p requires 0 <= p < |entries| => Entry(src[entries[p].item], entries[p].tag, entries[p].ordering))
  }

  /** Record `i` of the key is in a completed run. */
  ghost predicate InDone(stages: seq<Stage>, out: Outcome, i: nat) {
    exists g: nat, b: nat :: At(stages, g, b, i) && RunDone(out, g, b)
  }

  /** Record `i` of the key is in a failed run. */
  ghost predicate InFailed(stages: seq<Stage>, out: Outcome, i: nat) {
    exists g: nat, b: nat :: At(stages, g, b, i) && RunFailed(out, g, b)
  }

  /** `offsets` are those of the records `select` picks. */
  ghost predicate OffsetsOf(queue: seq<nat>, select: set<nat>, offsets: seq<nat>) {
    && (forall o: nat :: o in offsets ==> o in queue)
    && forall i :: 0 <= i < |queue| ==> (queue[i] in offsets <==> i in select)
  }

  /** A retry attempt at the pending records of a key. */
  datatype Try = Try(key: Key, now: int, stages: seq<Stage>, out: Outcome, done: seq<nat>, answers: seq<bool>,
                     resolved: seq<nat>, failed: seq<nat>)

  datatype Step =
    | Read(failedAt: nat, now: int, nowMs: nat)
    | Drained
    | Attempt(try: Try)
    | Commit(offset: nat)
    | Poll(count: nat)
    | Divert(key: Key, src: seq<nat>, stages: seq<Stage>, written: seq<Entry<nat>>)
    | Execute(key: Key, src: seq<nat>, stages: seq<Stage>, out: Outcome, done: seq<nat>, answers: seq<bool>,
              written: seq<Entry<nat>>)
    | Send
    | Finish
    | Crash(partial: seq<Handling>)

  /** Reads one more retry record. A poll of several is as many of these: a
      crash inside it is a crash before it. */
  ghost predicate ReadStep(c: Config, s: State, s': State, failedAt: nat, now: int, nowMs: nat) {
    && s.phase.Draining? && s.read < |s.retry|
    && s' == s.(schedule := Enqueued(s.schedule, c.delays, KeyAt(c, s.retry[s.read].item), s.read, failedAt, now, nowMs),
                read := s.read + 1,
                taken := s.taken + [s.read],
                storedRetry := if c.mode.NoDoubleConsume? then s.read + 1 else s.storedRetry)
  }

  ghost predicate DrainedStep(c: Config, s: State, s': State) {
    && s.phase.Draining? && s.read == |s.retry|
    && s' == s.(phase := Running)
  }

  /** What was handled, in order. */
  ghost function Handlings(src: seq<nat>, done: seq<nat>, answers: seq<bool>, again: set<nat>): (hs: seq<Handling>)
    requires |answers| == |done| && forall p :: 0 <= p < |done| ==> done[p] < |src|
    ensures |hs| == |done|
    ensures forall p :: 0 <= p < |done| ==> hs[p] == Handling(src[done[p]], answers[p], done[p] in again)
  {
    seq(|done|, p requires 0 <= p < |done| => Handling(src[done[p]], answers[p], done[p] in again))
  }

  ghost function DoneSet(stages: seq<Stage>, out: Outcome, n: nat): set<nat> {
    set i | 0 <= i < n && InDone(stages, out, i)
  }

  ghost function FailedSet(stages: seq<Stage>, out: Outcome, n: nat): set<nat> {
    set i | 0 <= i < n && InFailed(stages, out, i)
  }

  /** A due key's pending records are planned and executed. */
  ghost predicate AttemptOk(c: Config, s: State, t: Try) {
    && s.phase.Running? && t.key in s.schedule.keys && s.schedule.keys[t.key].dueAt <= t.now
    && var queue := s.schedule.keys[t.key].records;
    && (forall i :: 0 <= i < |queue| ==> queue[i] < |s.retry|)
    && var entries := Queue(s, queue);
    && Executes(Headers(t.key, entries), t.key, t.stages, Good(c, Items(entries)), t.out, t.done)
    && |t.answers| == |t.done|
    && (forall p :: 0 <= p < |t.done| ==> t.done[p] < |queue|)
    && OffsetsOf(queue, DoneSet(t.stages, t.out, |queue|), t.resolved)
    && OffsetsOf(queue, FailedSet(t.stages, t.out, |queue|), t.failed)
  }

  ghost function Finishing(c: Config, s: State, t: Try): (Schedule, Retry.Finish) {
    Finished(s.schedule, c.delays, t.key, t.resolved, t.failed, t.now)
  }

  /** The events of an attempt that are dropped: those that don't decode, and
      those of failed runs when the key gives up. */
  ghost function AttemptDrops(c: Config, s: State, t: Try): set<nat>
    requires AttemptOk(c, s, t)
  {
    var queue := s.schedule.keys[t.key].records;
    set i | 0 <= i < |queue| && ((queue[i] in t.resolved && i !in Good(c, Items(Queue(s, queue))))
                                 || (Finishing(c, s, t).1.GaveUp? && queue[i] in t.failed)) :: s.retry[queue[i]].item
  }

  /** The records of an attempt that were run and stay pending: those of failed
      runs, unless the key gives up. */
  ghost function Kept(c: Config, s: State, t: Try): set<nat>
    requires t.key in s.schedule.keys
  {
    if Finishing(c, s, t).1.GaveUp? then {} else FailedSet(t.stages, t.out, |s.schedule.keys[t.key].records|)
  }

  ghost predicate AttemptStep(c: Config, s: State, s': State, t: Try) {
    && AttemptOk(c, s, t)
    && var queue := s.schedule.keys[t.key].records;
    && s' == s.(schedule := Finishing(c, s, t).0,
                hist := s.hist + Handlings(Items(Queue(s, queue)), t.done, t.answers, Kept(c, s, t)),
                dropped := s.dropped + AttemptDrops(c, s, t))
  }

  /** Stores how far the retry partition is consumed. */
  ghost predicate CommitStep(c: Config, s: State, s': State, offset: nat) {
    && s.phase.Running? && c.mode.NoEventLose?
    && IsCommittable(s.schedule, s.read, Some(offset))
    && (s.retryStored.None? || offset > s.retryStored.value)
    && s' == s.(storedRetry := offset + 1, retryStored := Some(offset))
  }

  ghost function BatchKeys(c: Config, lo: nat, count: nat): set<Key> {
    set o: nat | lo <= o < lo + count && o < |c.log| && c.log[o].parses :: KeyAt(c, o)
  }

  ghost function Unparsed(c: Config, lo: nat, count: nat): set<nat> {
    set o: nat | lo <= o < lo + count && o < |c.log| && !c.log[o].parses
  }

  ghost predicate PollStep(c: Config, s: State, s': State, count: nat) {
    && s.phase.Running? && s.next + count <= |c.log|
    && if count == 0 then s' == s.(phase := Draining)
       else s' == s.(phase := Working(count, BatchKeys(c, s.next, count), []),
                     planned := s.planned + seq(count, i requires 0 <= i < count => s.next + i),
                     dropped := s.dropped + Unparsed(c, s.next, count),
                     storedMain := if c.mode.NoDoubleConsume? then s.next + count else s.storedMain)
  }

  /** The next key of the batch to process. */
  ghost predicate Processes(c: Config, s: State, key: Key, src: seq<nat>) {
    && s.phase.Working? && key in s.phase.keys
    && Batch(c, s.next, s.phase.count, src)
    && forall i :: 0 <= i < |src| ==> src[i] < |c.log|
  }

  /** The records of the key that don't decode. */
  ghost function Undecoded(c: Config, src: seq<nat>, key: Key): set<nat> {
    set i | 0 <= i < |src| && KeyAt(c, src[i]) == key && i !in Good(c, src) :: src[i]
  }

  /** A quarantined key is written to the retry partition unexecuted. */
  ghost predicate DivertStep(c: Config, s: State, s': State, key: Key, src: seq<nat>, stages: seq<Stage>, written: seq<Entry<nat>>) {
    && Processes(c, s, key, src) && key in s.schedule.keys
    && Writes(Records(c, src), key, stages, Good(c, src), Untouched, written)
    && (forall p :: 0 <= p < |written| ==> written[p].item < |src|)
    && s' == s.(phase := Working(s.phase.count, s.phase.keys - {key}, s.phase.entries + Renamed(src, written)),
                dropped := s.dropped + Undecoded(c, src, key))
  }

  /** What is written of an executed key: nothing if it completed or if the
      backlog is full. */
  ghost function Backlogged(c: Config, s: State, renamed: seq<Entry<nat>>): seq<Entry<nat>>
    requires s.phase.Working?
  {
    if s.schedule.pending + |s.phase.entries| + |renamed| > c.maxPending then [] else renamed
  }

  /** A key that isn't quarantined is executed, and what is unfinished is
      written to the retry partition unless the backlog is full. */
  ghost predicate ExecuteStep(c: Config, s: State, s': State, key: Key, src: seq<nat>, stages: seq<Stage>, out: Outcome,
                              done: seq<nat>, answers: seq<bool>, written: seq<Entry<nat>>) {
    && Processes(c, s, key, src) && key !in s.schedule.keys
    && Executes(Records(c, src), key, stages, Good(c, src), out, done)
    && |answers| == |done| && (forall p :: 0 <= p < |done| ==> done[p] < |src|)
    && Writes(Records(c, src), key, stages, Good(c, src), Reached(out), written)
    && (forall p :: 0 <= p < |written| ==> written[p].item < |src|)
    && var renamed := Renamed(src, written);
    && var more := if out.stop < |stages| then Backlogged(c, s, renamed) else [];
    && s' == s.(phase := Working(s.phase.count, s.phase.keys - {key}, s.phase.entries + more),
                hist := s.hist + Handlings(src, done, answers, {}),
                dropped := s.dropped + Undecoded(c, src, key) +
                           (if out.stop < |stages| && more == [] then ItemSet(renamed) else {}))
  }

  /** All retry records of the batch are sent at once. */
  ghost predicate SendStep(c: Config, s: State, s': State) {
    && s.phase.Working? && s.phase.keys == {}
    && s' == s.(retry := s.retry + s.phase.entries, phase := Sent(s.phase.count))
  }

  ghost predicate FinishStep(c: Config, s: State, s': State) {
    && s.phase.Sent?
    && s' == s.(next := s.next + s.phase.count, phase := Draining,
                storedMain := if c.mode.NoEventLose? then s.next + s.phase.count else s.storedMain)
  }

  ghost predicate Among(hist: seq<Handling>, n: nat, o: nat) {
    exists p :: 0 <= p < n && p < |hist| && hist[p].origin == o
  }

  /** Handling `p` is that of record `i` of the planned records `rs` with origins
      `src`, and what the plan puts before it was handled earlier. */
  ghost predicate Follows(rs: seq<PlanRecord>, src: seq<nat>, good: set<nat>, partial: seq<Handling>, p: nat, i: nat) {
    && p < |partial| && i < |src| && src[i] == partial[p].origin && i in good
    && forall j: nat :: Precedes(rs, j, i) && j in good && j < |src| ==> Among(partial, p, src[j])
  }

  /** Handling `p` is part of the execution of the pending records of a key. */
  ghost predicate InAttempt(c: Config, s: State, partial: seq<Handling>, p: nat, key: Key) {
    && key in s.schedule.keys
    && var queue := s.schedule.keys[key].records;
    && (forall i :: 0 <= i < |queue| ==> queue[i] < |s.retry|)
    && var entries := Queue(s, queue);
    && exists i: nat :: Follows(Headers(key, entries), Items(entries), Good(c, Items(entries)), partial, p, i)
  }

  /** Handling `p` is part of the execution of a key of the batch. */
  ghost predicate InBatch(c: Config, s: State, partial: seq<Handling>, p: nat, src: seq<nat>) {
    && p < |partial| && Processes(c, s, KeyAt(c, partial[p].origin), src)
    && KeyAt(c, partial[p].origin) !in s.schedule.keys
    && exists i: nat :: Follows(Records(c, src), src, Good(c, src), partial, p, i)
  }

  /** Handling `p` is part of the work in progress. */
  ghost predicate InProgress(c: Config, s: State, partial: seq<Handling>, p: nat) {
    || (s.phase.Running? && exists key: Key :: InAttempt(c, s, partial, p, key))
    || (s.phase.Working? && exists src: seq<nat> :: InBatch(c, s, partial, p, src))
  }

  /** `partial` is what may have been handled of the work in progress, on any
      keys, when it is cut off. */
  ghost predicate CutOff(c: Config, s: State, partial: seq<Handling>) {
    && (forall p: nat :: p < |partial| ==> InProgress(c, s, partial, p) && !partial[p].again)
    && (forall p, q :: 0 <= p < q < |partial| ==> partial[p].origin != partial[q].origin)
  }

  /** The process dies, and a new one starts from the stored offsets. */
  ghost predicate CrashStep(c: Config, s: State, s': State, partial: seq<Handling>) {
    && CutOff(c, s, partial)
    && s' == s.(next := s.storedMain, read := s.storedRetry, schedule := Schedule(map[], 0), retryStored := None,
                phase := Draining, hist := s.hist + partial, crashed := true)
  }

  ghost predicate NextStep(c: Config, s: State, s': State, step: Step) {
    match step
    case Read(failedAt, now, nowMs) => ReadStep(c, s, s', failedAt, now, nowMs)
    case Drained => DrainedStep(c, s, s')
    case Attempt(t) => AttemptStep(c, s, s', t)
    case Commit(offset) => CommitStep(c, s, s', offset)
    case Poll(count) => PollStep(c, s, s', count)
    case Divert(key, src, stages, written) => DivertStep(c, s, s', key, src, stages, written)
    case Execute(key, src, stages, out, done, answers, written) =>
      ExecuteStep(c, s, s', key, src, stages, out, done, answers, written)
    case Send => SendStep(c, s, s')
    case Finish => FinishStep(c, s, s')
    case Crash(partial) => CrashStep(c, s, s', partial)
  }

  /** A run of the task from its first start. */
  ghost predicate Behaves(c: Config, states: seq<State>, steps: seq<Step>) {
    && |states| == |steps| + 1
    && Init(c, states[0])
    && forall i :: 0 <= i < |steps| ==> NextStep(c, states[i], states[i + 1], steps[i])
  }

  // --- Invariant ---

  /** The retry partition together with what is about to be sent to it. */
  function Full(s: State): seq<Entry<nat>> {
    s.retry + (if s.phase.Working? then s.phase.entries else [])
  }

  /** Where the main records whose processing began end. */
  function Bound(s: State): nat {
    s.next + (match s.phase case Working(n, _, _) => n case Sent(n) => n case _ => 0)
  }

  /** Every retry record stands for a record of its type, and is scheduled under
      its key. */
  ghost predicate EntriesOk(c: Config, full: seq<Entry<nat>>) {
    forall x :: 0 <= x < |full| ==>
      && full[x].item < |c.log| && c.log[full[x].item].parses && c.log[full[x].item].decodes
      && full[x].tag == c.log[full[x].item].record.tag
  }

  ghost predicate KeyedOk(c: Config, full: seq<Entry<nat>>, st: Schedule) {
    forall k, x: nat :: k in st.keys && x in st.keys[k].records && x < |full| ==> KeyAt(c, full[x].item) == k
  }

  ghost predicate Inv(c: Config, s: State) {
    && s.read <= |s.retry| && Bound(s) <= |c.log|
    && Valid(s.schedule, c.delays, s.read)
    && EntriesOk(c, Full(s))
    && KeyedOk(c, Full(s), s.schedule)
    && (s.phase.Running? || s.phase.Working? ==> s.read == |s.retry|)
    && (s.phase.Working? ==> forall p :: 0 <= p < |s.phase.entries| ==> KeyAt(c, s.phase.entries[p].item) !in s.phase.keys)
    && (s.storedMain <= |c.log| && s.storedRetry <= |s.retry|)
    && (forall p :: 0 <= p < |s.hist| ==> s.hist[p].origin < |c.log| && c.log[s.hist[p].origin].decodes)
  }

  /** New retry records of a key of the batch. */
  lemma WrittenOk(c: Config, s: State, key: Key, src: seq<nat>, stages: seq<Stage>, progress: Progress, written: seq<Entry<nat>>)
    requires Processes(c, s, key, src) && Writes(Records(c, src), key, stages, Good(c, src), progress, written)
    ensures forall p :: 0 <= p < |written| ==> written[p].item < |src|
    ensures EntriesOk(c, Renamed(src, written))
    ensures forall p :: 0 <= p < |written| ==> KeyAt(c, src[written[p].item]) == key && src[written[p].item] in src
  {
    hide Writes, KeptApart, FencedBetween, HandledAt;
    EncodingKeeps(Records(c, src), key, stages, Good(c, src), progress, written);
  }

  lemma HandlingsOk(c: Config, src: seq<nat>, rs: seq<PlanRecord>, key: Key, stages: seq<Stage>, out: Outcome,
                    done: seq<nat>, answers: seq<bool>, again: set<nat>)
    requires |rs| == |src| && Executes(rs, key, stages, Good(c, src), out, done) && |answers| == |done|
    ensures forall p :: 0 <= p < |done| ==> done[p] < |src| && done[p] in Good(c, src) && rs[done[p]].key == key
    ensures forall e :: e in Handlings(src, done, answers, again) ==> e.origin < |c.log| && c.log[e.origin].decodes && e.origin in src
  {
    hide KeyOk, OutcomeOk, HandledAt, Precedes;
    forall p | 0 <= p < |done|
      ensures done[p] < |src| && done[p] in Good(c, src) && rs[done[p]].key == key
    {
      assert done[p] in done;
      var _, _ := HandledPlace(rs, key, stages, Good(c, src), out, done[p]);
    }
  }

  lemma InvRead(c: Config, s: State, s': State, failedAt: nat, now: int, nowMs: nat)
    requires Inv(c, s) && ReadStep(c, s, s', failedAt, now, nowMs)
    ensures Inv(c, s')
  {
    hide Valid, EntriesOk;
    EnqueueValid(s.schedule, c.delays, s.read, KeyAt(c, s.retry[s.read].item), s.read, failedAt, now, nowMs);
  }

  /** An attempt makes nothing pending. */
  lemma AttemptShrinks(st: Schedule, delays: seq<nat>, t: Try)
    requires t.key in st.keys
    ensures
      var st' := Finished(st, delays, t.key, t.resolved, t.failed, t.now).0;
      forall k :: k in st'.keys ==> k in st.keys && forall x :: x in st'.keys[k].records ==> x in st.keys[k].records
  {
    hide Finished, Attempted;
    FinishedIs(st, delays, t.key, t.resolved, t.failed, t.now);
    AttemptedIs(st.keys[t.key], delays, t.resolved, t.failed, t.now);
  }

  lemma InvAttempt(c: Config, s: State, s': State, t: Try)
    requires Inv(c, s) && AttemptStep(c, s, s', t)
    ensures Inv(c, s')
  {
    hide Executes, OffsetsOf, Precedes, AttemptDrops, Kept, Finished, Valid;
    var queue := s.schedule.keys[t.key].records;
    FinishValid(s.schedule, c.delays, s.read, t.key, t.resolved, t.failed, t.now);
    AttemptShrinks(s.schedule, c.delays, t);
    HandlingsOk(c, Items(Queue(s, queue)), Headers(t.key, Queue(s, queue)), t.key, t.stages, t.out, t.done, t.answers, Kept(c, s, t));
  }

  lemma Appended(c: Config, s: State, more: seq<Entry<nat>>)
    requires Inv(c, s) && EntriesOk(c, more)
    ensures EntriesOk(c, Full(s) + more) && KeyedOk(c, Full(s) + more, s.schedule)
  {
    var full := Full(s) + more;
    forall k, x: nat | k in s.schedule.keys && x in s.schedule.keys[k].records && x < |full|
      ensures KeyAt(c, full[x].item) == k
    {
      assert full[x] == Full(s)[x];
    }
  }

  /** Processing a key keeps the invariant. */
  lemma InvProcessed(c: Config, s: State, s': State, key: Key, more: seq<Entry<nat>>)
    requires Inv(c, s) && s.phase.Working? && EntriesOk(c, more)
    requires forall p :: 0 <= p < |more| ==> KeyAt(c, more[p].item) == key
    requires s' == s.(phase := Working(s.phase.count, s.phase.keys - {key}, s.phase.entries + more), hist := s'.hist, dropped := s'.dropped)
    requires forall p :: 0 <= p < |s'.hist| ==> s'.hist[p].origin < |c.log| && c.log[s'.hist[p].origin].decodes
    ensures Inv(c, s')
  {
    hide Valid, EntriesOk, KeyedOk;
    Appended(c, s, more);
    assert Full(s') == Full(s) + more;
  }

  lemma InvDivert(c: Config, s: State, s': State, key: Key, src: seq<nat>, stages: seq<Stage>, written: seq<Entry<nat>>)
    requires Inv(c, s) && DivertStep(c, s, s', key, src, stages, written)
    ensures Inv(c, s')
  {
    hide Writes, Valid, EntriesOk, KeyedOk;
    WrittenOk(c, s, key, src, stages, Untouched, written);
    InvProcessed(c, s, s', key, Renamed(src, written));
  }

  lemma InvExecute(c: Config, s: State, s': State, key: Key, src: seq<nat>, stages: seq<Stage>, out: Outcome,
                   done: seq<nat>, answers: seq<bool>, written: seq<Entry<nat>>)
    requires Inv(c, s) && ExecuteStep(c, s, s', key, src, stages, out, done, answers, written)
    ensures Inv(c, s')
  {
    hide Writes, Executes, Valid, KeyedOk, Handlings, Undecoded;
    WrittenOk(c, s, key, src, stages, Reached(out), written);
    HandlingsOk(c, src, Records(c, src), key, stages, out, done, answers, {});
    var more := if out.stop < |stages| then Backlogged(c, s, Renamed(src, written)) else [];
    HistConcat(c, s.hist, Handlings(src, done, answers, {}));
    InvProcessed(c, s, s', key, more);
  }

  lemma HistConcat(c: Config, hist: seq<Handling>, more: seq<Handling>)
    requires forall p :: 0 <= p < |hist| ==> hist[p].origin < |c.log| && c.log[hist[p].origin].decodes
    requires forall e :: e in more ==> e.origin < |c.log| && c.log[e.origin].decodes
    ensures forall p :: 0 <= p < |hist + more| ==> (hist + more)[p].origin < |c.log| && c.log[(hist + more)[p].origin].decodes
  {
  }

  /** What was handled of the work in progress. */
  lemma InProgressIs(c: Config, s: State, partial: seq<Handling>, p: nat)
    requires Inv(c, s) && p < |partial| && InProgress(c, s, partial, p)
    ensures
      var o := partial[p].origin;
      && o < |c.log| && c.log[o].decodes
      && (s.phase.Running? ==> exists x: nat :: Pending(s.schedule, x) && x < |s.retry| && s.retry[x].item == o)
      && (s.phase.Working? ==> s.next <= o < Bound(s) && KeyAt(c, o) in s.phase.keys)
  {
    hide Valid, EntriesOk, KeyedOk, Precedes;
    if s.phase.Running? {
      var key: Key :| InAttempt(c, s, partial, p, key);
      var queue := s.schedule.keys[key].records;
      var entries := Queue(s, queue);
      var i: nat :| Follows(Headers(key, entries), Items(entries), Good(c, Items(entries)), partial, p, i);
      assert queue[i] in queue && Pending(s.schedule, queue[i]);
    } else {
      var src: seq<nat> :| InBatch(c, s, partial, p, src);
      var i: nat :| Follows(Records(c, src), src, Good(c, src), partial, p, i);
      assert src[i] in src;
    }
  }

  lemma InvCrash(c: Config, s: State, s': State, partial: seq<Handling>)
    requires Inv(c, s) && CrashStep(c, s, s', partial)
    ensures Inv(c, s')
  {
    hide InProgress;
    assert forall x :: 0 <= x < |s'.retry| ==> Full(s)[x] == s.retry[x];
    forall p: nat | p < |partial|
      ensures partial[p].origin < |c.log| && c.log[partial[p].origin].decodes
    {
      InProgressIs(c, s, partial, p);
    }
  }

  lemma InvStep(c: Config, s: State, s': State, step: Step)
    requires Inv(c, s) && NextStep(c, s, s', step)
    ensures Inv(c, s')
  {
    hide AttemptStep, DivertStep, ExecuteStep, ReadStep;
    match step
    case Read(failedAt, now, nowMs) => InvRead(c, s, s', failedAt, now, nowMs);
    case Attempt(t) => InvAttempt(c, s, s', t);
    case Divert(key, src, stages, written) => InvDivert(c, s, s', key, src, stages, written);
    case Execute(key, src, stages, out, done, answers, written) =>
      InvExecute(c, s, s', key, src, stages, out, done, answers, written);
    case Send => assert Full(s') == Full(s);
    case Crash(partial) => InvCrash(c, s, s', partial);
    case _ =>
  }

  lemma {:induction false} InvReached(c: Config, states: seq<State>, steps: seq<Step>, i: nat)
    requires Behaves(c, states, steps) && i < |states|
    ensures Inv(c, states[i])
  {
    if i > 0 {
      InvReached(c, states, steps, i - 1);
      InvStep(c, states[i - 1], states[i], steps[i - 1]);
    }
  }
}
