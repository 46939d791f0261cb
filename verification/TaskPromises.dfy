/** What the consumer of a partition promises, over all of its runs. */
module TaskPromises {
  import opened Events
  import opened PlanOrder
  import opened Encode
  import opened Execution
  import opened Replan
  import opened Retry
  import opened Task
  import opened TaskDelivery
  import opened TaskOnce
  import opened TaskOrder
  import opened TaskExamples

  /** A retry record that isn't stored as consumed holds the event. */
  ghost predicate Held(s: State, o: nat) {
    exists x :: s.storedRetry <= x < |s.retry| && s.retry[x].item == o
  }

  /** At every moment of every run, whatever crashed before, every main record
      stored as consumed was handled, was dropped with an error, or is held by a
      retry record not stored as consumed yet, and every retry record stored as
      consumed was handled or dropped: starting over from the stored offsets
      loses nothing. */
  lemma NothingLost(c: Config, states: seq<State>, steps: seq<Step>, i: nat)
    requires Behaves(c, states, steps) && i < |states| && c.mode.NoEventLose?
    ensures forall o: nat :: o < states[i].storedMain ==> SettledEvent(states[i], o) || Held(states[i], o)
    ensures forall x: nat :: x < states[i].storedRetry ==>
              x < |states[i].retry| && SettledEvent(states[i], states[i].retry[x].item)
  {
    hide SettledEvent, Valid, EntriesOk, KeyedOk, Behaves;
    var s := states[i];
    Delivered(c, states, steps, i);
    InvReached(c, states, steps, i);
    forall o: nat | o < s.storedMain && !SettledEvent(s, o)
      ensures Held(s, o)
    {
      assert In(s.retry, o);
      var x :| 0 <= x < |s.retry| && s.retry[x].item == o;
      assert x >= s.storedRetry;
    }
  }

  /** In `NoDoubleConsume`, whatever crashes: no main record is planned twice, no
      retry record is read twice, and an event is handled again only if its
      record stayed pending, which `StaysPending` settles. */
  lemma AtMostOnce(c: Config, states: seq<State>, steps: seq<Step>, i: nat)
    requires Behaves(c, states, steps) && i < |states| && c.mode.NoDoubleConsume?
    ensures forall p, q :: 0 <= p < q < |states[i].planned| ==> states[i].planned[p] < states[i].planned[q]
    ensures forall p, q :: 0 <= p < q < |states[i].taken| ==> states[i].taken[p] < states[i].taken[q]
    ensures forall p, q :: 0 <= p < q < |states[i].hist| && states[i].hist[p].origin == states[i].hist[q].origin ==> states[i].hist[p].again
  {
    hide Behaves, LiveBegun, LiveOnce, HistBegun, HandledGone;
    HandledAtMostOnce(c, states, steps, i);
  }

  ghost predicate HandledSingly(hist: seq<Handling>) {
    forall p, q :: 0 <= p < q < |hist| ==> hist[p].origin != hist[q].origin
  }

  /** With a single delay no event is handled twice while nothing is reread,
      whatever fails or crashes. */
  lemma NeverTwice(c: Config, states: seq<State>, steps: seq<Step>, i: nat)
    requires Behaves(c, states, steps) && i < |states| && Once(c, states[i]) && |c.delays| == 1
    ensures HandledSingly(states[i].hist)
  {
    hide Behaves, LiveBegun, LiveOnce, HistBegun, HandledGone;
    HandledAtMostOnce(c, states, steps, i);
    NoneKeptReached(c, states, steps, i);
  }

  /** Under these delays no event is handled twice in `NoDoubleConsume`, in any
      run over any log. */
  ghost predicate KeepsSingle(delays: seq<nat>) {
    forall c: Config, states: seq<State>, steps: seq<Step>, i: nat ::
      c.delays == delays && c.mode.NoDoubleConsume? && Behaves(c, states, steps) && i < |states| ==> HandledSingly(states[i].hist)
  }

  /** Which configurations keep the promise that no event is handled twice. */
  lemma SingleExactly(delays: seq<nat>)
    requires delays != []
    ensures KeepsSingle(delays) <==> |delays| == 1
  {
    hide Behaves, HandledSingly, Path, Moves, Example, Ended;
    if |delays| == 1 {
      forall c: Config, states: seq<State>, steps: seq<Step>, i: nat
        | c.delays == delays && c.mode.NoDoubleConsume? && Behaves(c, states, steps) && i < |states|
        ensures HandledSingly(states[i].hist)
      {
        NeverTwice(c, states, steps, i);
      }
    } else {
      ProcessedTwice(delays);
      TwiceEnded(delays);
    }
  }

  lemma TwiceEnded(delays: seq<nat>)
    requires |delays| > 1
    ensures Example(delays).delays == delays && !HandledSingly(Ended(delays).hist)
  {
    assert Ended(delays).hist[1].origin == Ended(delays).hist[3].origin;
  }

  /** While nothing is reread, whatever fails or crashes: no event `y` is handled
      before an event `x` the log requires before it, unless `x` is never handled
      at all. Events of different types are even handled strictly one after the
      other: no handling of `x`, first or repeated, comes after one of `y`. */
  lemma RequiredOrderKept(c: Config, states: seq<State>, steps: seq<Step>, i: nat, x: nat, p: nat, y: nat, q: nat)
    requires Behaves(c, states, steps) && i < |states| && Once(c, states[i])
    requires Req(c, x, y) && p < |states[i].hist| && q < |states[i].hist|
    requires states[i].hist[p].origin == x && states[i].hist[q].origin == y
    ensures exists first :: 0 <= first < q && states[i].hist[first].origin == x
    ensures c.log[x].record.tag != c.log[y].record.tag ==> p < q
  {
    hide Behaves, Inv, OnceInv;
    OrderReached(c, states, steps, i);
    assert OrderedAt(c, states[i], q);
    assert FirstAt(c, states[i], q, x);
  }

  /** So `x` succeeds before `y` is handled, if their types differ or `x`
      succeeds the first time it is handled. */
  lemma SucceedsFirst(c: Config, states: seq<State>, steps: seq<Step>, i: nat, x: nat, p: nat, y: nat, q: nat)
    requires Behaves(c, states, steps) && i < |states| && Once(c, states[i])
    requires Req(c, x, y) && p < |states[i].hist| && q < |states[i].hist|
    requires states[i].hist[p].origin == x && states[i].hist[p].applied && states[i].hist[q].origin == y
    requires c.log[x].record.tag != c.log[y].record.tag || !Among(states[i].hist, p, x)
    ensures p < q
  {
    hide Behaves, Req;
    RequiredOrderKept(c, states, steps, i, x, p, y, q);
  }

  /** `x` succeeds before handling `q`. */
  ghost predicate SucceededBefore(hist: seq<Handling>, q: nat, x: nat) {
    exists p :: 0 <= p < q && p < |hist| && hist[p].origin == x && hist[p].applied
  }

  /** An event that succeeds does so before anything that must come after it is handled. */
  ghost predicate SucceedsInOrder(c: Config, hist: seq<Handling>) {
    forall p: nat, q: nat :: p < |hist| && q < |hist| && hist[p].applied && Req(c, hist[p].origin, hist[q].origin) ==>
      SucceededBefore(hist, q, hist[p].origin)
  }

  /** Under these delays events that succeed do so in the order of the log, in
      any run that rereads nothing, over any log. */
  ghost predicate KeepsSuccesses(delays: seq<nat>) {
    forall c: Config, states: seq<State>, steps: seq<Step>, i: nat ::
      c.delays == delays && Behaves(c, states, steps) && i < |states| && Once(c, states[i]) ==> SucceedsInOrder(c, states[i].hist)
  }

  lemma SuccessesInOrder(c: Config, states: seq<State>, steps: seq<Step>, i: nat)
    requires Behaves(c, states, steps) && i < |states| && Once(c, states[i]) && |c.delays| == 1
    ensures SucceedsInOrder(c, states[i].hist)
  {
    hide Behaves, Req;
    var hist := states[i].hist;
    NeverTwice(c, states, steps, i);
    forall p: nat, q: nat | p < |hist| && q < |hist| && hist[p].applied && Req(c, hist[p].origin, hist[q].origin)
      ensures SucceededBefore(hist, q, hist[p].origin)
    {
      SucceedsFirst(c, states, steps, i, hist[p].origin, p, hist[q].origin, q);
    }
  }

  /** Which configurations make events succeed in the order of the log. */
  lemma SuccessesExactly(delays: seq<nat>)
    requires delays != []
    ensures KeepsSuccesses(delays) <==> |delays| == 1
  {
    hide Behaves, SucceedsInOrder, Path, Moves, Example, Ended;
    if |delays| == 1 {
      forall c: Config, states: seq<State>, steps: seq<Step>, i: nat
        | c.delays == delays && Behaves(c, states, steps) && i < |states| && Once(c, states[i])
        ensures SucceedsInOrder(c, states[i].hist)
      {
        SuccessesInOrder(c, states, steps, i);
      }
    } else {
      SucceedsLate(delays);
      LateEnded(delays);
    }
  }

  lemma LateEnded(delays: seq<nat>)
    requires |delays| > 1
    requires Req(Example(delays), 0, 1)
    ensures Example(delays).delays == delays && Example(delays).mode.NoDoubleConsume? && !SucceedsInOrder(Example(delays), Ended(delays).hist)
  {
    hide Req;
    var hist := Ended(delays).hist;
    assert hist[2].applied && hist[2].origin == 0 && hist[1].origin == 1;
    assert !SucceededBefore(hist, 1, 0);
  }

  /** While nothing is reread, planning the retry records of a key that are still
      to be run keeps every order the main log required of them: those of several
      batches, and whatever was left after runs completed or were given up. */
  lemma ReplansInOrder(c: Config, states: seq<State>, steps: seq<Step>, n: nat, key: Key, i: nat, j: nat)
    requires Behaves(c, states, steps) && n < |states| && Once(c, states[n])
    requires states[n].phase.Running? && key in states[n].schedule.keys && QueueReq(c, states[n], key, i, j)
    ensures forall i :: 0 <= i < |states[n].schedule.keys[key].records| ==> states[n].schedule.keys[key].records[i] < |states[n].retry|
    ensures Precedes(Headers(key, Queue(states[n], states[n].schedule.keys[key].records)), i, j)
  {
    hide Behaves, Precedes, Inv, AcquiresKept, Ordered, QueueReq;
    InvReached(c, states, steps, n);
    OrderReached(c, states, steps, n);
    QueuePrecedes(c, states[n], key, i, j);
  }
}
