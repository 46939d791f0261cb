/** Nothing is lost or duplicated between executing a key and writing out the rest. */
module Conservation {
  import opened Wrappers
  import opened Events
  import opened Planner
  import opened Work
  import opened Handler
  import opened Execute
  import opened Encode

  lemma SumOfThree<E>(a: seq<E>, b: seq<E>, c: seq<E>, d: seq<E>, x: seq<E>, y: seq<E>, rest: seq<E>)
    requires multiset(a) + multiset(c) == multiset(x) && multiset(b) + multiset(d) == multiset(y)
    ensures multiset(a + b) + multiset(c + d + rest) == multiset(x + y + rest)
  {
  }

  lemma SumOfParts<E>(a: seq<E>, b: seq<E>, c: seq<E>, d: seq<E>, all: seq<E>)
    requires multiset(a) + multiset(c) == multiset(all)
    ensures multiset(a + b) + multiset(c + d) == multiset(all + (b + d))
  {
  }

  lemma {:induction false} StageConserved<E>(work: seq<seq<E>>, fail: seq<Option<nat>>, left: seq<seq<E>>)
    requires FailFits(work, fail) && |left| == |work|
    requires forall b :: 0 <= b < |work| ==> left[b] == if fail[b].Some? then work[b][fail[b].value..] else []
    ensures multiset(HandledIn(work, fail)) + multiset(StageItems(left)) == multiset(StageItems(work))
  {
    if work != [] {
      var n := |work| - 1;
      StageConserved(work[..n], fail[..n], left[..n]);
      var here := if fail[n].Some? then work[n][..fail[n].value] else work[n];
      assert work[n] == here + left[n];
      SumOfParts(HandledIn(work[..n], fail[..n]), here, StageItems(left[..n]), left[n], StageItems(work[..n]));
    }
  }

  /** Of the stages before `g` everything is handled and nothing is left. */
  lemma {:induction false} StagesBefore<E>(work: Work<E>, left: Work<E>, g: nat)
    requires g <= |work| && |left| == g
    requires forall k :: 0 <= k < g ==> |left[k]| == |work[k]| && forall b :: 0 <= b < |work[k]| ==> left[k][b] == []
    ensures multiset(HandledBefore(work, g)) + multiset(AllItems(left)) == multiset(AllItems(work[..g]))
  {
    hide HandledIn, StageItems;
    if g > 0 {
      var k := g - 1;
      StagesBefore(work, left[..k], k);
      StageConserved(work[k], NoFailure(|work[k]|), left[k]);
      assert work[..g][..k] == work[..k];
      SumOfThree(HandledBefore(work, k), HandledIn(work[k], NoFailure(|work[k]|)), AllItems(left[..k]), StageItems(left[k]),
                 AllItems(work[..k]), StageItems(work[k]), []);
    }
  }

  lemma {:induction false} ItemsConcat<E>(xs: Work<E>, ys: Work<E>)
    ensures AllItems(xs + ys) == AllItems(xs) + AllItems(ys)
  {
    hide StageItems;
    if ys == [] {
      assert xs + ys == xs;
    } else {
      var n := |ys| - 1;
      assert (xs + ys)[..|xs| + n] == xs + ys[..n];
      ItemsConcat(xs, ys[..n]);
    }
  }

  /** The events handled before a key stopped and the events left to write are
      together the reduced events of all of its runs, each once. */
  lemma WorkConserved<E>(work: Work<E>, out: Outcome)
    requires OutcomeOk(work, out)
    ensures multiset(HandledAll(work, out)) + multiset(AllItems(LeftWork(work, Reached(out)))) == multiset(AllItems(work))
  {
    hide HandledIn, HandledBefore, StageItems, AllItems;
    var left, g := LeftWork(work, Reached(out)), out.stop;
    forall k, b | 0 <= k < g && 0 <= b < |work[k]|
      ensures left[k][b] == []
    {
      assert left[k][b] == Left(work, Reached(out), k, b);
    }
    StagesBefore(work, left[..g], g);
    if g == |work| {
      assert left[..g] == left && work[..g] == work;
    } else {
      forall b | 0 <= b < |work[g]|
        ensures left[g][b] == if out.fail[b].Some? then work[g][b][out.fail[b].value..] else []
      {
        assert left[g][b] == Left(work, Reached(out), g, b);
      }
      StageConserved(work[g], out.fail, left[g]);
      forall k, b | g < k < |work| && 0 <= b < |work[k]|
        ensures left[k][b] == work[k][b]
      {
        assert left[k][b] == Left(work, Reached(out), k, b);
      }
      RestSame(work, left, g);
      SumOfThree(HandledBefore(work, g), HandledIn(work[g], out.fail), AllItems(left[..g]), StageItems(left[g]),
                 AllItems(work[..g]), StageItems(work[g]), AllItems(work[g + 1..]));
    }
  }

  lemma RestSame<E>(work: Work<E>, left: Work<E>, g: nat)
    requires |left| == |work| && g < |work|
    requires forall k :: g < k < |work| ==> |left[k]| == |work[k]| && forall b :: 0 <= b < |work[k]| ==> left[k][b] == work[k][b]
    ensures AllItems(work) == AllItems(work[..g]) + StageItems(work[g]) + AllItems(work[g + 1..])
    ensures AllItems(left) == AllItems(left[..g]) + StageItems(left[g]) + AllItems(work[g + 1..])
  {
    forall k | g < k < |work|
      ensures left[k] == work[k]
    {
    }
    assert left[g + 1..] == work[g + 1..];
    SplitAt(work, g);
    SplitAt(left, g);
  }

  lemma SplitAt<E>(work: Work<E>, g: nat)
    requires g < |work|
    ensures AllItems(work) == AllItems(work[..g]) + StageItems(work[g]) + AllItems(work[g + 1..])
  {
    hide StageItems, AllItems;
    AllSnoc(work, g);
    assert work == work[..g + 1] + work[g + 1..];
    ItemsConcat(work[..g + 1], work[g + 1..]);
  }

  lemma AllSnoc<E>(work: Work<E>, g: nat)
    requires g < |work|
    ensures AllItems(work[..g + 1]) == AllItems(work[..g]) + StageItems(work[g])
  {
    hide StageItems;
    assert work[..g + 1][..g] == work[..g];
  }

  /** The items of entries, in order. */
  ghost function ItemsOf<T>(entries: seq<Entry<T>>): seq<T> {
    seq(|entries|, i requires 0 <= i < |entries| => entries[i].item)
  }

  lemma ItemsOfConcat<T>(xs: seq<Entry<T>>, ys: seq<Entry<T>>)
    ensures ItemsOf(xs + ys) == ItemsOf(xs) + ItemsOf(ys)
  {
  }

  lemma {:induction false} StageEntriesItems<T>(rank: nat, stage: Stage, items: seq<seq<T>>)
    requires |items| == |stage|
    ensures ItemsOf(StageEntries(rank, stage, items)) == StageItems(items)
  {
    if stage != [] {
      var n := |stage| - 1;
      StageEntriesItems(rank, stage[..n], items[..n]);
      ItemsOfConcat(StageEntries(rank, stage[..n], items[..n]), RunEntries(rank, stage[n].tag, items[n]));
      assert ItemsOf(RunEntries(rank, stage[n].tag, items[n])) == items[n];
    }
  }

  /** The entries written are those of every run in plan order, each once. */
  lemma {:induction false} KeyEntriesItems<T>(stages: seq<Stage>, items: Work<T>, g: nat)
    requires g <= |stages| == |items| && forall k :: 0 <= k < |stages| ==> |items[k]| == |stages[k]|
    ensures ItemsOf(KeyEntries(stages, items, g)) == AllItems(items[..g])
  {
    if g > 0 {
      KeyEntriesItems(stages, items, g - 1);
      StageEntriesItems((g - 1) % 3, stages[g - 1], items[g - 1]);
      ItemsOfConcat(KeyEntries(stages, items, g - 1), StageEntries((g - 1) % 3, stages[g - 1], items[g - 1]));
      assert items[..g][..g - 1] == items[..g - 1];
    }
  }

  /** The events that serialize. */
  ghost function Serializable<P, E>(h: Handlers<P, E>, tag: Tag, events: seq<E>): seq<E> {
    if events == [] then []
    else
      var n := |events| - 1;
      Serializable(h, tag, events[..n]) + (if h.encode(tag, events[n]).Some? then [events[n]] else [])
  }

  /** The payload of each event that has one deserializes to the event. */
  ghost predicate RoundTrips<P, E>(h: Handlers<P, E>, tag: Tag, events: seq<E>) {
    forall e :: e in events && h.encode(tag, e).Some? ==> h.decode(tag, h.encode(tag, e).value) == Some(e)
  }

  /** Payload `i` is that of event `i`. */
  ghost predicate Paired<P, E>(h: Handlers<P, E>, tag: Tag, kept: seq<E>, payloads: seq<P>) {
    |payloads| == |kept| && forall i :: 0 <= i < |kept| ==> h.encode(tag, kept[i]) == Some(payloads[i])
  }

  /** `payloads` are those of the events that serialize, in order, and decode to them. */
  ghost predicate Written<P, E>(h: Handlers<P, E>, tag: Tag, events: seq<E>, payloads: seq<P>) {
    var kept := Serializable(h, tag, events);
    && Paired(h, tag, kept, payloads)
    && (RoundTrips(h, tag, events) ==> DecodedRun(h, tag, payloads) == kept)
    && ((forall i :: 0 <= i < |events| ==> h.encode(tag, events[i]).Some?) ==> kept == events)
  }

  lemma PairedSnoc<P, E>(h: Handlers<P, E>, tag: Tag, kept: seq<E>, payloads: seq<P>, e: E)
    requires Paired(h, tag, kept, payloads) && h.encode(tag, e).Some?
    ensures Paired(h, tag, kept + [e], payloads + [h.encode(tag, e).value])
  {
  }

  lemma {:induction false} EncodedPaired<P, E>(h: Handlers<P, E>, tag: Tag, events: seq<E>)
    ensures Paired(h, tag, Serializable(h, tag, events), Encoded(h, tag, events))
  {
    hide Paired;
    if events == [] {
      assert Paired(h, tag, [], []) by { NonePaired(h, tag); }
    } else {
      var n := |events| - 1;
      EncodedPaired(h, tag, events[..n]);
      if h.encode(tag, events[n]).Some? {
        PairedSnoc(h, tag, Serializable(h, tag, events[..n]), Encoded(h, tag, events[..n]), events[n]);
      } else {
        assert Encoded(h, tag, events) == Encoded(h, tag, events[..n]);
        assert Serializable(h, tag, events) == Serializable(h, tag, events[..n]);
      }
    }
  }

  lemma NonePaired<P, E>(h: Handlers<P, E>, tag: Tag)
    ensures Paired(h, tag, [], [])
  {
  }

  lemma {:induction false} AllSerializable<P, E>(h: Handlers<P, E>, tag: Tag, events: seq<E>)
    requires forall i :: 0 <= i < |events| ==> h.encode(tag, events[i]).Some?
    ensures Serializable(h, tag, events) == events
  {
    if events != [] {
      var n := |events| - 1;
      AllSerializable(h, tag, events[..n]);
    }
  }

  lemma {:induction false} EncodedDecodes<P, E>(h: Handlers<P, E>, tag: Tag, events: seq<E>)
    requires RoundTrips(h, tag, events)
    ensures DecodedRun(h, tag, Encoded(h, tag, events)) == Serializable(h, tag, events)
  {
    if events != [] {
      var n := |events| - 1;
      var front := Encoded(h, tag, events[..n]);
      EncodedDecodes(h, tag, events[..n]);
      assert events[n] in events;
      if h.encode(tag, events[n]).Some? {
        DecodedSnoc(h, tag, front, h.encode(tag, events[n]).value);
      } else {
        assert Encoded(h, tag, events) == front;
      }
    }
  }

  lemma DecodedSnoc<P, E>(h: Handlers<P, E>, tag: Tag, front: seq<P>, p: P)
    ensures DecodedRun(h, tag, front + [p]) ==
            DecodedRun(h, tag, front) + (match h.decode(tag, p) case Some(e) => [e] case None => [])
  {
    assert (front + [p])[..|front|] == front;
  }

  /** What is written of a run is the payloads of the events that serialize. */
  lemma EncodedIs<P, E>(h: Handlers<P, E>, tag: Tag, events: seq<E>)
    ensures Written(h, tag, events, Encoded(h, tag, events))
  {
    hide Encoded, Serializable, DecodedRun, RoundTrips, Paired;
    EncodedPaired(h, tag, events);
    if forall i :: 0 <= i < |events| ==> h.encode(tag, events[i]).Some? {
      AllSerializable(h, tag, events);
    }
    if RoundTrips(h, tag, events) {
      EncodedDecodes(h, tag, events);
    }
  }

  /** The retry records of a key that stopped hold, run by run, exactly the
      reduced events not handled that serialize, and what was not handled of a
      run is an exact suffix of it. */
  lemma EntriesConserve<P, E>(h: Handlers<P, E>, stages: seq<Stage>, payloads: seq<P>, out: Outcome, entries: seq<Entry<P>>)
    requires StagesFit(stages, |payloads|)
    requires OutcomeOk(KeyWork(h, stages, payloads), out)
    requires entries == KeyEntries(stages, LeftPayloads(h, stages, KeyWork(h, stages, payloads), Reached(out)), |stages|)
    ensures
      var work := KeyWork(h, stages, payloads);
      var left := LeftWork(work, Reached(out));
      var written := LeftPayloads(h, stages, work, Reached(out));
      && ItemsOf(entries) == AllItems(written)
      && (forall g, b :: 0 <= g < |stages| && 0 <= b < |stages[g]| ==>
            && Handled(work, Reached(out), g, b) + left[g][b] == work[g][b]
            && Written(h, stages[g][b].tag, left[g][b], written[g][b]))
      && multiset(HandledAll(work, out)) + multiset(AllItems(left)) == multiset(AllItems(work))
  {
    hide Encoded, DecodedRun, ReducedRun, StageEntries, HandledAll, OutcomeOk, AllItems, Written;
    var work := KeyWork(h, stages, payloads);
    var written := LeftPayloads(h, stages, work, Reached(out));
    KeyEntriesItems(stages, written, |stages|);
    assert written[..|stages|] == written;
    WorkConserved(work, out);
    forall g, b | 0 <= g < |stages| && 0 <= b < |stages[g]|
      ensures Handled(work, Reached(out), g, b) + LeftWork(work, Reached(out))[g][b] == work[g][b]
      ensures Written(h, stages[g][b].tag, LeftWork(work, Reached(out))[g][b], written[g][b])
    {
      EncodedIs(h, stages[g][b].tag, Left(work, Reached(out), g, b));
    }
  }
}
