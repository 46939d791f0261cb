/** Reducing a run of events of one type and key, and the laws that make it sound. */
module Algebra {
  import opened Commuting

  /** What an event type promises of its runs. */
  datatype Marker = NonAssociative | Commutative | Idempotent | IdempotentCommutative | Associative

  /** A marker, with the operations some markers need of the events. */
  datatype Algebra<!E> = Algebra(marker: Marker, combine: (E, E) -> E, leq: (E, E) -> bool)

  ghost predicate TotalOrder<E(!new)>(leq: (E, E) -> bool) {
    && (forall a, b :: leq(a, b) || leq(b, a))
    && (forall a, b :: leq(a, b) && leq(b, a) ==> a == b)
    && (forall a, b, c :: leq(a, b) && leq(b, c) ==> leq(a, c))
  }

  /** The law of the marker, for the events `own` selects (those of one type and key). */
  ghost predicate Lawful<S(!new), E(!new)>(act: (S, E) -> S, alg: Algebra<E>, own: E -> bool) {
    match alg.marker
    case NonAssociative => true
    case Commutative => forall a, b :: own(a) && own(b) ==> Commute(act, a, b)
    case Idempotent => forall s, a :: own(a) ==> act(act(s, a), a) == act(s, a)
    case IdempotentCommutative =>
      && (forall a, b :: own(a) && own(b) ==> Commute(act, a, b))
      && (forall s, a :: own(a) ==> act(act(s, a), a) == act(s, a))
      && TotalOrder(alg.leq)
    case Associative =>
      && (forall a, b :: own(a) && own(b) ==> own(alg.combine(a, b)))
      && (forall s, a, b :: own(a) && own(b) ==> act(act(s, a), b) == act(s, alg.combine(a, b)))
  }

  ghost predicate AllOwn<E>(own: E -> bool, run: seq<E>) {
    forall e :: e in run ==> own(e)
  }

  /** Consecutive equal events collapsed into one. */
  function Deduped<E(==)>(run: seq<E>): seq<E> {
    if |run| < 2 then run
    else if run[0] == run[1] then Deduped(run[1..])
    else [run[0]] + Deduped(run[1..])
  }

  /** `e` in its place in a sorted run. */
  function Inserted<E>(leq: (E, E) -> bool, e: E, run: seq<E>): seq<E> {
    if run == [] || leq(e, run[0]) then [e] + run
    else [run[0]] + Inserted(leq, e, run[1..])
  }

  function Sorted<E>(leq: (E, E) -> bool, run: seq<E>): seq<E> {
    if run == [] then [] else Inserted(leq, run[0], Sorted(leq, run[1..]))
  }

  /** The run as one event. */
  function Folded<E>(combine: (E, E) -> E, run: seq<E>): seq<E>
    decreases |run|
  {
    if |run| < 2 then run else Folded(combine, [combine(run[0], run[1])] + run[2..])
  }

  /** What is applied instead of `run`. */
  function Reduced<E(==)>(alg: Algebra<E>, run: seq<E>): seq<E> {
    match alg.marker
    case NonAssociative => run
    case Commutative => run
    case Idempotent => Deduped(run)
    case IdempotentCommutative => Deduped(Sorted(alg.leq, run))
    case Associative => Folded(alg.combine, run)
  }

  // --- Membership ---

  lemma DedupedFirst<E>(run: seq<E>)
    ensures Deduped(run) == [] <==> run == []
    ensures run != [] ==> Deduped(run)[0] == run[0]
  {
  }

  lemma {:induction false} DedupedMembers<E>(run: seq<E>, e: E)
    ensures e in Deduped(run) <==> e in run
  {
    if |run| >= 2 {
      DedupedMembers(run[1..], e);
      assert run == [run[0]] + run[1..];
    }
  }

  lemma {:induction false} InsertedMembers<E>(leq: (E, E) -> bool, e: E, run: seq<E>, x: E)
    ensures x in Inserted(leq, e, run) <==> x == e || x in run
  {
    if run != [] && !leq(e, run[0]) {
      InsertedMembers(leq, e, run[1..], x);
      assert run == [run[0]] + run[1..];
    }
  }

  lemma {:induction false} SortedMembers<E>(leq: (E, E) -> bool, run: seq<E>, x: E)
    ensures x in Sorted(leq, run) <==> x in run
  {
    if run != [] {
      SortedMembers(leq, run[1..], x);
      InsertedMembers(leq, run[0], Sorted(leq, run[1..]), x);
      assert run == [run[0]] + run[1..];
    }
  }

  lemma {:induction false} FoldedOwn<S(!new), E(!new)>(act: (S, E) -> S, alg: Algebra<E>, own: E -> bool, run: seq<E>)
    requires alg.marker.Associative? && Lawful(act, alg, own) && AllOwn(own, run)
    ensures AllOwn(own, Folded(alg.combine, run))
    decreases |run|
  {
    if |run| >= 2 {
      FoldedOwn(act, alg, own, [alg.combine(run[0], run[1])] + run[2..]);
    }
  }

  /** Reduction stays within the events of the type and key. */
  lemma ReducedOwn<S(!new), E(!new)>(act: (S, E) -> S, alg: Algebra<E>, own: E -> bool, run: seq<E>)
    requires Lawful(act, alg, own) && AllOwn(own, run)
    ensures AllOwn(own, Reduced(alg, run))
  {
    match alg.marker {
      case NonAssociative =>
      case Commutative =>
      case Idempotent =>
        forall e | e in Deduped(run) ensures own(e) {
          DedupedMembers(run, e);
        }
      case IdempotentCommutative =>
        forall e | e in Reduced(alg, run) ensures own(e) {
          DedupedMembers(Sorted(alg.leq, run), e);
          SortedMembers(alg.leq, run, e);
        }
      case Associative => FoldedOwn(act, alg, own, run);
    }
  }

  // --- Effect ---

  lemma {:induction false} DedupedEffect<S(!new), E(!new)>(act: (S, E) -> S, own: E -> bool, s: S, run: seq<E>)
    requires AllOwn(own, run) && forall t, a :: own(a) ==> act(act(t, a), a) == act(t, a)
    ensures Apply(act, s, Deduped(run)) == Apply(act, s, run)
    decreases |run|
  {
    if |run| >= 2 {
      var rest := run[1..];
      assert own(run[0]);
      if run[0] == run[1] {
        DedupedEffect(act, own, s, rest);
        assert Apply(act, s, run) == Apply(act, act(act(s, run[0]), rest[0]), rest[1..]);
      } else {
        DedupedEffect(act, own, act(s, run[0]), rest);
        assert ([run[0]] + Deduped(rest))[1..] == Deduped(rest);
      }
    }
  }

  lemma {:induction false} InsertedEffect<S(!new), E(!new)>(act: (S, E) -> S, own: E -> bool, leq: (E, E) -> bool, s: S, e: E, run: seq<E>)
    requires own(e) && AllOwn(own, run)
    requires forall a, b :: own(a) && own(b) ==> Commute(act, a, b)
    ensures Apply(act, s, Inserted(leq, e, run)) == Apply(act, s, [e] + run)
    decreases |run|
  {
    assert ([e] + run)[1..] == run;
    if run != [] && !leq(e, run[0]) {
      InsertedEffect(act, own, leq, act(s, run[0]), e, run[1..]);
      assert ([run[0]] + Inserted(leq, e, run[1..]))[1..] == Inserted(leq, e, run[1..]);
      assert ([e] + run[1..])[1..] == run[1..];
      assert Commute(act, e, run[0]);
      assert Apply(act, act(s, e), run) == Apply(act, act(act(s, e), run[0]), run[1..]);
    }
  }

  lemma {:induction false} SortedEffect<S(!new), E(!new)>(act: (S, E) -> S, own: E -> bool, leq: (E, E) -> bool, s: S, run: seq<E>)
    requires AllOwn(own, run)
    requires forall a, b :: own(a) && own(b) ==> Commute(act, a, b)
    ensures Apply(act, s, Sorted(leq, run)) == Apply(act, s, run)
    decreases |run|
  {
    if run != [] {
      var rest := run[1..];
      forall e | e in Sorted(leq, rest) ensures own(e) {
        SortedMembers(leq, rest, e);
      }
      InsertedEffect(act, own, leq, s, run[0], Sorted(leq, rest));
      SortedEffect(act, own, leq, act(s, run[0]), rest);
      assert ([run[0]] + Sorted(leq, rest))[1..] == Sorted(leq, rest);
    }
  }

  lemma {:induction false} FoldedEffect<S(!new), E(!new)>(act: (S, E) -> S, alg: Algebra<E>, own: E -> bool, s: S, run: seq<E>)
    requires alg.marker.Associative? && Lawful(act, alg, own) && AllOwn(own, run)
    ensures Apply(act, s, Folded(alg.combine, run)) == Apply(act, s, run)
    decreases |run|
  {
    if |run| >= 2 {
      var next := [alg.combine(run[0], run[1])] + run[2..];
      FoldedEffect(act, alg, own, s, next);
      assert next[1..] == run[2..] == run[1..][1..];
      assert Apply(act, act(s, run[0]), run[1..]) == Apply(act, act(act(s, run[0]), run[1]), run[1..][1..]);
    }
  }

  /** Reduction keeps a run's effect on every state. */
  lemma ReducedEffect<S(!new), E(!new)>(act: (S, E) -> S, alg: Algebra<E>, own: E -> bool, s: S, run: seq<E>)
    requires Lawful(act, alg, own) && AllOwn(own, run)
    ensures Apply(act, s, Reduced(alg, run)) == Apply(act, s, run)
  {
    match alg.marker {
      case NonAssociative =>
      case Commutative =>
      case Idempotent => DedupedEffect(act, own, s, run);
      case IdempotentCommutative =>
        var sorted := Sorted(alg.leq, run);
        forall e | e in sorted ensures own(e) {
          SortedMembers(alg.leq, run, e);
        }
        DedupedEffect(act, own, s, sorted);
        SortedEffect(act, own, alg.leq, s, run);
      case Associative => FoldedEffect(act, alg, own, s, run);
    }
  }

  // --- Other events ---

  lemma {:induction false} FoldedCommutes<S(!new), E(!new)>(act: (S, E) -> S, alg: Algebra<E>, own: E -> bool, run: seq<E>, x: E)
    requires alg.marker.Associative? && Lawful(act, alg, own) && AllOwn(own, run)
    requires forall e :: e in run ==> Commute(act, e, x)
    ensures forall e :: e in Folded(alg.combine, run) ==> Commute(act, e, x)
    decreases |run|
  {
    if |run| >= 2 {
      var a, b := run[0], run[1];
      var c := alg.combine(a, b);
      assert own(a) && own(b) && Commute(act, a, x) && Commute(act, b, x);
      forall s ensures act(act(s, c), x) == act(act(s, x), c) {
        assert act(act(s, a), b) == act(s, c);
        assert act(act(act(s, x), a), b) == act(act(s, x), c);
        assert act(act(act(s, a), b), x) == act(act(act(s, a), x), b);
        assert act(act(s, a), x) == act(act(s, x), a);
      }
      FoldedCommutes(act, alg, own, [c] + run[2..], x);
    }
  }

  /** What commutes with every event of a run commutes with its reduction. */
  lemma ReducedCommutes<S(!new), E(!new)>(act: (S, E) -> S, alg: Algebra<E>, own: E -> bool, run: seq<E>, x: E)
    requires Lawful(act, alg, own) && AllOwn(own, run)
    requires forall e :: e in run ==> Commute(act, e, x)
    ensures forall e :: e in Reduced(alg, run) ==> Commute(act, e, x)
  {
    match alg.marker {
      case NonAssociative =>
      case Commutative =>
      case Idempotent =>
        forall e | e in Deduped(run) ensures Commute(act, e, x) {
          DedupedMembers(run, e);
        }
      case IdempotentCommutative =>
        forall e | e in Reduced(alg, run) ensures Commute(act, e, x) {
          DedupedMembers(Sorted(alg.leq, run), e);
          SortedMembers(alg.leq, run, e);
        }
      case Associative => FoldedCommutes(act, alg, own, run, x);
    }
  }

  // --- Reducing twice, and retrying ---

  ghost predicate IsSorted<E>(leq: (E, E) -> bool, run: seq<E>) {
    forall i, j :: 0 <= i < j < |run| ==> leq(run[i], run[j])
  }

  lemma {:induction false} InsertedSorted<E(!new)>(leq: (E, E) -> bool, e: E, run: seq<E>)
    requires TotalOrder(leq) && IsSorted(leq, run)
    ensures IsSorted(leq, Inserted(leq, e, run))
  {
    if run != [] && !leq(e, run[0]) {
      InsertedSorted(leq, e, run[1..]);
      forall x | x in Inserted(leq, e, run[1..]) ensures leq(run[0], x) {
        InsertedMembers(leq, e, run[1..], x);
      }
    }
  }

  lemma {:induction false} SortedIsSorted<E(!new)>(leq: (E, E) -> bool, run: seq<E>)
    requires TotalOrder(leq)
    ensures IsSorted(leq, Sorted(leq, run))
  {
    if run != [] {
      SortedIsSorted(leq, run[1..]);
      InsertedSorted(leq, run[0], Sorted(leq, run[1..]));
    }
  }

  lemma {:induction false} SortedIdentity<E(!new)>(leq: (E, E) -> bool, run: seq<E>)
    requires IsSorted(leq, run)
    ensures Sorted(leq, run) == run
  {
    if run != [] {
      SortedIdentity(leq, run[1..]);
    }
  }

  lemma {:induction false} DedupedSorted<E(!new)>(leq: (E, E) -> bool, run: seq<E>)
    requires IsSorted(leq, run)
    ensures IsSorted(leq, Deduped(run))
  {
    if |run| >= 2 {
      DedupedSorted(leq, run[1..]);
      forall x | x in Deduped(run[1..]) ensures leq(run[0], x) {
        DedupedMembers(run[1..], x);
      }
    }
  }

  lemma {:induction false} DedupedTwice<E>(run: seq<E>)
    ensures Deduped(Deduped(run)) == Deduped(run)
  {
    if |run| >= 2 {
      DedupedTwice(run[1..]);
      DedupedFirst(run[1..]);
      assert ([run[0]] + Deduped(run[1..]))[1..] == Deduped(run[1..]);
    }
  }

  lemma {:induction false} FoldedShort<E>(combine: (E, E) -> E, run: seq<E>)
    ensures |Folded(combine, run)| == (if run == [] then 0 else 1)
    decreases |run|
  {
    if |run| >= 2 {
      FoldedShort(combine, [combine(run[0], run[1])] + run[2..]);
    }
  }

  /** A reduced run can't be reduced further. */
  lemma ReducedTwice<E(!new)>(alg: Algebra<E>, run: seq<E>)
    requires alg.marker.IdempotentCommutative? ==> TotalOrder(alg.leq)
    ensures Reduced(alg, Reduced(alg, run)) == Reduced(alg, run)
  {
    match alg.marker {
      case NonAssociative =>
      case Commutative =>
      case Idempotent => DedupedTwice(run);
      case IdempotentCommutative =>
        var sorted := Sorted(alg.leq, run);
        SortedIsSorted(alg.leq, run);
        DedupedSorted(alg.leq, sorted);
        SortedIdentity(alg.leq, Deduped(sorted));
        DedupedTwice(sorted);
      case Associative => FoldedShort(alg.combine, run);
    }
  }

  lemma {:induction false} DedupedApart<E>(run: seq<E>)
    ensures forall i :: 0 < i < |Deduped(run)| ==> Deduped(run)[i - 1] != Deduped(run)[i]
  {
    if |run| >= 2 {
      DedupedApart(run[1..]);
      DedupedFirst(run[1..]);
    }
  }

  /** A sorted run without equal neighbours has no equal events at all. */
  lemma {:induction false} SortedApart<E(!new)>(leq: (E, E) -> bool, run: seq<E>, i: nat, j: nat)
    requires TotalOrder(leq) && IsSorted(leq, run) && i < j < |run|
    requires forall k :: 0 < k < |run| ==> run[k - 1] != run[k]
    ensures run[i] != run[j]
  {
    assert leq(run[i], run[j - 1]) || i == j - 1;
    assert run[j - 1] != run[j] && leq(run[j - 1], run[j]);
  }

  /** What is left of a run: all of it unless its marker allows less, no equal
      neighbours if applying twice is applying once, each event once and in order
      if it also commutes, and a single event if events combine. */
  lemma ReducedLeast<E(!new)>(alg: Algebra<E>, run: seq<E>)
    requires alg.marker.IdempotentCommutative? ==> TotalOrder(alg.leq)
    ensures
      var r := Reduced(alg, run);
      && (alg.marker.NonAssociative? || alg.marker.Commutative? ==> r == run)
      && (!alg.marker.Associative? ==> forall e :: e in r <==> e in run)
      && (alg.marker.Idempotent? ==> forall i :: 0 < i < |r| ==> r[i - 1] != r[i])
      && (alg.marker.IdempotentCommutative? ==> forall i, j :: 0 <= i < j < |r| ==> alg.leq(r[i], r[j]) && r[i] != r[j])
      && (alg.marker.Associative? ==> |r| == if run == [] then 0 else 1)
  {
    match alg.marker {
      case NonAssociative =>
      case Commutative =>
      case Idempotent =>
        DedupedApart(run);
        forall e ensures e in Deduped(run) <==> e in run {
          DedupedMembers(run, e);
        }
      case IdempotentCommutative =>
        var sorted := Sorted(alg.leq, run);
        SortedIsSorted(alg.leq, run);
        DedupedSorted(alg.leq, sorted);
        DedupedApart(sorted);
        var r := Deduped(sorted);
        forall i, j | 0 <= i < j < |r|
          ensures alg.leq(r[i], r[j]) && r[i] != r[j]
        {
          SortedApart(alg.leq, r, i, j);
        }
        forall e ensures e in r <==> e in run {
          DedupedMembers(sorted, e);
          SortedMembers(alg.leq, run, e);
        }
      case Associative => FoldedShort(alg.combine, run);
    }
  }

  /** Applying some chunks of a reduced run, and later reducing what remained
      together with the records that follow, has the effect of the original
      records in order. */
  lemma RetryEffect<S(!new), E(!new)>(act: (S, E) -> S, alg: Algebra<E>, own: E -> bool, s: S,
                                      run: seq<E>, done: nat, later: seq<E>)
    requires Lawful(act, alg, own) && AllOwn(own, run) && AllOwn(own, later)
    requires done <= |Reduced(alg, run)|
    ensures
      var reduced := Reduced(alg, run);
      Apply(act, Apply(act, s, reduced[..done]), Reduced(alg, reduced[done..] + later))
      == Apply(act, s, run + later)
  {
    var reduced := Reduced(alg, run);
    var t := Apply(act, s, reduced[..done]);
    ReducedOwn(act, alg, own, run);
    ReducedEffect(act, alg, own, t, reduced[done..] + later);
    ApplyConcat(act, t, reduced[done..], later);
    ApplyConcat(act, s, reduced[..done], reduced[done..]);
    assert reduced[..done] + reduced[done..] == reduced;
    ReducedEffect(act, alg, own, s, run);
    ApplyConcat(act, s, run, later);
  }

  // --- The reductions as the source runs them ---

  lemma {:induction false} DedupedSnoc<E>(run: seq<E>, e: E)
    ensures Deduped(run + [e]) == if run != [] && run[|run| - 1] == e then Deduped(run) else Deduped(run) + [e]
  {
    if |run| >= 2 {
      DedupedSnoc(run[1..], e);
      assert (run + [e])[1..] == run[1..] + [e];
    }
  }

  lemma {:induction false} DedupedLast<E>(run: seq<E>)
    ensures run != [] ==> Deduped(run) != [] && Deduped(run)[|Deduped(run)| - 1] == run[|run| - 1]
    ensures |Deduped(run)| <= |run|
  {
    if |run| >= 2 {
      DedupedLast(run[1..]);
    }
  }

  /** Collapses consecutive equal events in place; the first `kept` remain. */
  method Dedup<E(==)>(run: array<E>) returns (kept: nat)
    modifies run
    ensures kept <= run.Length && run[..kept] == Deduped(old(run[..]))
  {
    kept := 0;
    for i := 0 to run.Length
      invariant kept <= i
      invariant run[..kept] == Deduped(old(run[..])[..i])
      invariant run[i..] == old(run[i..])
    {
      ghost var before := old(run[..])[..i];
      DedupedSnoc(before, run[i]);
      DedupedLast(before);
      assert old(run[..])[..i + 1] == before + [run[i]];
      if kept == 0 || run[kept - 1] != run[i] {
        run[kept] := run[i];
        kept := kept + 1;
      }
    }
    assert old(run[..])[..run.Length] == old(run[..]);
  }

  /** Sorts a run; events that compare equal are equal. */
  method Sort<E>(leq: (E, E) -> bool, run: seq<E>) returns (sorted: seq<E>)
    ensures sorted == Sorted(leq, run)
  {
    sorted := [];
    for i := |run| downto 0
      invariant sorted == Sorted(leq, run[i..])
    {
      assert run[i..][1..] == run[i + 1..];
      sorted := Inserted(leq, run[i], sorted);
    }
  }

  /** Folds a run into one event. */
  method Fold<E>(combine: (E, E) -> E, run: seq<E>) returns (folded: seq<E>)
    ensures folded == Folded(combine, run)
  {
    if run == [] {
      return [];
    }
    var acc := run[0];
    assert [acc] + run[1..] == run;
    for i := 1 to |run|
      invariant Folded(combine, run) == Folded(combine, [acc] + run[i..])
    {
      assert ([acc] + run[i..])[2..] == run[i + 1..];
      acc := combine(acc, run[i]);
    }
    folded := [acc];
  }

  /** Reduces a run in log order with its marker. */
  method Reduce<E(==)>(alg: Algebra<E>, run: seq<E>) returns (reduced: seq<E>)
    ensures reduced == Reduced(alg, run)
  {
    match alg.marker {
      case NonAssociative => reduced := run;
      case Commutative => reduced := run;
      case Idempotent => reduced := DedupCopy(run);
      case IdempotentCommutative =>
        var sorted := Sort(alg.leq, run);
        reduced := DedupCopy(sorted);
      case Associative => reduced := Fold(alg.combine, run);
    }
  }

  method DedupCopy<E(==)>(run: seq<E>) returns (reduced: seq<E>)
    ensures reduced == Deduped(run)
  {
    if run == [] {
      return [];
    }
    var buffer := new E[|run|](i requires 0 <= i < |run| => run[i]);
    assert buffer[..] == run;
    var kept := Dedup(buffer);
    reduced := buffer[..kept];
  }
}
