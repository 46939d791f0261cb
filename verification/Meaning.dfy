/** Executing a plan has the effect of applying its batch in log order. */
module Meaning {
  import opened Events
  import opened Segmentation
  import opened PlanOrder
  import opened Commuting
  import opened Planner
  import opened Algebra

  /** A decoded event, with the header data its laws are relative to. */
  datatype Event<B> = Event(key: Key, tag: Tag, body: B)

  /** Of this key and type. */
  ghost function Own<B>(key: Key, tag: Tag): Event<B> -> bool {
    (e: Event<B>) => e.key == key && e.tag == tag
  }

  /** The runs one after another. */
  ghost function Concat<T>(xss: seq<seq<T>>): seq<T> {
    if xss == [] then [] else Concat(xss[..|xss| - 1]) + xss[|xss| - 1]
  }

  /** For every event of `Concat(xss)`, the run it is from. */
  ghost function Owners<T>(xss: seq<seq<T>>): (os: seq<nat>)
    ensures |os| == |Concat(xss)|
    ensures forall x :: 0 <= x < |os| ==> os[x] < |xss| && Concat(xss)[x] in xss[os[x]]
    ensures forall x, y :: 0 <= x < y < |os| ==> os[x] <= os[y]
  {
    if xss == [] then []
    else
      var n := |xss| - 1;
      Owners(xss[..n]) + seq(|xss[n]|, _ => n)
  }

  lemma {:induction false} ConcatEffect<S, E>(act: (S, E) -> S, s: S, xss: seq<seq<E>>, yss: seq<seq<E>>)
    requires |xss| == |yss|
    requires forall r, t :: 0 <= r < |xss| ==> Apply(act, t, xss[r]) == Apply(act, t, yss[r])
    ensures Apply(act, s, Concat(xss)) == Apply(act, s, Concat(yss))
    decreases |xss|
  {
    if xss != [] {
      var n := |xss| - 1;
      ConcatEffect(act, s, xss[..n], yss[..n]);
      ApplyConcat(act, s, Concat(xss[..n]), xss[n]);
      ApplyConcat(act, s, Concat(yss[..n]), yss[n]);
    }
  }

  /** The events of run `r`, in log order. */
  ghost function RunEvents<B>(plan: Plan, events: seq<Event<B>>, r: nat): seq<Event<B>>
    requires plan.InRange() && r < |plan.runs|
    requires forall a :: 0 <= a < |plan.order| ==> plan.order[a] < |events|
  {
    Pick(events, plan.order[plan.runs[r].lo..plan.runs[r].hi])
  }

  ghost function AllRuns<B>(plan: Plan, events: seq<Event<B>>): seq<seq<Event<B>>>
    requires plan.InRange()
    requires forall a :: 0 <= a < |plan.order| ==> plan.order[a] < |events|
  {
    seq(|plan.runs|, r requires 0 <= r < |plan.runs| => RunEvents(plan, events, r))
  }

  /** What the consumer applies of every run: its reduction. */
  ghost function ReducedRuns<B>(plan: Plan, events: seq<Event<B>>, algebras: Tag -> Algebra<Event<B>>): seq<seq<Event<B>>>
    requires plan.InRange()
    requires forall a :: 0 <= a < |plan.order| ==> plan.order[a] < |events|
  {
    seq(|plan.runs|, r requires 0 <= r < |plan.runs| =>
      Reduced(algebras(plan.runs[r].tag), RunEvents(plan, events, r)))
  }

  /** Where the first `m` runs end. */
  ghost function EndOf(plan: Plan, m: nat): nat
    requires m <= |plan.runs|
  {
    if m == 0 then 0 else plan.runs[m - 1].hi
  }

  lemma PickConcat<E>(xs: seq<E>, order: seq<nat>, lo: nat, hi: nat)
    requires lo <= hi <= |order| && forall a :: 0 <= a < |order| ==> order[a] < |xs|
    ensures Pick(xs, order[..lo]) + Pick(xs, order[lo..hi]) == Pick(xs, order[..hi])
  {
  }

  lemma {:induction false} RunsTile<B>(plan: Plan, events: seq<Event<B>>, n: nat, m: nat)
    requires plan.InRange() && Tiles(plan.runs, n) && |plan.order| == n && m <= |plan.runs|
    requires forall a :: 0 <= a < |plan.order| ==> plan.order[a] < |events|
    ensures Concat(AllRuns(plan, events)[..m]) == Pick(events, plan.order[..EndOf(plan, m)])
  {
    if m > 0 {
      RunsTile(plan, events, n, m - 1);
      var runs := AllRuns(plan, events);
      assert runs[..m][..m - 1] == runs[..m - 1];
      assert Concat(runs[..m]) == Concat(runs[..m - 1]) + RunEvents(plan, events, m - 1);
      assert m > 1 ==> plan.runs[m - 2].hi == plan.runs[m - 2 + 1].lo;
      assert EndOf(plan, m - 1) == plan.runs[m - 1].lo;
      PickConcat(events, plan.order, plan.runs[m - 1].lo, plan.runs[m - 1].hi);
    }
  }

  /** Every run must finish before run `r'` starts that a record of precedes one of `r'`. */
  ghost predicate RunPrecedes(rs: seq<PlanRecord>, plan: Plan, r: nat, r': nat)
    requires Canonical(rs, plan) && r < |plan.runs| && r' < |plan.runs|
  {
    Precedes(rs, plan.order[plan.runs[r].lo], plan.order[plan.runs[r'].lo])
  }

  /** `p` applies the events of the reduced runs in an order the plan allows:
      keys and runs of one stage interleave freely, a run keeps its order, and a
      run starts once every run that precedes it has finished. */
  ghost predicate Allowed<B>(rs: seq<PlanRecord>, plan: Plan, reduced: seq<seq<Event<B>>>, p: seq<nat>)
    requires Canonical(rs, plan) && |reduced| == |plan.runs|
  {
    && Permutation(p, |Concat(reduced)|)
    && forall a, b :: 0 <= a < b < |p| ==>
         var x, y := Owners(reduced)[p[a]], Owners(reduced)[p[b]];
         !RunPrecedes(rs, plan, y, x) && !(x == y && p[b] < p[a])
  }

  /** The batch, its decoded events, and what is promised of them. */
  ghost predicate Batch<S(!new), B(!new)>(rs: seq<PlanRecord>, events: seq<Event<B>>, act: (S, Event<B>) -> S,
                                          algebras: Tag -> Algebra<Event<B>>)
  {
    && |events| == |rs|
    && (forall i :: 0 <= i < |rs| ==> events[i].key == rs[i].key && events[i].tag == rs[i].tag)
    && (forall i :: 0 <= i < |rs| ==> Lawful(act, algebras(rs[i].tag), Own(rs[i].key, rs[i].tag)))
    && (forall i, j :: 0 <= i < j < |rs| && !Required(rs[i], rs[j]) ==> Commute(act, events[i], events[j]))
  }

  /** Records of different runs are ordered as their runs are. */
  lemma RunsOrdered(rs: seq<PlanRecord>, plan: Plan, r: nat, r': nat, a: nat, b: nat)
    requires Canonical(rs, plan) && r < |plan.runs| && r' < |plan.runs| && r != r'
    requires plan.runs[r].lo <= a < plan.runs[r].hi && plan.runs[r'].lo <= b < plan.runs[r'].hi
    ensures Precedes(rs, plan.order[a], plan.order[b]) ==> RunPrecedes(rs, plan, r, r')
  {
    hide Assign;
    var i, j := plan.order[plan.runs[r].lo], plan.order[plan.runs[r'].lo];
    assert a == plan.runs[r].lo || SameRun(rs, i, plan.order[a]);
    assert b == plan.runs[r'].lo || SameRun(rs, j, plan.order[b]);
    assert if r < r' then !SameRun(rs, i, j) else !SameRun(rs, j, i);
  }

  /** Two records the plan doesn't order commute. */
  lemma UnorderedCommute<S(!new), B(!new)>(rs: seq<PlanRecord>, events: seq<Event<B>>, act: (S, Event<B>) -> S,
                                           algebras: Tag -> Algebra<Event<B>>, i: nat, j: nat)
    requires Batch(rs, events, act, algebras) && i < |rs| && j < |rs| && i != j
    requires !Precedes(rs, i, j) && !Precedes(rs, j, i)
    ensures Commute(act, events[i], events[j])
  {
    if i < j {
      if Required(rs[i], rs[j]) {
        RequiredPrecedes(rs, i, j);
      }
    } else {
      if Required(rs[j], rs[i]) {
        RequiredPrecedes(rs, j, i);
      }
      assert Commute(act, events[j], events[i]);
    }
  }

  /** The runs of a plan, one after another, are its order. */
  lemma RunsAreOrder<B>(rs: seq<PlanRecord>, plan: Plan, events: seq<Event<B>>)
    requires Canonical(rs, plan) && |events| == |rs|
    ensures Concat(AllRuns(plan, events)) == Pick(events, plan.order)
  {
    hide Assign, Precedes;
    RunsTile(plan, events, |rs|, |plan.runs|);
    assert AllRuns(plan, events)[..|plan.runs|] == AllRuns(plan, events);
    assert plan.order[..|rs|] == plan.order;
  }

  /** The canonical order of a plan has the effect of the log. */
  lemma CanonicalEffect<S(!new), B(!new)>(rs: seq<PlanRecord>, plan: Plan, events: seq<Event<B>>, act: (S, Event<B>) -> S,
                                          algebras: Tag -> Algebra<Event<B>>, s: S)
    requires Canonical(rs, plan) && Batch(rs, events, act, algebras)
    ensures Apply(act, s, Pick(events, plan.order)) == Apply(act, s, events)
  {
    hide Assign, Precedes, Lawful, Apply;
    forall a, b | 0 <= a < b < |plan.order| && plan.order[a] > plan.order[b]
      ensures Commute(act, events[plan.order[a]], events[plan.order[b]])
    {
      var i, j := plan.order[b], plan.order[a];
      if Required(rs[i], rs[j]) {
        RequiredPrecedes(rs, i, j);
      }
      assert Commute(act, events[i], events[j]);
    }
    Reorder(act, s, events, plan.order);
  }

  /** The events of a run are of its type and of one key. */
  lemma RunOwn<S(!new), B(!new)>(rs: seq<PlanRecord>, plan: Plan, events: seq<Event<B>>, act: (S, Event<B>) -> S,
                                 algebras: Tag -> Algebra<Event<B>>, r: nat)
    requires Canonical(rs, plan) && Batch(rs, events, act, algebras) && r < |plan.runs|
    ensures
      var i := plan.order[plan.runs[r].lo];
      && rs[i].tag == plan.runs[r].tag
      && AllOwn(Own(rs[i].key, rs[i].tag), RunEvents(plan, events, r))
      && Lawful(act, algebras(plan.runs[r].tag), Own(rs[i].key, rs[i].tag))
  {
    hide Assign, Precedes, Lawful;
    var i := plan.order[plan.runs[r].lo];
    forall e | e in RunEvents(plan, events, r)
      ensures Own(rs[i].key, rs[i].tag)(e)
    {
      var a := RecordOf(plan, events, r, e);
      assert a == plan.runs[r].lo || SameRun(rs, i, plan.order[a]);
    }
  }

  /** Reduced events of runs the plan doesn't order commute. */
  lemma ReducedRunsCommute<S(!new), B(!new)>(rs: seq<PlanRecord>, plan: Plan, events: seq<Event<B>>,
                                             act: (S, Event<B>) -> S, algebras: Tag -> Algebra<Event<B>>,
                                             r: nat, r': nat, e: Event<B>, e': Event<B>)
    requires Canonical(rs, plan) && Batch(rs, events, act, algebras)
    requires r < |plan.runs| && r' < |plan.runs| && r != r'
    requires !RunPrecedes(rs, plan, r, r') && !RunPrecedes(rs, plan, r', r)
    requires e in ReducedRuns(plan, events, algebras)[r] && e' in ReducedRuns(plan, events, algebras)[r']
    ensures Commute(act, e, e')
  {
    hide Assign;
    var run, run' := RunEvents(plan, events, r), RunEvents(plan, events, r');
    var i, j := plan.order[plan.runs[r].lo], plan.order[plan.runs[r'].lo];
    RunOwn(rs, plan, events, act, algebras, r);
    RunOwn(rs, plan, events, act, algebras, r');
    forall y | y in run'
      ensures Commute(act, e, y)
    {
      forall x | x in run
        ensures Commute(act, x, y)
      {
        RunEventsCommute(rs, plan, events, act, algebras, r, r', x, y);
      }
      ReducedCommutes(act, algebras(plan.runs[r].tag), Own(rs[i].key, rs[i].tag), run, y);
    }
    forall y | y in run'
      ensures Commute(act, y, e)
    {
      assert Commute(act, e, y);
    }
    ReducedCommutes(act, algebras(plan.runs[r'].tag), Own(rs[j].key, rs[j].tag), run', e);
    assert Commute(act, e', e);
  }

  lemma RunEventsCommute<S(!new), B(!new)>(rs: seq<PlanRecord>, plan: Plan, events: seq<Event<B>>,
                                           act: (S, Event<B>) -> S, algebras: Tag -> Algebra<Event<B>>,
                                           r: nat, r': nat, x: Event<B>, y: Event<B>)
    requires Canonical(rs, plan) && Batch(rs, events, act, algebras)
    requires r < |plan.runs| && r' < |plan.runs| && r != r'
    requires !RunPrecedes(rs, plan, r, r') && !RunPrecedes(rs, plan, r', r)
    requires x in RunEvents(plan, events, r) && y in RunEvents(plan, events, r')
    ensures Commute(act, x, y)
  {
    hide Assign;
    var a := RecordOf(plan, events, r, x);
    var b := RecordOf(plan, events, r', y);
    if r < r' {
      RunsDisjointOrdered(plan, |rs|, r, r');
    } else {
      RunsDisjointOrdered(plan, |rs|, r', r);
    }
    RunsOrdered(rs, plan, r, r', a, b);
    RunsOrdered(rs, plan, r', r, b, a);
    assert plan.order[a] != plan.order[b];
    UnorderedCommute(rs, events, act, algebras, plan.order[a], plan.order[b]);
  }

  /** Where an event of a run is planned. */
  lemma RecordOf<B>(plan: Plan, events: seq<Event<B>>, r: nat, x: Event<B>) returns (a: nat)
    requires plan.InRange() && r < |plan.runs|
    requires forall a :: 0 <= a < |plan.order| ==> plan.order[a] < |events|
    requires x in RunEvents(plan, events, r)
    ensures plan.runs[r].lo <= a < plan.runs[r].hi && events[plan.order[a]] == x
  {
    var run := RunEvents(plan, events, r);
    var c :| 0 <= c < |run| && run[c] == x;
    a := plan.runs[r].lo + c;
  }

  /** If any two events whose log order isn't required commute, and every type
      keeps the law of its marker, then no execution of the plan, with every run
      replaced by its reduction, differs from the log in its effect. */
  lemma PlanPreservesMeaning<S(!new), B(!new)>(rs: seq<PlanRecord>, plan: Plan, events: seq<Event<B>>,
                                               act: (S, Event<B>) -> S, algebras: Tag -> Algebra<Event<B>>,
                                               s: S, p: seq<nat>)
    requires Canonical(rs, plan) && Batch(rs, events, act, algebras)
    requires Allowed(rs, plan, ReducedRuns(plan, events, algebras), p)
    ensures Apply(act, s, Pick(Concat(ReducedRuns(plan, events, algebras)), p)) == Apply(act, s, events)
  {
    hide Assign;
    var reduced := ReducedRuns(plan, events, algebras);
    var flat, owners := Concat(reduced), Owners(reduced);
    forall a, b | 0 <= a < b < |p| && p[a] > p[b]
      ensures Commute(act, flat[p[a]], flat[p[b]])
    {
      var x, y := owners[p[a]], owners[p[b]];
      assert y < x;
      LaterDoesNotPrecede(rs, plan, y, x);
      ReducedRunsCommute(rs, plan, events, act, algebras, x, y, flat[p[a]], flat[p[b]]);
    }
    Reorder(act, s, flat, p);
    forall r, t | 0 <= r < |plan.runs|
      ensures Apply(act, t, reduced[r]) == Apply(act, t, AllRuns(plan, events)[r])
    {
      RunOwn(rs, plan, events, act, algebras, r);
      var i := plan.order[plan.runs[r].lo];
      ReducedEffect(act, algebras(plan.runs[r].tag), Own(rs[i].key, rs[i].tag), t, RunEvents(plan, events, r));
    }
    ConcatEffect(act, s, reduced, AllRuns(plan, events));
    RunsAreOrder(rs, plan, events);
    CanonicalEffect(rs, plan, events, act, algebras, s);
  }

  /** A run doesn't precede one that is planned before it. */
  lemma LaterDoesNotPrecede(rs: seq<PlanRecord>, plan: Plan, r: nat, r': nat)
    requires Canonical(rs, plan) && r < r' < |plan.runs|
    ensures !RunPrecedes(rs, plan, r', r)
  {
    hide Assign;
    RunsDisjointOrdered(plan, |rs|, r, r');
  }

  lemma {:induction false} RunsDisjointOrdered(plan: Plan, n: nat, r: nat, r': nat)
    requires Tiles(plan.runs, n) && r < r' < |plan.runs|
    ensures plan.runs[r].hi <= plan.runs[r'].lo
    decreases r' - r
  {
    assert plan.runs[r' - 1].hi == plan.runs[r' - 1 + 1].lo;
    if r + 1 < r' {
      RunsDisjointOrdered(plan, n, r, r' - 1);
    }
  }
}
