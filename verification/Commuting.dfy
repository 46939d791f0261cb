/** Applying events to a state, and reordering events that commute. */
module Commuting {
  /** The state after applying `es` in order to `s`. */
  ghost function Apply<S, E>(act: (S, E) -> S, s: S, es: seq<E>): S {
    if es == [] then s else Apply(act, act(s, es[0]), es[1..])
  }

  /** Applying `a` and `b` in either order has the same effect. */
  ghost predicate Commute<S(!new), E>(act: (S, E) -> S, a: E, b: E) {
    forall s :: act(act(s, a), b) == act(act(s, b), a)
  }

  lemma {:induction false} ApplyConcat<S, E>(act: (S, E) -> S, s: S, xs: seq<E>, ys: seq<E>)
    ensures Apply(act, s, xs + ys) == Apply(act, Apply(act, s, xs), ys)
    decreases |xs|
  {
    if xs == [] {
      assert xs + ys == ys;
    } else {
      assert (xs + ys)[1..] == xs[1..] + ys;
      ApplyConcat(act, act(s, xs[0]), xs[1..], ys);
    }
  }

  lemma ApplySnoc<S, E>(act: (S, E) -> S, s: S, xs: seq<E>, e: E)
    ensures Apply(act, s, xs + [e]) == act(Apply(act, s, xs), e)
  {
    ApplyConcat(act, s, xs, [e]);
    assert Apply(act, Apply(act, s, xs), [e]) == act(Apply(act, s, xs), e);
  }

  /** An event can move past events it commutes with. */
  lemma {:induction false} MoveLast<S(!new), E>(act: (S, E) -> S, s: S, e: E, ys: seq<E>)
    requires forall y :: y in ys ==> Commute(act, e, y)
    ensures Apply(act, act(s, e), ys) == act(Apply(act, s, ys), e)
    decreases |ys|
  {
    if ys != [] {
      assert Commute(act, e, ys[0]);
      MoveLast(act, act(s, ys[0]), e, ys[1..]);
    }
  }

  /** `p` lists every index below `n` once. */
  ghost predicate Permutation(p: seq<nat>, n: nat) {
    && |p| == n
    && (forall a :: 0 <= a < n ==> p[a] < n)
    && (forall a, b :: 0 <= a < b < n ==> p[a] != p[b])
    && (forall i :: 0 <= i < n ==> i in p)
  }

  /** The elements of `xs` at the indices `p`. */
  function Pick<E>(xs: seq<E>, p: seq<nat>): (ys: seq<E>)
    requires forall a :: 0 <= a < |p| ==> p[a] < |xs|
  {
    seq(|p|, a requires 0 <= a < |p| => xs[p[a]])
  }

  /** Dropping the largest index of a permutation. */
  lemma DropLargest(p: seq<nat>, n: nat, a: nat)
    requires Permutation(p, n + 1) && a <= n && p[a] == n
    ensures Permutation(p[..a] + p[a + 1..], n)
  {
    var q := p[..a] + p[a + 1..];
    assert forall c :: 0 <= c < n ==> q[c] == p[if c < a then c else c + 1];
    forall i | 0 <= i < n
      ensures i in q
    {
      assert i in p;
      var c :| 0 <= c <= n && p[c] == i;
      assert q[if c < a then c else c - 1] == i;
    }
  }

  /** An event in the middle of a log may as well be last, if it commutes with
      everything after it. */
  lemma MoveToEnd<S(!new), E>(act: (S, E) -> S, s: S, front: seq<E>, e: E, after: seq<E>)
    requires forall y :: y in after ==> Commute(act, e, y)
    ensures Apply(act, s, front + [e] + after) == act(Apply(act, s, front + after), e)
  {
    ApplyConcat(act, s, front + [e], after);
    ApplySnoc(act, s, front, e);
    ApplyConcat(act, s, front, after);
    MoveLast(act, Apply(act, s, front), e, after);
  }

  lemma PickWithout<E>(xs: seq<E>, p: seq<nat>, a: nat)
    requires Permutation(p, |xs|) && a < |p| && p[a] == |xs| - 1
    ensures Permutation(p[..a] + p[a + 1..], |xs| - 1)
    ensures Pick(xs, p) == Pick(xs, p[..a]) + [xs[p[a]]] + Pick(xs, p[a + 1..])
    ensures Pick(xs[..|xs| - 1], p[..a] + p[a + 1..]) == Pick(xs, p[..a]) + Pick(xs, p[a + 1..])
  {
    DropLargest(p, |xs| - 1, a);
    var q := p[..a] + p[a + 1..];
    assert forall c :: 0 <= c < |q| ==> q[c] == p[if c < a then c else c + 1] && q[c] < |xs| - 1;
  }

  lemma PickNothing<E>(xs: seq<E>, p: seq<nat>)
    requires Permutation(p, |xs|) && xs == []
    ensures Pick(xs, p) == xs
  {
  }

  lemma AfterCommutes<S(!new), E>(act: (S, E) -> S, xs: seq<E>, p: seq<nat>, a: nat)
    requires Permutation(p, |xs|) && a < |p| && p[a] == |xs| - 1
    requires forall a, b :: 0 <= a < b < |p| && p[a] > p[b] ==> Commute(act, xs[p[a]], xs[p[b]])
    ensures forall y :: y in Pick(xs, p[a + 1..]) ==> Commute(act, xs[p[a]], y)
  {
    var after := Pick(xs, p[a + 1..]);
    forall y | y in after
      ensures Commute(act, xs[p[a]], y)
    {
      var c :| 0 <= c < |after| && after[c] == y;
      assert p[a] > p[a + 1 + c];
    }
  }

  /** Reordering a log has the same effect if every pair whose order is
      changed commutes. */
  lemma {:induction false} Reorder<S(!new), E>(act: (S, E) -> S, s: S, xs: seq<E>, p: seq<nat>)
    requires Permutation(p, |xs|)
    requires forall a, b :: 0 <= a < b < |p| && p[a] > p[b] ==> Commute(act, xs[p[a]], xs[p[b]])
    ensures Apply(act, s, Pick(xs, p)) == Apply(act, s, xs)
    decreases |xs|
  {
    hide Apply, Commute, Pick;
    if xs == [] {
      PickNothing(xs, p);
    } else {
      var n := |xs| - 1;
      assert n in p;
      var a :| 0 <= a < |p| && p[a] == n;
      var q := p[..a] + p[a + 1..];
      PickWithout(xs, p, a);
      var front, after := Pick(xs, p[..a]), Pick(xs, p[a + 1..]);
      AfterCommutes(act, xs, p, a);
      MoveToEnd(act, s, front, xs[n], after);
      InvertedCommute(act, xs, p, a);
      Reorder(act, s, xs[..n], q);
      ApplySnoc(act, s, xs[..n], xs[n]);
      assert xs[..n] + [xs[n]] == xs;
    }
  }

  lemma InvertedCommute<S(!new), E>(act: (S, E) -> S, xs: seq<E>, p: seq<nat>, k: nat)
    requires Permutation(p, |xs|) && k < |p| && p[k] == |xs| - 1
    requires forall a, b :: 0 <= a < b < |p| && p[a] > p[b] ==> Commute(act, xs[p[a]], xs[p[b]])
    ensures
      var q, ys := p[..k] + p[k + 1..], xs[..|xs| - 1];
      forall a, b :: 0 <= a < b < |q| && q[a] < |ys| && q[b] < |ys| && q[a] > q[b] ==> Commute(act, ys[q[a]], ys[q[b]])
  {
    var q, ys := p[..k] + p[k + 1..], xs[..|xs| - 1];
    forall a, b | 0 <= a < b < |q| && q[a] < |ys| && q[b] < |ys| && q[a] > q[b]
      ensures Commute(act, ys[q[a]], ys[q[b]])
    {
      var a', b' := if a < k then a else a + 1, if b < k then b else b + 1;
      assert q[a] == p[a'] && q[b] == p[b'];
    }
  }
}
