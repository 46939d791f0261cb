/** Optional values, as the source's `Option`, and what several modules say of numbers. */
module Wrappers {
  datatype Option<+T> = None | Some(value: T)

  ghost predicate Increasing(s: seq<nat>) {
    forall a, b :: 0 <= a < b < |s| ==> s[a] < s[b]
  }

  /** Increasing numbers below `bound`. */
  ghost predicate Ascending(s: seq<nat>, bound: nat) {
    Increasing(s) && forall a :: 0 <= a < |s| ==> s[a] < bound
  }

  function Least(a: nat, b: nat): nat {
    if a < b then a else b
  }

  lemma {:induction false} Scale(a: nat, b: nat, d: nat)
    requires a + 1 <= b
    ensures a * d + d <= b * d
  {
    if a + 1 < b {
      Scale(a, b - 1, d);
    }
  }
}

/** Header data of the events of one topic partition. */
module Events {
  /** Hash of the partition key of an event; only compared for equality. */
  type Key = int

  /** Type tag of an event. */
  type Tag = int

  /** How a record fences its key: an acquiring record holds back what follows
      it, a releasing one waits for what came first. */
  datatype Ordering = Relaxed | Acquire | Release | AcqRel
  {
    predicate Acquires() {
      Acquire? || AcqRel?
    }

    predicate Releases() {
      Release? || AcqRel?
    }
  }

  /** What the planner reads of one polled message. */
  datatype PlanRecord = PlanRecord(key: Key, tag: Tag, ordering: Ordering)

  /** Two records of a key whose order in the log, `x` first, counts: of one type,
      or `x` acquires, or `y` releases. */
  predicate Required(x: PlanRecord, y: PlanRecord) {
    && x.key == y.key
    && (x.tag == y.tag || x.ordering.Acquires() || y.ordering.Releases())
  }
}
