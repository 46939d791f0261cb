/** Cutting the log of every key into segments at its fences. */
module Segmentation {
  import opened Wrappers
  import opened Events

  /** What of a segment a record belongs to. */
  datatype Rank = Head | Body | Tail
  {
    function Index(): (r: nat)
      ensures r < 3
    {
      match this case Head => 0 case Body => 1 case Tail => 2
    }
  }

  /** A segment: the index of its key, the type that acquired it, the type that
      released it, and whether any other type than `head` joined. */
  datatype Meta = Meta(key: nat, head: Option<Tag>, tail: Option<Tag>, mixed: bool)
  {
    function RankOf(tag: Tag): Rank {
      if head == Some(tag) then Head
      else if tail == Some(tag) then Tail
      else Body
    }

    /** The segment can't take `r` any more. */
    predicate Cuts(r: PlanRecord) {
      match r.ordering
      case Acquire => true
      case AcqRel => true
      case Release => mixed && head == Some(r.tag)
      case Relaxed => false
    }

    /** The segment with `r` added. */
    function Absorb(r: PlanRecord): Meta {
      var head' := if r.ordering.Acquires() then Some(r.tag) else head;
      Meta(key, head',
           if r.ordering.Release? then Some(r.tag) else tail,
           mixed || (head'.Some? && head'.value != r.tag))
    }
  }

  /** Index of a key, and its segment still accepting records. */
  datatype Slot = Slot(index: nat, open: Option<nat>)

  datatype SegState = SegState(keys: seq<Key>, slots: map<Key, Slot>, metas: seq<Meta>, segmentOf: seq<nat>)
  {
    predicate InRange() {
      forall k :: k in slots && slots[k].open.Some? ==> slots[k].open.value < |metas|
    }

    function SlotOf(k: Key): Slot {
      if k in slots then slots[k] else Slot(|keys|, None)
    }

    /** The segment `r` joins, if it joins an open one. */
    function Joined(r: PlanRecord): Option<nat>
      requires InRange()
    {
      var open := SlotOf(r.key).open;
      if open.Some? && metas[open.value].Cuts(r) then None else open
    }
  }

  /** The state after one more record. */
  function Step(st: SegState, r: PlanRecord): (st': SegState)
    requires st.InRange()
    ensures st'.InRange()
  {
    var slot := st.SlotOf(r.key);
    var joined := st.Joined(r);
    var s := if joined.Some? then joined.value else |st.metas|;
    var metas := if joined.Some? then st.metas else st.metas + [Meta(slot.index, None, None, false)];
    SegState(
      if r.key in st.slots then st.keys else st.keys + [r.key],
      st.slots[r.key := Slot(slot.index, if r.ordering.Release? then None else Some(s))],
      metas[s := metas[s].Absorb(r)],
      st.segmentOf + [s])
  }

  /** The segments of a whole log. */
  function Assign(rs: seq<PlanRecord>): (st: SegState)
    ensures st.InRange()
  {
    if rs == [] then SegState([], map[], [], [])
    else Step(Assign(rs[..|rs| - 1]), rs[|rs| - 1])
  }

  /** Record `i` has key `k`. */
  ghost predicate HasKey(rs: seq<PlanRecord>, i: nat, k: Key) {
    i < |rs| && rs[i].key == k
  }

  /** The segment of a record belongs to the record's key, and `keys` lists every key once. */
  ghost predicate Indexed(rs: seq<PlanRecord>, st: SegState) {
    && |st.segmentOf| == |rs|
    && (forall i :: 0 <= i < |rs| ==>
          && st.segmentOf[i] < |st.metas|
          && rs[i].key in st.slots
          && st.metas[st.segmentOf[i]].key == st.slots[rs[i].key].index)
    && (forall k :: k in st.slots ==> st.slots[k].index < |st.keys| && st.keys[st.slots[k].index] == k)
    && (forall n :: 0 <= n < |st.keys| ==> st.keys[n] in st.slots && st.slots[st.keys[n]].index == n)
  }

  /** Neither a segment nor a key is empty. */
  ghost predicate Inhabited(rs: seq<PlanRecord>, st: SegState) {
    && (forall s :: 0 <= s < |st.metas| ==> st.metas[s].key < |st.keys| && s in st.segmentOf)
    && (forall k :: k in st.keys ==> exists i: nat :: HasKey(rs, i, k))
  }

  /** The segments of a key grow in log order. */
  ghost predicate Monotone(rs: seq<PlanRecord>, st: SegState)
    requires |st.segmentOf| == |rs|
  {
    forall i, j :: 0 <= i < j < |rs| && rs[i].key == rs[j].key ==> st.segmentOf[i] <= st.segmentOf[j]
  }

  /** An acquiring record is the first of its segment and heads it. */
  ghost predicate AcquireFirst(rs: seq<PlanRecord>, st: SegState)
    requires |st.segmentOf| == |rs| && forall i :: 0 <= i < |rs| ==> st.segmentOf[i] < |st.metas|
  {
    forall j :: 0 <= j < |rs| && rs[j].ordering.Acquires() ==>
      && st.metas[st.segmentOf[j]].head == Some(rs[j].tag)
      && forall i :: 0 <= i < j ==> st.segmentOf[i] != st.segmentOf[j]
  }

  /** A releasing record is the last of its segment and its tail. */
  ghost predicate ReleaseLast(rs: seq<PlanRecord>, st: SegState)
    requires |st.segmentOf| == |rs| && forall i :: 0 <= i < |rs| ==> st.segmentOf[i] < |st.metas|
  {
    forall j :: 0 <= j < |rs| && rs[j].ordering.Release? ==>
      && st.metas[st.segmentOf[j]].tail == Some(rs[j].tag)
      && forall i :: j < i < |rs| ==> st.segmentOf[i] != st.segmentOf[j]
  }

  /** Where the tail has the head's type, the segment has no other type. */
  ghost predicate TailNotHead(rs: seq<PlanRecord>, st: SegState)
    requires |st.segmentOf| == |rs| && forall i :: 0 <= i < |rs| ==> st.segmentOf[i] < |st.metas|
  {
    forall i, j :: 0 <= i < |rs| && 0 <= j < |rs| && rs[j].ordering.Release?
        && st.segmentOf[i] == st.segmentOf[j] && st.metas[st.segmentOf[j]].head == Some(rs[j].tag)
      ==> rs[i].tag == rs[j].tag
  }

  ghost predicate Fenced(rs: seq<PlanRecord>, st: SegState) {
    && Indexed(rs, st)
    && Inhabited(rs, st)
    && Monotone(rs, st)
    && AcquireFirst(rs, st)
    && ReleaseLast(rs, st)
    && TailNotHead(rs, st)
  }

  /** What is known of a segment that still accepts records. */
  ghost predicate OpenOk(rs: seq<PlanRecord>, st: SegState, k: Key)
    requires |st.segmentOf| == |rs| && k in st.slots
  {
    st.slots[k].open.Some? ==>
      var s := st.slots[k].open.value;
      && s < |st.metas|
      && st.metas[s].key == st.slots[k].index
      && st.metas[s].tail == None
      && (forall i :: 0 <= i < |rs| && rs[i].key == k ==> st.segmentOf[i] <= s)
      && (!st.metas[s].mixed && st.metas[s].head.Some? ==>
            forall i :: 0 <= i < |rs| && st.segmentOf[i] == s ==> Some(rs[i].tag) == st.metas[s].head)
  }

  ghost predicate SegInv(rs: seq<PlanRecord>, st: SegState) {
    && Fenced(rs, st)
    && forall k :: k in st.slots ==> OpenOk(rs, st, k)
  }

  /** What one step changes. */
  ghost predicate Stepped(rs: seq<PlanRecord>, st: SegState, r: PlanRecord, st': SegState, s: nat) {
    && |st.segmentOf| == |rs|
    && st'.segmentOf == st.segmentOf + [s]
    && s < |st'.metas|
    && |st.metas| <= |st'.metas| <= |st.metas| + 1
    && (forall q :: 0 <= q < |st.metas| && q != s ==> st'.metas[q] == st.metas[q])
    && (|st'.metas| == |st.metas| + 1 ==> s == |st.metas|)
    && st'.slots.Keys == st.slots.Keys + {r.key}
    && (forall k :: k in st.slots && k != r.key ==> st'.slots[k] == st.slots[k])
    && (if r.key in st.slots
        then st'.keys == st.keys && st'.slots[r.key].index == st.slots[r.key].index
        else st'.keys == st.keys + [r.key] && st'.slots[r.key].index == |st.keys|)
    && st'.slots[r.key].open == (if r.ordering.Release? then None else Some(s))
    && st'.metas[s].key == st'.slots[r.key].index
    && (if s < |st.metas|
        then r.key in st.slots && st.slots[r.key].open == Some(s) && !st.metas[s].Cuts(r) && st'.metas[s] == st.metas[s].Absorb(r)
        else st'.metas[s] == Meta(st'.slots[r.key].index, None, None, false).Absorb(r))
  }

  lemma StepIs(rs: seq<PlanRecord>, st: SegState, r: PlanRecord) returns (s: nat)
    requires st.InRange() && |st.segmentOf| == |rs|
    requires forall k :: k in st.slots ==> OpenOk(rs, st, k)
    ensures Stepped(rs, st, r, Step(st, r), s)
  {
    s := Step(st, r).segmentOf[|rs|];
    if r.key in st.slots {
      assert OpenOk(rs, st, r.key);
    }
  }

  lemma StepIndexed(rs: seq<PlanRecord>, st: SegState, r: PlanRecord, st': SegState, s: nat)
    requires Indexed(rs, st) && Stepped(rs, st, r, st', s)
    requires forall k :: k in st.slots ==> OpenOk(rs, st, k)
    ensures Indexed(rs + [r], st')
  {
  }

  lemma StepInhabited(rs: seq<PlanRecord>, st: SegState, r: PlanRecord, st': SegState, s: nat)
    requires Indexed(rs, st) && Inhabited(rs, st) && Stepped(rs, st, r, st', s)
    requires Indexed(rs + [r], st')
    ensures Inhabited(rs + [r], st')
  {
    var rs' := rs + [r];
    assert HasKey(rs', |rs|, r.key);
    forall k | k in st'.keys
      ensures exists i: nat :: HasKey(rs', i, k)
    {
      if k in st.keys {
        var n :| 0 <= n < |st.keys| && st.keys[n] == k;
        var i: nat :| HasKey(rs, i, st.keys[n]);
        assert HasKey(rs', i, k);
      }
    }
  }

  /** A joined segment holds only records of the key, none of them releasing. */
  lemma JoinedOnly(rs: seq<PlanRecord>, st: SegState, r: PlanRecord, st': SegState, s: nat, i: nat)
    requires SegInv(rs, st) && Stepped(rs, st, r, st', s)
    requires i < |rs| && st.segmentOf[i] == s
    ensures s < |st.metas| && rs[i].key == r.key && !rs[i].ordering.Release?
  {
    assert OpenOk(rs, st, r.key);
  }

  lemma StepAcquireFirst(rs: seq<PlanRecord>, st: SegState, r: PlanRecord, st': SegState, s: nat)
    requires SegInv(rs, st) && Stepped(rs, st, r, st', s)
    requires Indexed(rs + [r], st')
    ensures AcquireFirst(rs + [r], st')
  {
    var rs' := rs + [r];
    forall j | 0 <= j < |rs'| && rs'[j].ordering.Acquires()
      ensures st'.metas[st'.segmentOf[j]].head == Some(rs'[j].tag)
      ensures forall i :: 0 <= i < j ==> st'.segmentOf[i] != st'.segmentOf[j]
    {
      if j < |rs| && st.segmentOf[j] == s {
        JoinedOnly(rs, st, r, st', s, j);
      }
    }
  }

  lemma StepReleaseLast(rs: seq<PlanRecord>, st: SegState, r: PlanRecord, st': SegState, s: nat)
    requires SegInv(rs, st) && Stepped(rs, st, r, st', s)
    requires Indexed(rs + [r], st')
    ensures ReleaseLast(rs + [r], st')
  {
    hide Inhabited, Monotone, AcquireFirst, TailNotHead;
    var rs' := rs + [r];
    forall j | 0 <= j < |rs'| && rs'[j].ordering.Release?
      ensures st'.metas[st'.segmentOf[j]].tail == Some(rs'[j].tag)
      ensures forall i :: j < i < |rs'| ==> st'.segmentOf[i] != st'.segmentOf[j]
    {
      if j < |rs| && st.segmentOf[j] == s {
        JoinedOnly(rs, st, r, st', s, j);
      }
    }
  }

  lemma StepMonotone(rs: seq<PlanRecord>, st: SegState, r: PlanRecord, st': SegState, s: nat)
    requires SegInv(rs, st) && Stepped(rs, st, r, st', s)
    ensures Monotone(rs + [r], st')
  {
    forall i | 0 <= i < |rs| && rs[i].key == r.key
      ensures st.segmentOf[i] <= s
    {
      assert OpenOk(rs, st, r.key);
    }
  }

  lemma StepFenced(rs: seq<PlanRecord>, st: SegState, r: PlanRecord, st': SegState, s: nat)
    requires SegInv(rs, st) && Stepped(rs, st, r, st', s)
    requires Indexed(rs + [r], st') && Inhabited(rs + [r], st')
    ensures Fenced(rs + [r], st')
  {
    StepMonotone(rs, st, r, st', s);
    StepAcquireFirst(rs, st, r, st', s);
    StepReleaseLast(rs, st, r, st', s);
    StepTailNotHead(rs, st, r, st', s);
  }

  lemma StepTailNotHead(rs: seq<PlanRecord>, st: SegState, r: PlanRecord, st': SegState, s: nat)
    requires SegInv(rs, st) && Stepped(rs, st, r, st', s)
    requires Indexed(rs + [r], st')
    ensures TailNotHead(rs + [r], st')
  {
    hide Inhabited, Monotone, AcquireFirst;
    var rs' := rs + [r];
    forall i, j | 0 <= i < |rs'| && 0 <= j < |rs'| && rs'[j].ordering.Release?
        && st'.segmentOf[i] == st'.segmentOf[j] && st'.metas[st'.segmentOf[j]].head == Some(rs'[j].tag)
      ensures rs'[i].tag == rs'[j].tag
    {
      if i < |rs| && st.segmentOf[i] == s {
        JoinedOnly(rs, st, r, st', s, i);
      }
      if j < |rs| && st.segmentOf[j] == s {
        JoinedOnly(rs, st, r, st', s, j);
      }
      if j == |rs| && i < |rs| {
        assert OpenOk(rs, st, r.key);
      }
    }
  }

  lemma StepOpen(rs: seq<PlanRecord>, st: SegState, r: PlanRecord, st': SegState, s: nat, k: Key)
    requires SegInv(rs, st) && Stepped(rs, st, r, st', s)
    requires Indexed(rs + [r], st') && k in st'.slots
    ensures OpenOk(rs + [r], st', k)
  {
    hide Inhabited, Monotone, AcquireFirst, ReleaseLast, TailNotHead;
    forall i | 0 <= i < |rs| && st.segmentOf[i] == s
      ensures s < |st.metas| && rs[i].key == r.key
    {
      JoinedOnly(rs, st, r, st', s, i);
    }
    if k in st.slots {
      assert OpenOk(rs, st, k);
    }
  }

  lemma StepInv(rs: seq<PlanRecord>, st: SegState, r: PlanRecord)
    requires st.InRange() && SegInv(rs, st)
    ensures SegInv(rs + [r], Step(st, r))
  {
    var st' := Step(st, r);
    var s := StepIs(rs, st, r);
    StepIndexed(rs, st, r, st', s);
    StepInhabited(rs, st, r, st', s);
    StepFenced(rs, st, r, st', s);
    forall k | k in st'.slots
      ensures OpenOk(rs + [r], st', k)
    {
      StepOpen(rs, st, r, st', s, k);
    }
  }

  lemma AssignNone()
    ensures Assign([]) == SegState([], map[], [], [])
  {
  }

  lemma NoneInv()
    ensures SegInv([], SegState([], map[], [], []))
  {
  }

  lemma AssignLast(rs: seq<PlanRecord>)
    requires rs != []
    ensures Assign(rs) == Step(Assign(rs[..|rs| - 1]), rs[|rs| - 1])
  {
  }

  /** The segments of any log are delimited by its fences. */
  lemma {:induction false} AssignInv(rs: seq<PlanRecord>)
    ensures SegInv(rs, Assign(rs))
  {
    hide SegInv, Step, Assign;
    if rs == [] {
      AssignNone();
      NoneInv();
    } else {
      var n := |rs| - 1;
      AssignInv(rs[..n]);
      StepInv(rs[..n], Assign(rs[..n]), rs[n]);
      AssignLast(rs);
      assert rs[..n] + [rs[n]] == rs;
    }
  }

  lemma AssignSnoc(rs: seq<PlanRecord>, n: nat)
    requires n < |rs|
    ensures Assign(rs[..n + 1]) == Step(Assign(rs[..n]), rs[n])
  {
    assert rs[..n + 1][..n] == rs[..n];
  }

  /** Adds one record to the segment it joins. */
  method AbsorbRecord(before: Meta, record: PlanRecord) returns (meta: Meta)
    ensures meta == before.Absorb(record)
  {
    meta := before;
    if record.ordering.Acquires() {
      meta := meta.(head := Some(record.tag));
    }
    if meta.head.Some? && meta.head.value != record.tag {
      meta := meta.(mixed := true);
    }
    if record.ordering.Release? {
      meta := meta.(tail := Some(record.tag));
    }
  }

  /** Walks the log once and gives every record a segment. */
  method AssignSegments(records: seq<PlanRecord>)
    returns (keys: seq<Key>, metas: seq<Meta>, segmentOf: seq<nat>)
    ensures keys == Assign(records).keys
    ensures metas == Assign(records).metas
    ensures segmentOf == Assign(records).segmentOf
  {
    hide Assign;
    AssignNone();
    var slots: map<Key, Slot> := map[];
    keys, metas, segmentOf := [], [], [];
    for n := 0 to |records|
      invariant SegState(keys, slots, metas, segmentOf) == Assign(records[..n])
    {
      var record := records[n];
      AssignSnoc(records, n);
      ghost var st := Assign(records[..n]);
      if record.key !in slots {
        slots := slots[record.key := Slot(|keys|, None)];
        keys := keys + [record.key];
      }
      var slot := slots[record.key];
      assert slot == st.SlotOf(record.key);
      var open := slot.open;
      if open.Some? {
        if metas[open.value].Cuts(record) {
          open := None;
        }
      }
      assert open == st.Joined(record);
      if open.None? {
        open := Some(|metas|);
        metas := metas + [Meta(slot.index, None, None, false)];
      }
      var segment := open.value;
      var meta := AbsorbRecord(metas[segment], record);
      metas := metas[segment := meta];
      slots := slots[record.key := Slot(slot.index, if record.ordering.Release? then None else open)];
      segmentOf := segmentOf + [segment];
      assert metas == Step(st, record).metas;
      assert slots == Step(st, record).slots;
    }
    assert records[..|records|] == records;
  }
}
