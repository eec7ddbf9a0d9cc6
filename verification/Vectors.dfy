/** A value vector is a mathematical sequence with a stable identity (runtime/vector.c). */
module Vectors {
  import opened Words
  import opened Heap
  import opened Machine
  import opened Operations
  import opened Invariants
  import opened Runs
  import opened Safety

  /** The elements of a vector: the first `length` items of whatever storage it has now. */
  ghost function Elements(s: State, v: Word): seq<Word>
    requires IsA(s.store, v, ValueVector) && Backed(s.store, v)
  {
    s.store[s.store[v].slots[0]].items[..s.store[v].length]
  }

  ghost predicate Represents(s: State, v: Word, q: seq<Word>) {
    IsA(s.store, v, ValueVector) && Backed(s.store, v) && Elements(s, v) == q
  }

  /** What a call does to vector v, in terms of sequences. */
  function SequenceAfter(op: Op, v: Word, q: seq<Word>): seq<Word> {
    match op
    case VectorSet(u, position, item) => if u == v && position < |q| then q[position := item] else q
    case VectorPush(u, item, _) => if u == v then q + [item] else q
    case _ => q
  }

  /** The vector is untouched when its header and storage are. */
  lemma ElementsFrame(s: State, t: State, v: Word)
    requires IsA(s.store, v, ValueVector) && Backed(s.store, v)
    requires SameObject(s, t, v) && SameObject(s, t, s.store[v].slots[0])
    ensures Represents(t, v, Elements(s, v))
  {
  }

  /** Only calls on the vector itself write to its header or its storage. */
  lemma SeparateStorage(s: State, op: Op, v: Word)
    requires Inv(s) && Exec(s, op).Done? && IsA(s.store, v, ValueVector)
    requires !(op.VectorSet? && op.vector == v) && !(op.VectorPush? && op.vector == v)
    ensures v !in Written(s, op) && s.store[v].slots[0] !in Written(s, op)
  {
    hide NamesOk, PackagesOk, GrowthOk, HandlesOk, HeapOk;
    assert Backed(s.store, v);
    if op.VectorSet? || op.VectorPush? {
      assert IsA(s.store, op.vector, ValueVector) && Backed(s.store, op.vector);
    }
  }

  lemma StorageIsRooted(s: State, v: Word, roots: set<Word>)
    requires v in Live(s.store, roots) && IsA(s.store, v, ValueVector) && Backed(s.store, v)
    ensures s.store[v].slots[0] in Live(s.store, roots)
  {
    assert Children(s.store[v])[0] == s.store[v].slots[0];
    ChildIsLive(s.store, roots, v, s.store[v].slots[0]);
  }

  lemma OtherCallsLeaveVector(s: State, op: Op, v: Word)
    requires Inv(s) && Exec(s, op).Done? && v in Rooted(s) && IsA(s.store, v, ValueVector)
    requires !(op.VectorSet? && op.vector == v) && !(op.VectorPush? && op.vector == v)
    ensures Backed(s.store, v) && Represents(Exec(s, op).value.state, v, Elements(s, v))
  {
    assert Backed(s.store, v);
    var w := s.store[v].slots[0];
    StorageIsRooted(s, v, RootSet(s));
    RootedIsLive(s, op, v);
    RootedIsLive(s, op, w);
    StepKeepsRooted(s, op, v);
    StepKeepsRooted(s, op, w);
    SeparateStorage(s, op, v);
    ElementsFrame(s, Exec(s, op).value.state, v);
  }

  lemma SetUpdates(s: State, v: Word, position: Word, item: Word)
    requires Inv(s) && Exec(s, VectorSet(v, position, item)).Done?
    ensures IsA(s.store, v, ValueVector) && Backed(s.store, v) && position < |Elements(s, v)|
    ensures Represents(Exec(s, VectorSet(v, position, item)).value.state, v, Elements(s, v)[position := item])
    ensures Exec(s, VectorSet(v, position, item)).value.value == item
  {
    assert Backed(s.store, v);
  }

  lemma GrowAppends(t: State, v: Word, item: Word, at: Word)
    requires Full(t, v) && Backed(t.store, v) && Usable(t, at)
    ensures Represents(GrowVector(t, v, item, at), v, Elements(t, v) + [item])
  {
    var items := t.store[t.store[v].slots[0]].items;
    assert GrownItems(items, item)[..|items| + 1] == items + [item];
    assert Elements(t, v) == items;
  }

  /** Appending, whether or not the storage has to grow, and although growing may collect. */
  lemma PushAppends(s: State, v: Word, item: Word, at: Word)
    requires Inv(s) && Exec(s, VectorPush(v, item, at)).Done?
    ensures IsA(s.store, v, ValueVector) && Backed(s.store, v)
    ensures Represents(Exec(s, VectorPush(v, item, at)).value.state, v, Elements(s, v) + [item])
    ensures Exec(s, VectorPush(v, item, at)).value.value == |Elements(s, v)|
  {
    assert Backed(s.store, v);
    var b, w := s.store[v], s.store[v].slots[0];
    if b.length < |s.store[w].items| {
      assert s.store[w].items[b.length := item][..b.length + 1] == s.store[w].items[..b.length] + [item];
    } else {
      VectorSettles(s, {v, item}, v);
      var t := Settle(s, {v, item});
      GrowAppends(t, v, item, at);
      assert Elements(t, v) == Elements(s, v);
    }
  }

  /** Any one call acts on any rooted vector as on a sequence. */
  lemma StepRefinesSequence(s: State, op: Op, v: Word)
    requires Inv(s) && Exec(s, op).Done? && v in Rooted(s) && IsA(s.store, v, ValueVector)
    ensures Backed(s.store, v)
    ensures Represents(Exec(s, op).value.state, v, SequenceAfter(op, v, Elements(s, v)))
  {
    hide Live, RootSet, NamesOk, PackagesOk, HandlesOk, Represents;
    hide InternEffect, MakeVectorEffect, Constructed, TableEffect, VectorSetEffect, VectorPushEffect;
    if op.VectorSet? && op.vector == v {
      SetUpdates(s, v, op.position, op.item);
    } else if op.VectorPush? && op.vector == v {
      PushAppends(s, v, op.item, op.at);
    } else {
      OtherCallsLeaveVector(s, op, v);
    }
  }

  function SequenceAfterAll(ops: seq<Op>, v: Word, q: seq<Word>): seq<Word>
    decreases ops
  {
    if ops == [] then q else SequenceAfterAll(ops[1..], v, SequenceAfter(ops[0], v, q))
  }

  /** Over any run in which the vector stays rooted, the same header denotes the sequence
      that the updates and appends made through it produce, through growth and collection. */
  lemma {:induction false} RunRefinesSequence(s: State, ops: seq<Op>, v: Word)
    requires Inv(s) && Run(s, ops).Done? && Held(s, ops, v) && IsA(s.store, v, ValueVector)
    ensures Backed(s.store, v)
    ensures Represents(Run(s, ops).value, v, SequenceAfterAll(ops, v, Elements(s, v)))
    decreases ops
  {
    assert Backed(s.store, v);
    if ops != [] {
      var t := Exec(s, ops[0]).value.state;
      ExecKeepsInv(s, ops[0]);
      StepRefinesSequence(s, ops[0], v);
      RunRefinesSequence(t, ops[1..], v);
    }
  }

  /** Reads and errors: exactly the indices below the length are accepted. */
  lemma VectorReads(s: State, v: Word, position: Word, item: Word)
    requires Inv(s) && IsA(s.store, v, ValueVector)
    ensures Backed(s.store, v)
    ensures Exec(s, VectorLength(v)) == Done(Effect(s, |Elements(s, v)|))
    ensures Exec(s, VectorRef(v, position)) ==
      if position < |Elements(s, v)| then Done(Effect(s, Elements(s, v)[position])) else Aborted
    ensures Exec(s, VectorSet(v, position, item)).Done? <==> position < |Elements(s, v)|
    ensures Exec(s, VectorSet(v, position, item)).Done? ==> Exec(s, VectorSet(v, position, item)).value.value == item
  {
    assert Backed(s.store, v);
  }

  /** Construction gives `length` copies of the initial value under a fresh header. */
  lemma MakeFills(s: State, length: Word, initial: Word, at: Word, storageAt: Word)
    requires Inv(s) && Exec(s, MakeVector(length, initial, at, storageAt)).Done?
    ensures var e := Exec(s, MakeVector(length, initial, at, storageAt)).value;
      e.value == at && at !in Rooted(s) && Represents(e.state, at, Fill(length, initial))
  {
    hide Live, RootSet, GraphOk, PacingOk, HandlesOk, Constructed, TableEffect;
    var t0 := Settle(s, {NIL, initial});
    var t := Insert(t0, at, VectorBody(length, 0));
    SettleKeepsExtra(t, {at, initial}, at);
    assert Fill(length, initial)[..length] == Fill(length, initial);
    if at in Rooted(s) {
      LiveMonotone(s.store, RootSet(s), RootSet(s) + {NIL, initial});
      SettleKeeps(s, {NIL, initial}, at);
    }
  }
}
