/** Growable value vectors on the collector's heap (runtime/vector.c). */
module VectorObjects {
  import opened Words
  import opened Heap
  import opened Machine
  import opened Operations
  import opened Gc
  import opened Objects

  method VectorStorageBytes(capacity: nat) returns (r: Outcome<nat>)
    ensures r == if capacity > CAPACITY_MAX then Aborted else Done(capacity * 8)
    ensures r.Done? ==> r.value <= SIZE_MAX - SIZEOF_OBJECT
  {
    if capacity > (SIZE_MAX - SIZEOF_OBJECT) / 8 {
      return Aborted;
    }
    return Done(capacity * 8);
  }

  /** Overwrite every item with the same word. */
  method FillItems(items: seq<Word>, item: Word) returns (r: seq<Word>)
    ensures r == Fill(|items|, item)
  {
    r := items;
    var index := 0;
    while index < |items|
      invariant index <= |items| == |r|
      invariant forall j :: 0 <= j < index ==> r[j] == item
    {
      r := r[index := item];
      index := index + 1;
    }
  }

  method MakeStorage(rt: Runtime, capacity: Word, at: Word) returns (r: Outcome<Word>)
    requires rt.Valid() && BodiesOk(rt.store)
    modifies rt
    ensures if capacity <= CAPACITY_MAX && Usable(Settle(old(rt.View()), {}), at)
            then r == Done(at) && rt.Valid() &&
                 rt.View() == Insert(Settle(old(rt.View()), {}), at, StorageBody(Fill(capacity, NIL)))
            else r.Aborted?
  {
    hide Sound;
    var bytes :- VectorStorageBytes(capacity);
    var made :- rt.AllocateObject(VectorStorage, bytes, Precise, at);
    var items := FillItems(rt.store[made].items, NIL);
    StringState(Settle(old(rt.View()), {}), at, ZeroBody(VectorStorage, bytes), StorageBody(Fill(capacity, NIL)));
    rt.WriteObject(made, rt.store[made].(length := capacity, items := items));
    return Done(made);
  }

  /** The doubling loop, without a word size: the least doubling that is large enough. */
  function DoubleUntil(capacity: nat, required: nat): (r: nat)
    requires capacity > 0
    ensures r >= required && r >= capacity && (r > capacity ==> r < 2 * required)
    decreases required - capacity
  {
    if capacity >= required then capacity else DoubleUntil(2 * capacity, required)
  }

  /** In 64-bit arithmetic the loop either finds that capacity or aborts because its bytes
      would overflow; it never wraps. */
  method GrownCapacity(current: Word, required: Word) returns (r: Outcome<Word>)
    ensures var c := DoubleUntil(if current == 0 then 4 else current, required);
      r == if c <= CAPACITY_MAX then Done(c) else Aborted
  {
    var capacity: Word := if current == 0 then 4 else current;
    ghost var goal := DoubleUntil(capacity, required);
    while capacity < required
      invariant capacity > 0
      invariant goal == DoubleUntil(capacity, required) || capacity == required > SIZE_MAX / 2
      invariant goal >= required
      decreases required - capacity
    {
      if capacity > SIZE_MAX / 2 {
        capacity := required;
        break;
      }
      capacity := capacity * 2;
    }
    var _ :- VectorStorageBytes(capacity);
    return Done(capacity);
  }

  lemma NextCapacityIsDoubling(capacity: nat)
    ensures DoubleUntil(if capacity == 0 then 4 else capacity, capacity + 1) == NextCapacity(capacity)
  {
    if capacity > 0 {
      assert DoubleUntil(2 * capacity, capacity + 1) == 2 * capacity;
    }
  }

  // ---------- Construction ----------

  lemma HeaderState(t: State, at: Word, length: Word, initial: Word)
    ensures var made := Insert(Pushed(t, Frame(LOCAL, [NIL, initial])), at, ZeroBody(ValueVector, 0));
      && made.frames[0].words == [NIL, initial]
      && Write(made.(frames := made.frames[0 := Frame(LOCAL, [NIL, initial][0 := at])]), at, VectorBody(length, 0))
         == Pushed(Insert(t, at, VectorBody(length, 0)), Frame(LOCAL, [at, initial]))
  {
    assert t.store[at := ZeroBody(ValueVector, 0)][at := VectorBody(length, 0)] == t.store[at := VectorBody(length, 0)];
    var f := Frame(LOCAL, [NIL, initial]);
    assert [NIL, initial][0 := at] == [at, initial];
    assert ([f] + t.frames)[0 := Frame(LOCAL, [at, initial])] == [Frame(LOCAL, [at, initial])] + t.frames;
  }

  /** Allocate the header, root it in place of the NIL, and note its length. */
  method MakeHeader(rt: Runtime, length: Word, initial: Word, at: Word) returns (r: Outcome<Word>)
    requires rt.Valid() && BodiesOk(rt.store)
    modifies rt
    ensures match Allocate(old(rt.View()), {NIL, initial}, at, VectorBody(length, 0))
      case Aborted => r.Aborted?
      case Done(t) => r == Done(at) && rt.View() == Pushed(t, Frame(LOCAL, [at, initial])) && rt.Valid()
  {
    assert SeqSet([NIL, initial]) + ScanWords(Precise) == {NIL, initial};
    var made :- AllocateUnder(rt, [NIL, initial], ValueVector, Precise, at, {NIL, initial});
    HeaderState(Settle(old(rt.View()), {NIL, initial}), at, length, initial);
    var rooted := rt.Assign(0, 0, made);
    assert rooted.Done?;
    rt.WriteObject(made, rt.store[made].(length := length));
    return Done(made);
  }

  lemma BackedState(t: State, frame: Frame, at: Word, length: Word, initial: Word, storageAt: Word)
    requires length <= CAPACITY_MAX && at != storageAt
    ensures var made := Insert(Pushed(t, frame), storageAt, StorageBody(Fill(length, NIL)));
      var filled := Write(made, storageAt, StorageBody(Fill(length, initial)));
      WithCopied(Write(filled, at, VectorBody(length, storageAt)), at, 0)
        == Pushed(BackVector(t, at, length, initial, storageAt), frame)
    ensures Pushed(BackVector(t, at, length, initial, storageAt), frame).frames[1..] == t.frames
  {
    var b := StorageBody(Fill(length, initial));
    assert t.store[storageAt := StorageBody(Fill(length, NIL))][storageAt := b] == t.store[storageAt := b];
  }

  /** Make storage while a frame is registered: the frame's words survive. */
  method StorageUnder(rt: Runtime, capacity: Word, at: Word, ghost t: State, ghost frame: Frame, ghost all: set<Word>)
    returns (r: Outcome<Word>)
    requires rt.Valid() && BodiesOk(rt.store) && rt.View() == Pushed(t, frame) && all == SeqSet(frame.words)
    modifies rt
    ensures if capacity <= CAPACITY_MAX && Usable(Settle(t, all), at)
            then r == Done(at) && rt.Valid() &&
                 rt.View() == Insert(Pushed(Settle(t, all), frame), at, StorageBody(Fill(capacity, NIL)))
            else r.Aborted?
  {
    assert SeqSet(frame.words) + {} == all;
    PushedSettle(t, frame, {}, all);
    r := MakeStorage(rt, capacity, at);
  }

  /** Store the items, and publish the storage in the header. */
  method Publish(rt: Runtime, vector: Word, storage: Word, items: seq<Word>)
    requires rt.Valid() && vector in rt.store && storage in rt.store && vector != storage
    modifies rt`store
    ensures var s := old(rt.View());
      rt.View() == Write(Write(s, storage, s.store[storage].(items := items)),
                         vector, s.store[vector].(slots := s.store[vector].slots[0 := storage]))
    ensures rt.Valid()
  {
    rt.WriteObject(storage, rt.store[storage].(items := items));
    rt.WriteObject(vector, rt.store[vector].(slots := rt.store[vector].slots[0 := storage]));
  }

  lemma PublishedBodies(length: Word, initial: Word, storage: Word)
    requires length <= CAPACITY_MAX
    ensures StorageBody(Fill(length, NIL)).(items := Fill(length, initial)) == StorageBody(Fill(length, initial))
    ensures VectorBody(length, 0).(slots := VectorBody(length, 0).slots[0 := storage]) == VectorBody(length, storage)
  {
    assert [0, 0, 0][0 := storage] == [storage, 0, 0];
  }

  method FillVector(rt: Runtime, vector: Word, storage: Word, length: Word, initial: Word,
                    ghost u: State, ghost frame: Frame)
    requires rt.Valid() && length <= CAPACITY_MAX
    requires rt.View() == Insert(Pushed(u, frame), storage, StorageBody(Fill(length, NIL)))
    requires vector in u.store && u.store[vector] == VectorBody(length, 0) && storage !in u.store
    modifies rt
    ensures rt.View() == Pushed(BackVector(u, vector, length, initial, storage), frame) && rt.Valid()
  {
    BackedState(u, frame, vector, length, initial, storage);
    var items := FillItems(rt.store[storage].items, initial);
    Publish(rt, vector, storage, items);
    PublishedBodies(length, initial, storage);
    rt.history := rt.history.(copied := rt.history.copied[vector := 0]);
  }

  method FinishVector(rt: Runtime, vector: Word, storage: Word, length: Word, initial: Word,
                      ghost u: State, ghost frame: Frame)
    requires rt.Valid() && length <= CAPACITY_MAX && frame.id == LOCAL
    requires rt.View() == Insert(Pushed(u, frame), storage, StorageBody(Fill(length, NIL)))
    requires vector in u.store && u.store[vector] == VectorBody(length, 0) && storage !in u.store
    modifies rt
    ensures rt.View() == BackVector(u, vector, length, initial, storage) && rt.Valid()
  {
    FillVector(rt, vector, storage, length, initial, u, frame);
    var popped := rt.Pop(LOCAL);
    assert popped.Done?;
    assert ([frame] + u.frames)[1..] == u.frames;
  }

  /** Make the storage while the header is rooted, fill it, and publish it in the header. */
  method BackHeader(rt: Runtime, vector: Word, length: Word, initial: Word, storageAt: Word, ghost t: State)
    returns (r: Outcome<Word>)
    requires rt.Valid() && BodiesOk(rt.store) && vector in t.store && t.store[vector] == VectorBody(length, 0)
    requires rt.View() == Pushed(t, Frame(LOCAL, [vector, initial]))
    modifies rt
    ensures var u := Settle(t, {vector, initial});
      if length <= CAPACITY_MAX && Usable(u, storageAt)
      then r == Done(vector) && rt.View() == BackVector(u, vector, length, initial, storageAt) && rt.Valid()
      else r.Aborted?
  {
    ghost var frame, all := Frame(LOCAL, [vector, initial]), {vector, initial};
    assert all == SeqSet(frame.words);
    SettleKeepsExtra(t, all, vector);
    var storage :- StorageUnder(rt, length, storageAt, t, frame, all);
    FinishVector(rt, vector, storage, length, initial, Settle(t, all), frame);
    return Done(vector);
  }

  method MakeVector(rt: Runtime, length: Word, initial: Word, at: Word, storageAt: Word) returns (r: Outcome<Word>)
    requires rt.Valid() && BodiesOk(rt.store)
    modifies rt
    ensures Agrees(r, rt.View(), MakeVectorEffect(old(rt.View()), length, initial, at, storageAt))
    ensures r.Done? ==> rt.Valid()
  {
    ghost var s := rt.View();
    var vector :- MakeHeader(rt, length, initial, at);
    SettleKeepsBodies(s, {NIL, initial});
    ghost var t := Allocate(s, {NIL, initial}, at, VectorBody(length, 0)).value;
    r := BackHeader(rt, vector, length, initial, storageAt, t);
  }

  // ---------- Access ----------

  method Length(rt: Runtime, vector: Word) returns (r: Outcome<Word>)
    requires rt.ListSound()
    ensures Agrees(r, rt.View(), VectorLengthEffect(rt.View(), vector))
  {
    var v :- rt.ExpectObject(vector, Some(ValueVector));
    return Done(rt.store[v].length);
  }

  /** A finished vector always has its storage, so looking it up cannot abort. */
  method StorageOf(rt: Runtime, vector: Word) returns (storage: Word)
    requires rt.ListSound() && IsA(rt.store, vector, ValueVector) && Backed(rt.store, vector)
    ensures storage == rt.store[vector].slots[0]
  {
    var found := rt.ExpectObject(rt.store[vector].slots[0], Some(VectorStorage));
    assert found.Done?;
    return found.value;
  }

  method Ref(rt: Runtime, vector: Word, position: Word) returns (r: Outcome<Word>)
    requires rt.ListSound() && VectorsOk(rt.store, {})
    ensures Agrees(r, rt.View(), VectorRefEffect(rt.View(), vector, position))
  {
    var v :- rt.ExpectObject(vector, Some(ValueVector));
    if position >= rt.store[v].length {
      return Aborted;
    }
    var storage := StorageOf(rt, v);
    return Done(rt.store[storage].items[position]);
  }

  method Set(rt: Runtime, vector: Word, position: Word, item: Word) returns (r: Outcome<Word>)
    requires rt.Valid() && VectorsOk(rt.store, {})
    modifies rt`store
    ensures Agrees(r, rt.View(), VectorSetEffect(old(rt.View()), vector, position, item)) && rt.Valid()
  {
    hide Sound, GrowthOk;
    var v :- rt.ExpectObject(vector, Some(ValueVector));
    if position >= rt.store[v].length {
      return Aborted;
    }
    var storage := StorageOf(rt, v);
    rt.WriteObject(storage, rt.store[storage].(items := rt.store[storage].items[position := item]));
    return Done(item);
  }

  // ---------- Push ----------

  /** Store the item behind the last one and count it in. */
  method Append(rt: Runtime, vector: Word, item: Word)
    requires rt.Valid() && IsA(rt.store, vector, ValueVector) && IsA(rt.store, rt.store[vector].slots[0], VectorStorage)
    requires rt.store[vector].length < |rt.store[rt.store[vector].slots[0]].items| && rt.store[vector].length < SIZE_MAX
    modifies rt`store
    ensures rt.View() == PushInPlace(old(rt.View()), vector, item) && rt.Valid()
  {
    var index := rt.store[vector].length;
    var storage := rt.ExpectObject(rt.store[vector].slots[0], Some(VectorStorage));
    assert storage.Done?;
    var w := storage.value;
    rt.WriteObject(w, rt.store[w].(items := rt.store[w].items[index := item]));
    rt.WriteObject(vector, rt.store[vector].(length := index + 1));
  }

  /** The new storage after the copy: the old items, then NIL. */
  function Moved(items: seq<Word>): (r: seq<Word>)
    ensures |r| == NextCapacity(|items|)
  {
    items + Fill(NextCapacity(|items|) - |items|, NIL)
  }

  /** v with its items moved to new storage, before the pushed item goes in. */
  function MovedVector(t: State, v: Word, at: Word): State
    requires Full(t, v)
  {
    var b := t.store[v];
    WithCopied(Write(Insert(t, at, StorageBody(Moved(t.store[b.slots[0]].items))), v, b.(slots := b.slots[0 := at])),
               v, t.history.copied[v] + b.length)
  }

  /** Moving and then appending is growing. */
  lemma MovedThenAppended(t: State, v: Word, item: Word, at: Word)
    requires Full(t, v) && Usable(t, at)
    ensures var m := MovedVector(t, v, at);
      && IsA(m.store, v, ValueVector) && m.store[v].slots[0] == at && IsA(m.store, at, VectorStorage)
      && m.store[v].length < |m.store[at].items| && m.store[v].length < SIZE_MAX
      && PushInPlace(m, v, item) == GrowVector(t, v, item, at)
  {
    var items := t.store[t.store[v].slots[0]].items;
    assert Moved(items)[|items| := item] == GrownItems(items, item);
    assert PushInPlace(MovedVector(t, v, at), v, item).store == GrowVector(t, v, item, at).store;
  }

  lemma PushedMove(t: State, frame: Frame, v: Word, at: Word)
    requires Full(t, v) && Usable(t, at)
    ensures var b := t.store[v]; var items := t.store[b.slots[0]].items;
      var made := Insert(Pushed(t, frame), at, StorageBody(Fill(NextCapacity(|items|), NIL)));
      var moved := Write(made, at, made.store[at].(items := Moved(items)));
      WithCopied(Write(moved, v, b.(slots := b.slots[0 := at])), v, t.history.copied[v] + b.length)
        == Pushed(MovedVector(t, v, at), frame)
  {
    var items := t.store[t.store[v].slots[0]].items;
    var b := StorageBody(Moved(items));
    assert StorageBody(Fill(NextCapacity(|items|), NIL)).(items := Moved(items)) == b;
    assert t.store[at := StorageBody(Fill(NextCapacity(|items|), NIL))][at := b] == t.store[at := b];
  }

  /** memcpy of the first `count` items into storage that holds only NIL. */
  lemma CopiedItems(from: seq<Word>, into: seq<Word>)
    requires into == Fill(NextCapacity(|from|), NIL)
    ensures |from| <= |into| && from[..|from|] + into[|from|..] == Moved(from)
  {
  }

  method MoveItems(rt: Runtime, v: Word, storage: Word, ghost t: State, ghost frame: Frame)
    requires rt.Valid() && Full(t, v) && Usable(t, storage)
    requires rt.View() == Insert(Pushed(t, frame), storage, StorageBody(Fill(NextCapacity(t.store[v].length), NIL)))
    modifies rt
    ensures rt.View() == Pushed(MovedVector(t, v, storage), frame) && rt.Valid()
  {
    hide Sound;
    PushedMove(t, frame, v, storage);
    var length := rt.store[v].length;
    var from := rt.store[rt.store[v].slots[0]].items;
    CopiedItems(from, rt.store[storage].items);
    Publish(rt, v, storage, from[..length] + rt.store[storage].items[length..]);
    rt.history := rt.history.(copied := rt.history.copied[v := rt.history.copied[v] + length]);
  }

  /** New storage while the frame protects header and item; the old storage stays reachable
      through the header until its items have been moved. */
  method Grow(rt: Runtime, v: Word, required: Word, at: Word, ghost s: State, ghost item: Word)
    returns (r: Outcome<Word>)
    requires rt.Valid() && BodiesOk(rt.store) && rt.View() == Pushed(s, Frame(LOCAL, [v, item]))
    requires IsA(s.store, v, ValueVector) && Backed(s.store, v) && v in s.history.copied
    requires s.store[v].length == |s.store[s.store[v].slots[0]].items| && required == s.store[v].length + 1
    modifies rt
    ensures var t := Settle(s, {v, item});
      if NextCapacity(s.store[v].length) <= CAPACITY_MAX && Usable(t, at)
      then r.Done? && rt.Valid() && Full(t, v) && rt.View() == Pushed(MovedVector(t, v, at), Frame(LOCAL, [v, item]))
      else r.Aborted?
  {
    hide Sound;
    ghost var frame, all := Frame(LOCAL, [v, item]), {v, item};
    assert all == SeqSet(frame.words);
    var current := StorageOf(rt, v);
    NextCapacityIsDoubling(s.store[v].length);
    var capacity :- GrownCapacity(rt.store[current].length, required);
    VectorSettles(s, all, v);
    var storage :- StorageUnder(rt, capacity, at, s, frame, all);
    MoveItems(rt, v, storage, Settle(s, all), frame);
    return Done(storage);
  }

  method PushItem(rt: Runtime, vector: Word, item: Word, at: Word) returns (r: Outcome<Word>)
    requires rt.Valid() && BodiesOk(rt.store) && VectorsOk(rt.store, {}) && GrowthOk(rt.View(), {})
    modifies rt
    ensures Agrees(r, rt.View(), VectorPushEffect(old(rt.View()), vector, item, at))
    ensures r.Done? ==> rt.Valid()
  {
    hide Sound;
    ghost var s := rt.View();
    rt.Push(Frame(LOCAL, [vector, item]));
    assert rt.View() == Pushed(s, Frame(LOCAL, [vector, item]));
    var v :- rt.ExpectObject(vector, Some(ValueVector));
    var index := rt.store[v].length;
    if index == SIZE_MAX {
      return Aborted;
    }
    assert Backed(s.store, v) && GrowthPaid(s, v);
    var storage := StorageOf(rt, v);
    if index + 1 > rt.store[storage].length {
      r := PushFull(rt, v, item, at, s);
    } else {
      r := PushSpare(rt, v, item, s);
    }
  }

  /** There is a spare item: store, count, unregister. */
  method PushSpare(rt: Runtime, v: Word, item: Word, ghost s: State) returns (r: Outcome<Word>)
    requires rt.Valid() && rt.View() == Pushed(s, Frame(LOCAL, [v, item]))
    requires IsA(s.store, v, ValueVector) && IsA(s.store, s.store[v].slots[0], VectorStorage)
    requires s.store[v].length < |s.store[s.store[v].slots[0]].items| && s.store[v].length < SIZE_MAX
    modifies rt
    ensures r == Done(s.store[v].length) && rt.View() == PushInPlace(s, v, item) && rt.Valid()
  {
    hide Sound;
    var index := rt.store[v].length;
    Append(rt, v, item);
    var popped := rt.Pop(LOCAL);
    assert popped.Done?;
    assert ([Frame(LOCAL, [v, item])] + s.frames)[1..] == s.frames;
    return Done(index);
  }

  method PushFull(rt: Runtime, v: Word, item: Word, at: Word, ghost s: State) returns (r: Outcome<Word>)
    requires rt.Valid() && BodiesOk(rt.store) && rt.View() == Pushed(s, Frame(LOCAL, [v, item]))
    requires IsA(s.store, v, ValueVector) && Backed(s.store, v) && v in s.history.copied
    requires s.store[v].length == |s.store[s.store[v].slots[0]].items| && s.store[v].length < SIZE_MAX
    modifies rt
    ensures var t := Settle(s, {v, item});
      if NextCapacity(s.store[v].length) <= CAPACITY_MAX && Usable(t, at)
      then r == Done(s.store[v].length) && rt.Valid() && Full(t, v) && rt.View() == GrowVector(t, v, item, at)
      else r.Aborted?
  {
    var index := rt.store[v].length;
    var grown :- Grow(rt, v, index + 1, at, s, item);
    ghost var t := Settle(s, {v, item});
    MovedThenAppended(t, v, item, at);
    r := PushSpare(rt, v, item, MovedVector(t, v, at));
  }
}
