/** Every operation keeps the invariant, whatever words its caller passes. */
module Invariants {
  import opened Words
  import opened Heap
  import opened Machine
  import opened Operations

  /** Chains only depend on the symbols they run through. */
  lemma {:induction false} ChainFrame(before: Store, after: Store, p: Word, w: Word, c: seq<Word>)
    requires Chain(before, p, w, c)
    requires forall a :: a in c && IsA(before, a, Symbol) ==> a in after && after[a] == before[a]
    ensures Chain(after, p, w, c)
    decreases c
  {
    if c != [] {
      ChainFrame(before, after, p, before[w].slots[2], c[1..]);
    }
  }

  lemma {:induction false} ChainUnique(store: Store, p: Word, w: Word, c: seq<Word>, d: seq<Word>)
    requires Chain(store, p, w, c) && Chain(store, p, w, d)
    ensures c == d
    decreases c
  {
    if c != [] {
      ChainUnique(store, p, store[w].slots[2], c[1..], d[1..]);
      assert c == [c[0]] + c[1..] && d == [d[0]] + d[1..];
    }
  }

  /** Packages keep their chains when symbols, and the heads of packages, keep theirs. */
  lemma PackagesFrame(before: Store, after: Store)
    requires PackagesOk(before)
    requires forall a :: IsA(before, a, Symbol) ==> a in after && after[a] == before[a]
    requires forall p :: IsA(after, p, Package) ==>
      (IsA(before, p, Package) && after[p].slots[1] == before[p].slots[1]) || after[p].slots[1] == NIL
    ensures PackagesOk(after)
  {
    forall p | IsA(after, p, Package)
      ensures HasChain(after, p)
    {
      if after[p].slots[1] == NIL {
        assert Chain(after, p, NIL, []);
      } else {
        var c :| Chain(before, p, before[p].slots[1], c);
        ChainFrame(before, after, p, before[p].slots[1], c);
      }
    }
  }

  lemma InsertKeepsHeap(s: State, a: Word, b: Body)
    requires HeapOk(s) && HeapTagged(a) && a !in s.store && BodyOk(b)
    ensures HeapOk(Insert(s, a, b))
  {
    assert SeqSet(Insert(s, a, b).order) == {a} + SeqSet(s.order);
  }

  lemma WriteKeepsHeap(s: State, a: Word, b: Body)
    requires HeapOk(s) && a in s.store && BodyOk(b)
    ensures HeapOk(Write(s, a, b))
  {
  }

  lemma UpdateKeepsNames(store: Store, a: Word, b: Body)
    requires NamesOk(store)
    requires a in store ==> b.kind == store[a].kind
    requires b.kind.Symbol? || b.kind.Package? ==> IsA(store, b.slots[0], ByteString)
    ensures NamesOk(store[a := b])
  {
  }

  /** Headers other than those pending keep their backing when it is not touched. */
  lemma VectorsFrame(s: State, t: State, pending: set<Word>)
    requires VectorsOk(s.store, pending) && GrowthOk(s, pending)
    requires forall v :: IsA(t.store, v, ValueVector) && v !in pending ==>
      && IsA(s.store, v, ValueVector) && t.store[v] == s.store[v]
      && s.store[v].slots[0] in t.store && t.store[s.store[v].slots[0]] == s.store[s.store[v].slots[0]]
      && v in t.history.copied && v in s.history.copied && t.history.copied[v] == s.history.copied[v]
    ensures VectorsOk(t.store, pending) && GrowthOk(t, pending)
  {
    forall v | IsA(t.store, v, ValueVector) && v !in pending
      ensures Backed(t.store, v)
      ensures t.store[v].slots[0] in t.store && GrowthPaid(t, v)
    {
      assert Backed(s.store, v) && GrowthPaid(s, v);
    }
  }

  lemma NonVectorFrame(s: State, a: Word, b: Body)
    requires VectorsOk(s.store, {}) && GrowthOk(s, {})
    requires a in s.store && b.kind == s.store[a].kind && !b.kind.ValueVector? && !b.kind.VectorStorage?
    ensures VectorsOk(Write(s, a, b).store, {}) && GrowthOk(Write(s, a, b), {})
  {
    VectorsFrame(s, Write(s, a, b), {});
  }

  /** A fresh object that is not a package with symbols or a finished vector. */
  lemma InsertKeepsGraph(s: State, a: Word, b: Body, pending: set<Word>)
    requires GraphOk(s, pending) && HeapTagged(a) && a !in s.store && BodyOk(b)
    requires b.kind.Symbol? || b.kind.Package? ==> IsA(s.store, b.slots[0], ByteString)
    requires b.kind.Package? ==> b.slots[1] == NIL
    requires b.kind.ValueVector? ==> a in pending
    ensures GraphOk(Insert(s, a, b), pending)
  {
    var t := Insert(s, a, b);
    InsertKeepsHeap(s, a, b);
    UpdateKeepsNames(s.store, a, b);
    PackagesFrame(s.store, t.store);
    VectorsFrame(s, t, pending);
  }

  lemma PendingIsWeaker(s: State, pending: set<Word>)
    requires Inv(s)
    ensures InvExcept(s, pending)
  {
  }

  lemma InsertKeepsInv(s: State, a: Word, b: Body, pending: set<Word>)
    requires InvExcept(s, pending) && |s.order| < s.limit
    requires GraphOk(Insert(s, a, b), pending)
    ensures InvExcept(Insert(s, a, b), pending)
  {
  }

  lemma ConstructKeepsInv(s: State, extra: set<Word>, at: Word, b: Body)
    requires Inv(s) && BodyOk(b) && !b.kind.ValueVector?
    requires b.kind.Symbol? || b.kind.Package? ==> IsA(s.store, b.slots[0], ByteString) && b.slots[0] in extra
    requires b.kind.Package? ==> b.slots[1] == NIL
    ensures Construct(s, extra, at, b).Done? ==> Inv(Construct(s, extra, at, b).value.state)
  {
    var t := Settle(s, extra);
    CollectKeepsInv(s, extra, {});
    if b.kind.Symbol? || b.kind.Package? {
      SettleKeepsExtra(s, extra, b.slots[0]);
    }
    if Construct(s, extra, at, b).Done? {
      InsertKeepsGraph(t, at, b, {});
      InsertKeepsInv(t, at, b, {});
    }
  }

  /** Rewriting an object that is no vector, keeping its kind, its name and its chain. */
  lemma WriteKeepsGraph(s: State, a: Word, b: Body)
    requires GraphOk(s, {}) && a in s.store && BodyOk(b) && b.kind == s.store[a].kind
    requires !b.kind.Symbol? && !b.kind.ValueVector? && !b.kind.VectorStorage?
    requires b.slots == s.store[a].slots
    ensures GraphOk(Write(s, a, b), {})
  {
    var t := Write(s, a, b);
    WriteKeepsHeap(s, a, b);
    UpdateKeepsNames(s.store, a, b);
    PackagesFrame(s.store, t.store);
    NonVectorFrame(s, a, b);
  }

  lemma StringSetKeepsInv(s: State, text: Word, position: Word, byte: Byte)
    requires Inv(s)
    ensures var r := StringSetByteEffect(s, text, position, byte); r.Done? ==> Inv(r.value.state)
  {
    if StringSetByteEffect(s, text, position, byte).Done? {
      var b := s.store[text];
      WriteKeepsGraph(s, text, b.(bytes := b.bytes[position := byte]));
    }
  }

  // ---------- Interning ----------

  /** Linking a new symbol extends the chain of its package and no other. */
  lemma LinkKeepsPackages(store: Store, package: Word, b: Body, at: Word, c: seq<Word>)
    requires PackagesOk(store) && IsA(store, package, Package) && b.kind.Package? && b.slots[1] == at
    requires IsA(store, at, Symbol) && store[at].slots[1] == package && at != NIL
    requires Chain(store, package, store[at].slots[2], c)
    ensures PackagesOk(store[package := b]) && Chain(store[package := b], package, at, [at] + c)
  {
    var linked := store[package := b];
    ChainFrame(store, linked, package, store[at].slots[2], c);
    assert ([at] + c)[1..] == c;
    forall p | IsA(linked, p, Package)
      ensures HasChain(linked, p)
    {
      if p == package {
        assert Chain(linked, p, linked[p].slots[1], [at] + c);
      } else {
        assert IsA(store, p, Package) && HasChain(store, p);
        var d :| Chain(store, p, store[p].slots[1], d);
        ChainFrame(store, linked, p, store[p].slots[1], d);
      }
    }
  }

  lemma HeapWordIsNotNil(a: Word)
    requires HeapTagged(a)
    ensures a != NIL
  {
    HeapTaggedIsAligned(a);
  }

  /** t holds the new symbol; linking it extends exactly the chain of its package. */
  lemma LinkKeepsGraph(t: State, package: Word, at: Word, c: seq<Word>)
    requires GraphOk(t, {}) && IsA(t.store, package, Package)
    requires IsA(t.store, at, Symbol) && t.store[at].slots[1] == package
    requires t.store[at].slots[2] == t.store[package].slots[1]
    requires Chain(t.store, package, t.store[package].slots[1], c)
    ensures var u := Write(t, package, t.store[package].(slots := t.store[package].slots[1 := at]));
            GraphOk(u, {}) && Chain(u.store, package, at, [at] + c)
  {
    var b := t.store[package].(slots := t.store[package].slots[1 := at]);
    var u := Write(t, package, b);
    assert HeapOk(u) by { WriteKeepsHeap(t, package, b); }
    assert NamesOk(u.store) by { UpdateKeepsNames(t.store, package, b); }
    assert PackagesOk(u.store) && Chain(u.store, package, at, [at] + c) by {
      HeapWordIsNotNil(at);
      LinkKeepsPackages(t.store, package, b, at, c);
    }
    NonVectorFrame(t, package, b);
  }

  /** A package named by the call keeps its whole chain through the collection. */
  lemma ChainSettles(s: State, extra: set<Word>, package: Word, c: seq<Word>)
    requires package in Live(s.store, RootSet(s) + extra) && s.store[package].kind.Package?
    requires Chain(s.store, package, s.store[package].slots[1], c)
    ensures Chain(Settle(s, extra).store, package, s.store[package].slots[1], c)
  {
    var roots := RootSet(s) + extra;
    LiveIsClosed(s.store, roots);
    assert s.store[package].slots[1] in Children(s.store[package]);
    ChainSurvives(s.store, Live(s.store, roots), package, s.store[package].slots[1], c);
  }

  lemma {:induction false} ChainMembers(store: Store, p: Word, w: Word, c: seq<Word>)
    requires Chain(store, p, w, c)
    ensures forall a :: a in c ==> IsA(store, a, Symbol) && store[a].slots[1] == p
    decreases c
  {
    if c != [] {
      ChainMembers(store, p, store[w].slots[2], c[1..]);
      assert c == [c[0]] + c[1..];
    }
  }

  /** The heap after the symbol is made and before it is linked. */
  lemma SymbolMade(t: State, package: Word, name: Word, at: Word, c: seq<Word>)
    requires GraphOk(t, {}) && Usable(t, at)
    requires IsA(t.store, package, Package) && IsA(t.store, name, ByteString)
    requires Chain(t.store, package, t.store[package].slots[1], c)
    ensures var i := Insert(t, at, SymbolBody(name, package, t.store[package].slots[1]));
      GraphOk(i, {}) && Chain(i.store, package, i.store[package].slots[1], c)
  {
    var b := SymbolBody(name, package, t.store[package].slots[1]);
    InsertKeepsGraph(t, at, b, {});
    ChainMembers(t.store, package, t.store[package].slots[1], c);
    ChainFrame(t.store, Insert(t, at, b).store, package, t.store[package].slots[1], c);
  }

  /** One more object, within the limit, and nothing else changed outside the graph. */
  lemma GraphMakesInv(t: State, u: State, at: Word)
    requires InvExcept(t, {}) && |t.order| < t.limit && GraphOk(u, {}) && SameTables(t, u)
    requires u.order == [at] + t.order && u.limit == t.limit
    requires u.history.starts == t.history.starts && u.history.allocations == t.history.allocations + 1
    ensures Inv(u)
  {
  }

  lemma LinkSymbolKeepsInv(t: State, package: Word, name: Word, at: Word, c: seq<Word>)
    requires Inv(t) && |t.order| < t.limit && Usable(t, at)
    requires IsA(t.store, package, Package) && IsA(t.store, name, ByteString)
    requires Chain(t.store, package, t.store[package].slots[1], c)
    ensures var u := LinkSymbol(t, package, name, at);
      Inv(u) && Chain(u.store, package, u.store[package].slots[1], [at] + c)
  {
    hide HandlesOk, NamesOk, PackagesOk, VectorsOk, GrowthOk, ValuesOk;
    var u := LinkSymbol(t, package, name, at);
    assert GraphOk(u, {}) && Chain(u.store, package, u.store[package].slots[1], [at] + c) by {
      var i := Insert(t, at, SymbolBody(name, package, t.store[package].slots[1]));
      SymbolMade(t, package, name, at, c);
      LinkKeepsGraph(i, package, at, c);
      assert u == Write(i, package, i.store[package].(slots := i.store[package].slots[1 := at]));
    }
    GraphMakesInv(t, u, at);
  }

  lemma InternNewKeepsInv(s: State, package: Word, name: Word, extra: set<Word>, at: Word, c: seq<Word>)
    requires Inv(s) && IsA(s.store, package, Package) && IsA(s.store, name, ByteString)
    requires package in extra && name in extra && Chain(s.store, package, s.store[package].slots[1], c)
    requires InternNew(s, package, name, extra, at).Done?
    ensures var u := InternNew(s, package, name, extra, at).value.state;
      Inv(u) && package in u.store && Chain(u.store, package, u.store[package].slots[1], [at] + c)
  {
    CollectKeepsInv(s, extra, {});
    SettleKeepsExtra(s, extra, package);
    SettleKeepsExtra(s, extra, name);
    RootIsLive(s.store, RootSet(s) + extra, package);
    ChainSettles(s, extra, package, c);
    LinkSymbolKeepsInv(Settle(s, extra), package, name, at, c);
  }

  lemma InternKeepsInv(s: State, package: Word, name: Word, scan: Scan, at: Word)
    requires Inv(s)
    ensures var r := InternEffect(s, package, name, scan, at); r.Done? ==> Inv(r.value.state)
  {
    hide NamesOk, VectorsOk, GrowthOk, HandlesOk, ValuesOk, PacingOk;
    var extra := {package, name} + ScanWords(scan);
    if IsA(s.store, package, Package) && IsA(s.store, name, ByteString) &&
       InternNew(s, package, name, extra, at).Done? {
      InternNewKeepsInv(s, package, name, extra, at, ChainOf(s.store, package));
    }
  }

  // ---------- Vectors ----------

  /** Header v gets new backing; every other header keeps its own. */
  lemma RebackVector(t: State, v: Word)
    requires VectorsOk(t.store, {v}) && GrowthOk(t, {v})
    requires IsA(t.store, v, ValueVector) && Backed(t.store, v) && GrowthPaid(t, v)
    requires forall x :: IsA(t.store, x, ValueVector) && x != v ==> t.store[x].slots[0] != t.store[v].slots[0]
    ensures VectorsOk(t.store, {}) && GrowthOk(t, {})
  {
  }

  /** A header and fresh storage for it, with k elements copied so far. */
  ghost predicate Attachable(header: Body, at: Word, items: seq<Word>, k: nat) {
    && header.kind.ValueVector? && header.slots[0] == at && header.length <= |items| <= SIZE_MAX
    && (forall i :: header.length <= i < |items| ==> items[i] == NIL)
    && k <= |items| && (k == 0 || |items| <= 2 * header.length)
  }

  lemma AttachVectors(s: State, v: Word, header: Body, at: Word, items: seq<Word>, k: nat)
    requires VectorsOk(s.store, {v}) && GrowthOk(s, {v}) && IsA(s.store, v, ValueVector)
    requires at !in s.store
    requires Attachable(header, at, items, k)
    ensures var u := Attach(s, v, header, at, items, k);
      VectorsOk(u.store, {}) && GrowthOk(u, {})
  {
    var u := Attach(s, v, header, at, items, k);
    forall x | IsA(u.store, x, ValueVector) && x != v
      ensures IsA(s.store, x, ValueVector) && Backed(s.store, x) && u.store[x] == s.store[x]
      ensures s.store[x].slots[0] != v
    {
      assert IsA(s.store, x, ValueVector);
    }
    VectorsFrame(s, u, {v});
    RebackVector(u, v);
  }

  /** Giving header v fresh storage: used by construction and by growth. */
  lemma AttachStorage(s: State, v: Word, header: Body, at: Word, items: seq<Word>, k: nat)
    requires GraphOk(s, {v}) && IsA(s.store, v, ValueVector)
    requires HeapTagged(at) && at !in s.store
    requires Attachable(header, at, items, k)
    ensures GraphOk(Attach(s, v, header, at, items, k), {})
  {
    var b := StorageBody(items);
    var t := Insert(s, at, b);
    InsertKeepsHeap(s, at, b);
    WriteKeepsHeap(t, v, header);
    UpdateKeepsNames(s.store, at, b);
    UpdateKeepsNames(t.store, v, header);
    PackagesFrame(s.store, Write(t, v, header).store);
    AttachVectors(s, v, header, at, items, k);
  }

  /** Allocating an object that is no finished vector, symbol or package. */
  lemma AllocateKeepsInv(s: State, extra: set<Word>, at: Word, b: Body, pending: set<Word>)
    requires InvExcept(s, pending) && BodyOk(b) && Allocate(s, extra, at, b).Done?
    requires !b.kind.Symbol? && !b.kind.Package? && (b.kind.ValueVector? ==> at in pending)
    ensures InvExcept(Settle(s, extra), pending) && InvExcept(Allocate(s, extra, at, b).value, pending)
  {
    CollectKeepsInv(s, extra, pending);
    InsertKeepsGraph(Settle(s, extra), at, b, pending);
    InsertKeepsInv(Settle(s, extra), at, b, pending);
  }

  lemma AttachKeepsInv(s: State, v: Word, header: Body, at: Word, items: seq<Word>, k: nat)
    requires InvExcept(s, {v}) && |s.order| < s.limit && IsA(s.store, v, ValueVector) && Usable(s, at)
    requires Attachable(header, at, items, k)
    ensures Inv(Attach(s, v, header, at, items, k))
  {
    AttachStorage(s, v, header, at, items, k);
  }

  lemma BackVectorKeepsInv(t: State, at: Word, length: Word, initial: Word, storageAt: Word)
    requires InvExcept(t, {at}) && |t.order| < t.limit && Usable(t, storageAt)
    requires IsA(t.store, at, ValueVector) && length <= CAPACITY_MAX
    ensures Inv(BackVector(t, at, length, initial, storageAt))
  {
    AttachKeepsInv(t, at, VectorBody(length, storageAt), storageAt, Fill(length, initial), 0);
  }

  lemma MakeVectorKeepsInv(s: State, length: Word, initial: Word, at: Word, storageAt: Word)
    requires Inv(s)
    ensures var r := MakeVectorEffect(s, length, initial, at, storageAt); r.Done? ==> Inv(r.value.state)
  {
    if MakeVectorEffect(s, length, initial, at, storageAt).Done? {
      var extra := {at, initial};
      PendingIsWeaker(s, {at});
      AllocateKeepsInv(s, {NIL, initial}, at, VectorBody(length, 0), {at});
      var t := Allocate(s, {NIL, initial}, at, VectorBody(length, 0)).value;
      CollectKeepsInv(t, extra, {at});
      SettleKeepsExtra(t, extra, at);
      BackVectorKeepsInv(Settle(t, extra), at, length, initial, storageAt);
    }
  }

  /** Rewriting one item, and possibly counting it in, leaves every vector backed. */
  lemma StoreItemVectors(s: State, t: State, v: Word, b: Body, length: Word)
    requires VectorsOk(s.store, {}) && GrowthOk(s, {}) && IsA(s.store, v, ValueVector)
    requires t.history == s.history
    requires var w := s.store[v].slots[0];
      && b.kind.VectorStorage? && b.length == s.store[w].length == |b.items|
      && s.store[v].length <= length <= b.length
      && (forall i :: length <= i < |b.items| ==> b.items[i] == NIL)
      && t.store == s.store[w := b][v := s.store[v].(length := length)]
    ensures VectorsOk(t.store, {}) && GrowthOk(t, {})
  {
    var w := s.store[v].slots[0];
    assert Backed(s.store, v) && GrowthPaid(s, v);
    forall x | IsA(t.store, x, ValueVector) && x != v
      ensures IsA(s.store, x, ValueVector) && Backed(s.store, x) && GrowthPaid(s, x)
      ensures s.store[x].slots[0] != w && s.store[x].slots[0] != v && t.store[x] == s.store[x]
    {
      assert IsA(s.store, x, ValueVector);
    }
    VectorsFrame(s, t, {v});
    RebackVector(t, v);
  }

  lemma StoreItemKeepsInv(s: State, v: Word, b: Body, length: Word)
    requires Inv(s) && IsA(s.store, v, ValueVector)
    requires var w := s.store[v].slots[0];
      && b.kind.VectorStorage? && b.length == s.store[w].length == |b.items|
      && s.store[v].length <= length <= b.length
      && (forall i :: length <= i < |b.items| ==> b.items[i] == NIL)
    ensures Inv(Write(Write(s, s.store[v].slots[0], b), v, s.store[v].(length := length)))
  {
    hide HeapOk, NamesOk, PackagesOk, GrowthOk;
    var w := s.store[v].slots[0];
    assert Backed(s.store, v);
    var header := s.store[v].(length := length);
    var t := Write(s, w, b);
    var u := Write(t, v, header);
    WriteKeepsHeap(s, w, b);
    WriteKeepsHeap(t, v, header);
    UpdateKeepsNames(s.store, w, b);
    UpdateKeepsNames(t.store, v, header);
    PackagesFrame(s.store, u.store);
    StoreItemVectors(s, u, v, b, length);
  }

  lemma VectorSetKeepsInv(s: State, vector: Word, position: Word, item: Word)
    requires Inv(s)
    ensures var r := VectorSetEffect(s, vector, position, item); r.Done? ==> Inv(r.value.state)
  {
    if VectorSetEffect(s, vector, position, item).Done? {
      assert Backed(s.store, vector);
      var w := s.store[vector].slots[0];
      var b := s.store[w].(items := s.store[w].items[position := item]);
      StoreItemKeepsInv(s, vector, b, s.store[vector].length);
      assert Write(Write(s, w, b), vector, s.store[vector]) == Write(s, w, b);
    }
  }

  lemma PushInPlaceKeepsInv(s: State, v: Word, item: Word)
    requires Inv(s) && IsA(s.store, v, ValueVector) && Backed(s.store, v)
    requires s.store[v].length < |s.store[s.store[v].slots[0]].items| && s.store[v].length < SIZE_MAX
    ensures Inv(PushInPlace(s, v, item))
  {
    hide NamesOk, PackagesOk, VectorsOk, GrowthOk, HandlesOk, HeapOk;
    var b, w := s.store[v], s.store[v].slots[0];
    StoreItemKeepsInv(s, v, s.store[w].(items := s.store[w].items[b.length := item]), b.length + 1);
  }

  lemma GrowthIsPaid(t: State, v: Word, item: Word, at: Word)
    requires Full(t, v) && GrowthPaid(t, v) && Backed(t.store, v)
    ensures Attachable(GrownHeader(t.store[v], at), at, GrownItems(t.store[t.store[v].slots[0]].items, item),
                       t.history.copied[v] + t.store[v].length)
  {
  }

  lemma GrowVectorKeepsInv(t: State, v: Word, item: Word, at: Word)
    requires InvExcept(t, {v}) && |t.order| < t.limit && Usable(t, at)
    requires Full(t, v) && GrowthPaid(t, v) && Backed(t.store, v)
    ensures Inv(GrowVector(t, v, item, at))
  {
    hide NamesOk, PackagesOk, VectorsOk, GrowthOk, HandlesOk, ValuesOk, PacingOk, Backed;
    GrowthIsPaid(t, v, item, at);
    AttachKeepsInv(t, v, GrownHeader(t.store[v], at), at,
                   GrownItems(t.store[t.store[v].slots[0]].items, item), t.history.copied[v] + t.store[v].length);
  }

  lemma PushGrownKeepsInv(s: State, v: Word, item: Word, at: Word)
    requires Inv(s) && Full(s, v) && PushGrown(s, v, item, at).Done?
    ensures Inv(PushGrown(s, v, item, at).value.state)
  {
    CollectKeepsInv(s, {v, item}, {});
    VectorSettles(s, {v, item}, v);
    assert Backed(Settle(s, {v, item}).store, v) && GrowthPaid(Settle(s, {v, item}), v);
    PendingIsWeaker(Settle(s, {v, item}), {v});
    GrowVectorKeepsInv(Settle(s, {v, item}), v, item, at);
  }

  lemma VectorPushKeepsInv(s: State, vector: Word, item: Word, at: Word)
    requires Inv(s)
    ensures var r := VectorPushEffect(s, vector, item, at); r.Done? ==> Inv(r.value.state)
  {
    if VectorPushEffect(s, vector, item, at).Done? {
      assert Backed(s.store, vector) && GrowthPaid(s, vector);
      if s.store[vector].length < |s.store[s.store[vector].slots[0]].items| {
        PushInPlaceKeepsInv(s, vector, item);
      } else {
        PushGrownKeepsInv(s, vector, item, at);
      }
    }
  }

  // ---------- The step theorem ----------

  /** The heap part of the invariant does not look at roots and handles. */
  lemma RootsFrame(s: State, t: State)
    requires Inv(s) && HandlesOk(t) && ValuesOk(t)
    requires t.store == s.store && t.order == s.order && t.limit == s.limit && t.history == s.history
    ensures Inv(t)
  {
  }

  lemma HandleCloseKeepsInv(s: State, token: Word)
    requires Inv(s)
    ensures HandleCloseEffect(s, token).Done? ==> Inv(HandleCloseEffect(s, token).value.state)
  {
    if HandleCloseEffect(s, token).Done? {
      var t := HandleCloseEffect(s, token).value.state;
      RemoveKeepsOrder(s, t, HandleIndex(s.handles, token));
      RootsFrame(s, t);
    }
  }

  lemma RemoveKeepsOrder(s: State, t: State, i: nat)
    requires HandlesOk(s) && i < |s.handles| && t.nextToken == s.nextToken
    requires t.handles == s.handles[..i] + s.handles[i + 1..]
    ensures HandlesOk(t)
  {
    assert forall j :: 0 <= j < |t.handles| ==> t.handles[j] == s.handles[if j < i then j else j + 1];
  }

  lemma PlanKeepsInv(s: State, op: Op)
    requires Inv(s) && IsConstructor(op)
    ensures Constructed(s, op).Done? ==> Inv(Constructed(s, op).value.state)
  {
    var plan := PlanOf(s, op);
    if plan.Some? {
      ConstructKeepsInv(s, plan.value.extra, plan.value.at, plan.value.body);
    }
  }

  lemma HandleOpsKeepLists(s: State, op: Op)
    requires Inv(s) && (op.HandleOpen? || op.HandleSet?) && TableEffect(s, op).Done?
    ensures HandlesOk(TableEffect(s, op).value.state)
  {
  }

  lemma LightOpsKeepLists(s: State, op: Op)
    requires Inv(s) && LeavesHeap(op) && !op.HandleClose? && TableEffect(s, op).Done?
    ensures HandlesOk(TableEffect(s, op).value.state) && ValuesOk(TableEffect(s, op).value.state)
  {
    if op.HandleOpen? || op.HandleSet? {
      HandleOpsKeepLists(s, op);
    }
  }

  lemma LightOpsKeepInv(s: State, op: Op)
    requires Inv(s) && LeavesHeap(op) && TableEffect(s, op).Done?
    ensures Inv(TableEffect(s, op).value.state)
  {
    var t := TableEffect(s, op).value.state;
    assert SameHeap(s, t) by { HeapLeftAlone(s, op); }
    assert HandlesOk(t) && ValuesOk(t) by {
      if op.HandleClose? {
        HandleCloseKeepsInv(s, op.token);
      } else {
        LightOpsKeepLists(s, op);
      }
    }
    RootsFrame(s, t);
  }

  lemma HeapCallsKeepInv(s: State, op: Op)
    requires Inv(s) && !LeavesHeap(op) && !IsConstructor(op) && HeapEffect(s, op).Done?
    ensures Inv(HeapEffect(s, op).value.state)
  {
    match op
    case CollectNow(scan, granted) => CollectKeepsInv(s, ScanWords(scan), {});
    case StringSetByte(text, position, byte) => StringSetKeepsInv(s, text, position, byte);
    case Intern(package, name, scan, at) => InternKeepsInv(s, package, name, scan, at);
    case MakeVector(length, initial, at, storageAt) => MakeVectorKeepsInv(s, length, initial, at, storageAt);
    case VectorSet(vector, position, item) => VectorSetKeepsInv(s, vector, position, item);
    case VectorPush(vector, item, at) => VectorPushKeepsInv(s, vector, item, at);
  }

  /** No call, however wrong its arguments, leaves the invariant. */
  lemma ExecKeepsInv(s: State, op: Op)
    requires Inv(s)
    ensures Exec(s, op).Done? ==> Inv(Exec(s, op).value.state)
  {
    if Exec(s, op).Done? {
      if IsConstructor(op) {
        PlanKeepsInv(s, op);
      } else if LeavesHeap(op) {
        LightOpsKeepInv(s, op);
      } else {
        HeapCallsKeepInv(s, op);
      }
    }
  }
}
