/** The operations on objects, as the C modules perform them on the collector's heap:
    runtime/cons.c, string.c, symbol.c, package.c, closure.c, values.c. Each agrees with its
    effect on the state, including which calls abort. */
module Objects {
  import opened Words
  import opened Heap
  import opened Machine
  import opened Operations
  import opened Invariants
  import opened Gc

  /** Root frames that live in the activations of C functions: of a constructor, and of
      intern_symbol around it. No client's frame is at such an address. */
  const LOCAL: Word := 1
  const OUTER: Word := 2

  lemma BuiltState(s: State, frame: Frame, at: Word, zero: Body, b: Body)
    ensures Write(Insert(Pushed(s, frame), at, zero), at, b) == Pushed(Insert(s, at, b), frame)
    ensures Pushed(Insert(s, at, b), frame).frames[1..] == s.frames
  {
    assert s.store[at := zero][at := b] == s.store[at := b];
  }

  /** Register words in a frame and allocate: they survive the collection this may cause. */
  method AllocateUnder(rt: Runtime, words: seq<Word>, kind: Kind, scan: Scan, at: Word, ghost all: set<Word>)
    returns (r: Outcome<Word>)
    requires rt.Valid() && BodiesOk(rt.store) && all == SeqSet(words) + ScanWords(scan)
    modifies rt
    ensures var t := Settle(old(rt.View()), all);
      if Usable(t, at)
      then r == Done(at) && rt.View() == Insert(Pushed(t, Frame(LOCAL, words)), at, ZeroBody(kind, 0)) && rt.Valid()
      else r.Aborted?
  {
    var frame := Frame(LOCAL, words);
    PushedSettle(rt.View(), frame, ScanWords(scan), all);
    rt.Push(frame);
    assert rt.View() == Pushed(old(rt.View()), frame);
    r := rt.AllocateObject(kind, 0, scan, at);
  }

  /** Register the arguments, allocate, store the fields, unregister: the shape that all
      constructors with managed arguments share. */
  method Build(rt: Runtime, words: seq<Word>, b: Body, scan: Scan, at: Word) returns (r: Outcome<Word>)
    requires rt.Valid() && BodiesOk(rt.store)
    modifies rt
    ensures Agrees(r, rt.View(), Construct(old(rt.View()), SeqSet(words) + ScanWords(scan), at, b))
    ensures r.Done? ==> rt.Valid()
  {
    hide Sound;
    ghost var all := SeqSet(words) + ScanWords(scan);
    var made :- AllocateUnder(rt, words, b.kind, scan, at, all);
    BuiltState(Settle(old(rt.View()), all), Frame(LOCAL, words), at, ZeroBody(b.kind, 0), b);
    rt.WriteObject(made, b);
    var popped := rt.Pop(LOCAL);
    assert popped.Done?;
    return Done(made);
  }

  method MakeCons(rt: Runtime, first: Word, rest: Word, scan: Scan, at: Word) returns (r: Outcome<Word>)
    requires rt.Valid() && BodiesOk(rt.store)
    modifies rt
    ensures Agrees(r, rt.View(), Constructed(old(rt.View()), Op.MakeCons(first, rest, scan, at)))
    ensures r.Done? ==> rt.Valid()
  {
    assert SeqSet([first, rest]) == {first, rest};
    r := Build(rt, [first, rest], ConsBody(first, rest), scan, at);
  }

  method Slot(rt: Runtime, w: Word, slot: nat) returns (r: Outcome<Word>)
    requires rt.ListSound() && slot < 2
    ensures Agrees(r, rt.View(), SlotEffect(rt.View(), w, ConsCell, slot))
  {
    if w == NIL {
      return Done(NIL);
    }
    var pair :- rt.ExpectObject(w, Some(ConsCell));
    return Done(rt.store[pair].slots[slot]);
  }

  method MakeSymbol(rt: Runtime, name: Word, scan: Scan, at: Word) returns (r: Outcome<Word>)
    requires rt.Valid() && BodiesOk(rt.store)
    modifies rt
    ensures Agrees(r, rt.View(), Constructed(old(rt.View()), Op.MakeSymbol(name, scan, at)))
    ensures r.Done? ==> rt.Valid()
  {
    var _ :- rt.ExpectObject(name, Some(ByteString));
    assert SeqSet([name]) == {name};
    r := Build(rt, [name], SymbolBody(name, NIL, NIL), scan, at);
  }

  method MakePackage(rt: Runtime, name: Word, scan: Scan, at: Word) returns (r: Outcome<Word>)
    requires rt.Valid() && BodiesOk(rt.store)
    modifies rt
    ensures Agrees(r, rt.View(), Constructed(old(rt.View()), Op.MakePackage(name, scan, at)))
    ensures r.Done? ==> rt.Valid()
  {
    var _ :- rt.ExpectObject(name, Some(ByteString));
    assert SeqSet([name]) == {name};
    r := Build(rt, [name], PackageBody(name, NIL), scan, at);
  }

  method MakeClosure(rt: Runtime, code: Word, environment: Word, scan: Scan, at: Word) returns (r: Outcome<Word>)
    requires rt.Valid() && BodiesOk(rt.store)
    modifies rt
    ensures Agrees(r, rt.View(), Constructed(old(rt.View()), Op.MakeClosure(code, environment, scan, at)))
    ensures r.Done? ==> rt.Valid()
  {
    if code == 0 {
      return Aborted;
    }
    assert SeqSet([environment]) == {environment};
    r := Build(rt, [environment], ClosureBody(code, environment), scan, at);
  }

  /** The frame goes in before the closure is checked. */
  method EnterClosure(rt: Runtime, closure: Word, argument: Word, id: Word) returns (r: Outcome<Word>)
    requires rt.Valid()
    modifies rt`roots
    ensures Agrees(r, rt.View(), EnterClosureEffect(old(rt.View()), closure, argument, id)) && rt.Valid()
  {
    rt.Push(Frame(id, [closure, argument]));
    var found :- rt.ExpectObject(closure, Some(Closure));
    return Done(rt.store[found].slots[0]);
  }

  // ---------- Strings ----------

  lemma StringState(s: State, at: Word, zero: Body, b: Body)
    ensures Write(Insert(s, at, zero), at, b) == Insert(s, at, b)
  {
    assert s.store[at := zero][at := b] == s.store[at := b];
  }

  method MakeString(rt: Runtime, length: Word, fill: Byte, scan: Scan, at: Word) returns (r: Outcome<Word>)
    requires rt.Valid() && BodiesOk(rt.store)
    modifies rt
    ensures Agrees(r, rt.View(), Constructed(old(rt.View()), Op.MakeString(length, fill, scan, at)))
    ensures r.Done? ==> rt.Valid() && BodiesOk(rt.store)
  {
    hide Sound;
    if length == SIZE_MAX {
      return Aborted;
    }
    SettleKeepsBodies(rt.View(), ScanWords(scan));
    var made :- rt.AllocateObject(ByteString, length + 1, scan, at);
    ghost var settled, zero := Settle(old(rt.View()), ScanWords(scan)), ZeroBody(ByteString, length + 1);
    StringState(settled, at, zero, StringBody(Fill(length, fill)));
    rt.WriteObject(made, rt.store[made].(length := length, bytes := Fill(length, fill) + [0]));
    return Done(made);
  }

  /** A null pointer is accepted for no bytes only. */
  method CopyString(rt: Runtime, source: Source, scan: Scan, at: Word) returns (r: Outcome<Word>)
    requires rt.Valid() && BodiesOk(rt.store) && (source.BytesAt? ==> |source.bytes| <= SIZE_MAX)
    modifies rt
    ensures Agrees(r, rt.View(), Constructed(old(rt.View()), Op.CopyString(source, scan, at)))
    ensures r.Done? ==> rt.Valid()
  {
    if source.NoBytes? && source.length != 0 {
      return Aborted;
    }
    var bytes := if source.NoBytes? then [] else source.bytes;
    r := CopyBytes(rt, bytes, scan, at);
  }

  method CopyBytes(rt: Runtime, bytes: seq<Byte>, scan: Scan, at: Word) returns (r: Outcome<Word>)
    requires rt.Valid() && BodiesOk(rt.store) && |bytes| <= SIZE_MAX
    modifies rt
    ensures Agrees(r, rt.View(), Constructed(old(rt.View()), Op.CopyString(BytesAt(bytes), scan, at)))
    ensures r.Done? ==> rt.Valid()
  {
    hide Sound;
    var made :- MakeString(rt, |bytes|, 0, scan, at);
    StringState(Settle(old(rt.View()), ScanWords(scan)), at, StringBody(Fill(|bytes|, 0)), StringBody(bytes));
    if |bytes| > 0 {
      var found := rt.ExpectObject(made, Some(ByteString));
      assert found.Done?;
      rt.WriteObject(found.value, rt.store[found.value].(bytes := bytes + [0]));
    } else {
      assert Fill(|bytes|, 0) == bytes;
    }
    return Done(made);
  }

  method GetByte(rt: Runtime, text: Word, position: Word) returns (r: Outcome<Word>)
    requires rt.ListSound() && HeapOk(rt.View())
    ensures Agrees(r, rt.View(), StringByteEffect(rt.View(), text, position))
  {
    var found :- rt.ExpectObject(text, Some(ByteString));
    if position >= rt.store[found].length {
      return Aborted;
    }
    return Done(rt.store[found].bytes[position]);
  }

  method SetByte(rt: Runtime, text: Word, position: Word, byte: Byte) returns (r: Outcome<Word>)
    requires rt.Valid() && HeapOk(rt.View())
    modifies rt`store
    ensures Agrees(r, rt.View(), StringSetByteEffect(old(rt.View()), text, position, byte)) && rt.Valid()
  {
    var found :- rt.ExpectObject(text, Some(ByteString));
    if position >= rt.store[found].length {
      return Aborted;
    }
    rt.WriteObject(found, rt.store[found].(bytes := rt.store[found].bytes[position := byte]));
    return Done(0);
  }

  method StringsEqual(rt: Runtime, left: Word, right: Word) returns (r: Outcome<bool>)
    requires rt.ListSound() && BodiesOk(rt.store)
    ensures r == if IsA(rt.store, left, ByteString) && IsA(rt.store, right, ByteString)
                 then Done(Text(rt.store, left) == Text(rt.store, right)) else Aborted
  {
    var a :- rt.ExpectObject(left, Some(ByteString));
    var b :- rt.ExpectObject(right, Some(ByteString));
    return Done(rt.store[a].length == rt.store[b].length &&
                rt.store[a].bytes[..rt.store[a].length] == rt.store[b].bytes[..rt.store[b].length]);
  }

  // ---------- Interning ----------

  lemma LookupAt(store: Store, c: seq<Word>, i: nat, text: seq<Byte>)
    requires ChainNamed(store, c) && i < |c| && Lookup(store, c, text) >= i
    ensures IsA(store, c[i], Symbol) && IsA(store, store[c[i]].slots[0], ByteString)
    ensures BodyOk(store[store[c[i]].slots[0]])
    ensures Lookup(store, c, text) == i <==> Text(store, store[c[i]].slots[0]) == text
  {
    assert ChainNamed(store, [c[i]]) && NameOf(store, c[i]) == Text(store, store[c[i]].slots[0]);
  }

  /** The walk along the chain stops at the first symbol with an equal name, or at NIL. It
      never aborts: every word of the chain is a symbol and every name a string. */
  method FindSymbol(rt: Runtime, package: Word, name: Word, ghost c: seq<Word>) returns (found: Word, ghost i: nat)
    requires rt.ListSound() && BodiesOk(rt.store) && IsA(rt.store, package, Package) && IsA(rt.store, name, ByteString)
    requires Chain(rt.store, package, rt.store[package].slots[1], c) && ChainNamed(rt.store, c)
    ensures i == Lookup(rt.store, c, Text(rt.store, name))
    ensures found == (if i < |c| then c[i] else NIL) && (i < |c| ==> found != NIL)
  {
    var current := rt.store[package].slots[1];
    i := 0;
    ghost var rest := c;
    while current != NIL
      invariant i <= |c| && rest == c[i..] && Chain(rt.store, package, current, rest)
      invariant Lookup(rt.store, c, Text(rt.store, name)) >= i
      decreases |rest|
    {
      LookupAt(rt.store, c, i, Text(rt.store, name));
      var symbol := rt.ExpectObject(current, Some(Symbol));
      assert symbol.Done?;
      var equal := StringsEqual(rt, rt.store[symbol.value].slots[0], name);
      assert equal.Done?;
      if equal.value {
        return current, i;
      }
      current := rt.store[symbol.value].slots[2];
      i, rest := i + 1, rest[1..];
    }
    return NIL, i;
  }

  lemma LinkedState(t: State, frame: Frame, package: Word, name: Word, at: Word)
    requires package in t.store && at != package
    ensures var b := t.store[package];
      var made := Insert(Pushed(t, frame), at, SymbolBody(name, NIL, NIL));
      var linked := Write(made, at, SymbolBody(name, package, b.slots[1]));
      Write(linked, package, b.(slots := b.slots[1 := at])) == Pushed(LinkSymbol(t, package, name, at), frame)
    ensures Pushed(LinkSymbol(t, package, name, at), frame).frames[1..] == t.frames
  {
    var b := t.store[package];
    assert t.store[at := SymbolBody(name, NIL, NIL)][at := SymbolBody(name, package, b.slots[1])]
        == t.store[at := SymbolBody(name, package, b.slots[1])];
  }

  /** Make the symbol while a frame protects the package and the name. */
  method MakeSymbolUnder(rt: Runtime, package: Word, name: Word, scan: Scan, at: Word, ghost extra: set<Word>)
    returns (r: Outcome<Word>)
    requires rt.Valid() && BodiesOk(rt.store) && IsA(rt.store, name, ByteString)
    requires extra == {package, name} + ScanWords(scan)
    modifies rt
    ensures var t := Settle(old(rt.View()), extra);
      if Usable(t, at)
      then && r == Done(at) && rt.Valid()
           && rt.View() == Insert(Pushed(t, Frame(OUTER, [package, name])), at, SymbolBody(name, NIL, NIL))
      else r.Aborted?
  {
    hide Sound;
    var frame := Frame(OUTER, [package, name]);
    PushedSettle(rt.View(), frame, {name} + ScanWords(scan), extra);
    rt.Push(frame);
    assert rt.View() == Pushed(old(rt.View()), frame);
    r := MakeSymbol(rt, name, scan, at);
  }

  /** Make the symbol, then link it into its package. */
  method AddSymbol(rt: Runtime, package: Word, name: Word, scan: Scan, at: Word) returns (r: Outcome<Word>)
    requires rt.Valid() && BodiesOk(rt.store) && IsA(rt.store, package, Package) && IsA(rt.store, name, ByteString)
    modifies rt
    ensures Agrees(r, rt.View(), InternNew(old(rt.View()), package, name, {package, name} + ScanWords(scan), at))
    ensures r.Done? ==> rt.Valid()
  {
    ghost var extra := {package, name} + ScanWords(scan);
    SettleKeepsExtra(rt.View(), extra, package);
    var symbol :- MakeSymbolUnder(rt, package, name, scan, at, extra);
    LinkUnder(rt, package, symbol, Settle(old(rt.View()), extra), name);
    return Done(symbol);
  }

  method LinkUnder(rt: Runtime, package: Word, symbol: Word, ghost t: State, ghost name: Word)
    requires rt.Valid() && IsA(t.store, package, Package) && symbol !in t.store
    requires rt.View() == Insert(Pushed(t, Frame(OUTER, [package, name])), symbol, SymbolBody(name, NIL, NIL))
    modifies rt
    ensures rt.View() == LinkSymbol(t, package, name, symbol) && rt.Valid()
  {
    LinkedState(t, Frame(OUTER, [package, name]), package, name, symbol);
    Link(rt, package, symbol);
    var popped := rt.Pop(OUTER);
    assert popped.Done?;
  }

  method Link(rt: Runtime, package: Word, symbol: Word)
    requires rt.Valid() && IsA(rt.store, package, Package) && IsA(rt.store, symbol, Symbol)
    modifies rt`store
    ensures var s := old(rt.View()); var b, p := s.store[symbol], s.store[package];
      var linked := Write(s, symbol, b.(slots := [b.slots[0], package, p.slots[1]]));
      rt.View() == Write(linked, package, p.(slots := p.slots[1 := symbol]))
    ensures rt.Valid()
  {
    var b := rt.store[symbol];
    rt.WriteObject(symbol, b.(slots := [b.slots[0], package, rt.store[package].slots[1]]));
    rt.WriteObject(package, rt.store[package].(slots := rt.store[package].slots[1 := symbol]));
  }

  method Intern(rt: Runtime, package: Word, name: Word, scan: Scan, at: Word) returns (r: Outcome<Word>)
    requires rt.Valid() && GraphOk(rt.View(), {})
    modifies rt
    ensures Agrees(r, rt.View(), InternEffect(old(rt.View()), package, name, scan, at))
    ensures r.Done? ==> rt.Valid()
  {
    hide Live, Settle, VectorsOk, GrowthOk, Sound;
    var p :- rt.ExpectObject(package, Some(Package));
    var n :- rt.ExpectObject(name, Some(ByteString));
    ghost var c := ChainOf(rt.store, package);
    ChainIsNamed(rt.View(), package, rt.store[package].slots[1], c);
    ghost var i;
    var found;
    found, i := FindSymbol(rt, package, name, c);
    if found != NIL {
      return Done(found);
    }
    r := AddSymbol(rt, package, name, scan, at);
  }

  // ---------- Multiple values ----------

  method Values2(rt: Runtime, first: Word, second: Word, granted: bool) returns (r: Outcome<Word>)
    requires rt.Valid() && ValuesOk(rt.View())
    modifies rt`permanentRoots, rt`valuesArea, rt`valueCount
    ensures Agrees(r, rt.View(), Values2Effect(old(rt.View()), first, second, granted)) && rt.Valid()
  {
    if rt.valuesArea.None? {
      var _ :- rt.RegisterPermanentRoots([0, 0], granted);
      rt.valuesArea := Some(|rt.permanentRoots| - 1);
    }
    var area := rt.valuesArea.value;
    rt.permanentRoots := rt.permanentRoots[area := [first, second]];
    rt.valueCount := 2;
    assert old(rt.valuesArea).None? ==>
      rt.permanentRoots == old(rt.permanentRoots) + [[first, second]];
    return Done(first);
  }

  method NthValue(rt: Runtime, n: Word) returns (r: Word)
    requires ValuesOk(rt.View())
    ensures Agrees(Done(r), rt.View(), NthValueEffect(rt.View(), n))
  {
    if n < rt.valueCount {
      return rt.permanentRoots[rt.valuesArea.value][n];
    }
    return NIL;
  }
}
