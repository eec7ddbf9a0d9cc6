/** What was put into an object comes back out of it, at any later point of a run at which the
    object is still held (runtime/cons.c, string.c, closure.c, values.c, vector.c). */
module Readback {
  import opened Words
  import opened Heap
  import opened Machine
  import opened Operations
  import opened Invariants
  import opened Runs
  import opened Safety
  import opened Vectors
  import opened Interning

  /** What an immutable object refers to is held as long as the object is. */
  lemma {:induction false} ChildIsHeld(s: State, ops: seq<Op>, a: Word, c: Word)
    requires Inv(s) && Run(s, ops).Done? && Held(s, ops, a)
    requires IsA(s.store, a, ConsCell) || IsA(s.store, a, Closure) || IsA(s.store, a, Symbol)
    requires c in Children(s.store[a]) && c in s.store
    ensures Held(s, ops, c)
    decreases ops
  {
    ChildIsLive(s.store, RootSet(s), a, c);
    if ops != [] {
      ExecKeepsInv(s, ops[0]);
      StepKeepsImmutable(s, ops[0], a, c);
      ChildIsHeld(Exec(s, ops[0]).value.state, ops[1..], a, c);
    }
  }

  lemma StepKeepsImmutable(s: State, op: Op, a: Word, c: Word)
    requires Inv(s) && Exec(s, op).Done? && a in Rooted(s) && c in Rooted(s)
    requires IsA(s.store, a, ConsCell) || IsA(s.store, a, Closure) || IsA(s.store, a, Symbol)
    ensures SameObject(s, Exec(s, op).value.state, a) && c in Exec(s, op).value.state.store
  {
    WrittenKinds(s, op);
    RootedIsLive(s, op, a);
    RootedIsLive(s, op, c);
    StepKeepsRooted(s, op, a);
    StepKeepsRooted(s, op, c);
  }

  /** Car and cdr accept pairs, and NIL, which is its own car and cdr. */
  lemma PairReads(s: State, w: Word)
    requires Inv(s)
    ensures Exec(s, Car(w)) ==
      if w == NIL then Done(Effect(s, NIL))
      else if IsA(s.store, w, ConsCell) then Done(Effect(s, s.store[w].slots[0])) else Aborted
    ensures Exec(s, Cdr(w)) ==
      if w == NIL then Done(Effect(s, NIL))
      else if IsA(s.store, w, ConsCell) then Done(Effect(s, s.store[w].slots[1])) else Aborted
  {
    hide GraphOk, HandlesOk, PacingOk, Constructed, HeapEffect;
  }

  /** A symbol keeps its package alive. */
  lemma SymbolKeepsPackage(s: State, p: Word, es: seq<Entry>, i: nat, ops: seq<Op>)
    requires Inv(s) && Lists(s, p, es) && i < |es| && Run(s, ops).Done? && Held(s, ops, es[i].symbol)
    ensures Held(s, ops, p)
  {
    hide Run, Held, GraphOk, HandlesOk;
    var a := es[i].symbol;
    ChainMembers(s.store, p, s.store[p].slots[1], Symbols(es));
    assert Symbols(es)[i] == a;
    assert Children(s.store[a])[1] == p;
    ChildIsHeld(s, ops, a, p);
  }

  /** A pair gives back exactly what it was made of, and keeps both parts alive. */
  lemma PairReadBack(s: State, first: Word, rest: Word, at: Word, ops: seq<Op>, t: State)
    requires Inv(s) && at in s.store && s.store[at] == ConsBody(first, rest)
    requires Run(s, ops) == Done(t) && Held(s, ops, at) && Inv(t)
    ensures Exec(t, Car(at)) == Done(Effect(t, first)) && Exec(t, Cdr(at)) == Done(Effect(t, rest))
    ensures first in s.store ==> Held(s, ops, first)
    ensures rest in s.store ==> Held(s, ops, rest)
  {
    PairsAreStable(s, ops, at);
    PartIsHeld(s, first, rest, at, ops, 0);
    PartIsHeld(s, first, rest, at, ops, 1);
  }

  lemma PartIsHeld(s: State, first: Word, rest: Word, at: Word, ops: seq<Op>, i: nat)
    requires Inv(s) && at in s.store && s.store[at] == ConsBody(first, rest) && i < 2
    requires Run(s, ops).Done? && Held(s, ops, at)
    ensures s.store[at].slots[i] in s.store ==> Held(s, ops, s.store[at].slots[i])
  {
    if s.store[at].slots[i] in s.store {
      assert Children(s.store[at])[i] == s.store[at].slots[i];
      ChildIsHeld(s, ops, at, s.store[at].slots[i]);
    }
  }

  lemma ConsReadBack(s: State, first: Word, rest: Word, scan: Scan, at: Word, e: Effect, ops: seq<Op>, t: State)
    requires Inv(s) && Exec(s, MakeCons(first, rest, scan, at)) == Done(e) && Inv(e.state)
    requires Run(e.state, ops) == Done(t) && Held(e.state, ops, at) && Inv(t)
    ensures e.value == at
    ensures Exec(t, Car(at)) == Done(Effect(t, first)) && Exec(t, Cdr(at)) == Done(Effect(t, rest))
    ensures first in e.state.store ==> Held(e.state, ops, first)
    ensures rest in e.state.store ==> Held(e.state, ops, rest)
  {
    hide Inv, Held, Run;
    PairReadBack(e.state, first, rest, at, ops, t);
  }

  /** Both parts that were live before the construction are live after it. */
  lemma ConsKeepsParts(s: State, first: Word, rest: Word, scan: Scan, at: Word, w: Word)
    requires Inv(s) && Exec(s, MakeCons(first, rest, scan, at)).Done? && w in {first, rest} && w in s.store
    ensures SameObject(s, Exec(s, MakeCons(first, rest, scan, at)).value.state, w)
  {
    RootIsLive(s.store, Protected(s, MakeCons(first, rest, scan, at)), w);
    ConstructorKeepsRooted(s, MakeCons(first, rest, scan, at), w);
  }

  lemma ClosureMade(s: State, code: Word, environment: Word, scan: Scan, at: Word, e: Effect)
    requires Inv(s) && Exec(s, MakeClosure(code, environment, scan, at)) == Done(e)
    ensures code != 0 && at in e.state.store && e.state.store[at] == ClosureBody(code, environment)
  {
    hide GraphOk, HandlesOk, PacingOk, TableEffect, HeapEffect;
  }

  /** Entering needs a closure, and yields its environment with the frame pushed. */
  lemma EnterCall(s: State, closure: Word, argument: Word, id: Word)
    requires Inv(s)
    ensures Exec(s, EnterClosure(closure, argument, id)) ==
      if IsA(s.store, closure, Closure)
      then Done(Effect(s.(frames := [Frame(id, [closure, argument])] + s.frames), s.store[closure].slots[0]))
      else Aborted
  {
    hide GraphOk, HandlesOk, PacingOk, Constructed, HeapEffect;
  }

  /** A closure keeps its code and its environment. */
  lemma ClosureReadBack(s: State, code: Word, environment: Word, scan: Scan, at: Word, e: Effect,
                        ops: seq<Op>, t: State, argument: Word, id: Word)
    requires Inv(s) && Exec(s, MakeClosure(code, environment, scan, at)) == Done(e) && Inv(e.state)
    requires Run(e.state, ops) == Done(t) && Held(e.state, ops, at) && Inv(t)
    ensures at in t.store && t.store[at].code == code != 0
    ensures Exec(t, EnterClosure(at, argument, id)) == Done(Effect(Pushed(t, Frame(id, [at, argument])), environment))
    ensures environment in e.state.store ==> Held(e.state, ops, environment)
  {
    hide Inv, Exec, Run, Held;
    ClosureMade(s, code, environment, scan, at, e);
    ClosureIsStable(e.state, code, environment, at, ops);
    EnterCall(t, at, argument, id);
  }

  lemma ClosureIsStable(s: State, code: Word, environment: Word, at: Word, ops: seq<Op>)
    requires Inv(s) && at in s.store && s.store[at] == ClosureBody(code, environment)
    requires Run(s, ops).Done? && Held(s, ops, at)
    ensures SameObject(s, Run(s, ops).value, at)
    ensures environment in s.store ==> Held(s, ops, environment)
  {
    hide Run, Held;
    ImmutableObjects(s, ops, at);
    RunKeepsHeld(s, ops, at);
    if environment in s.store {
      assert Children(s.store[at])[0] == environment;
      ChildIsHeld(s, ops, at, environment);
    }
  }

  /** A string that nobody writes to keeps its bytes; exactly the indices below its length
      can be read. */
  lemma StringReadBack(s: State, bytes: seq<Byte>, scan: Scan, at: Word, e: Effect, ops: seq<Op>, t: State, i: Word)
    requires Inv(s) && Exec(s, CopyString(BytesAt(bytes), scan, at)) == Done(e) && Inv(e.state)
    requires Run(e.state, ops) == Done(t) && Held(e.state, ops, at) && NeverWritten(e.state, ops, at) && Inv(t)
    ensures Exec(t, StringByte(at, i)) == if i < |bytes| then Done(Effect(t, bytes[i])) else Aborted
    ensures IsA(t.store, at, ByteString) && BodyOk(t.store[at]) && Text(t.store, at) == bytes
  {
    hide Inv, Run, Held, NeverWritten;
    assert e.state.store[at] == StringBody(bytes);
    RunKeepsHeld(e.state, ops, at);
  }

  /** A filled string is a copied string of equal bytes. */
  lemma FilledIsCopied(s: State, length: Word, fill: Byte, scan: Scan, at: Word)
    requires Inv(s)
    ensures Exec(s, MakeString(length, fill, scan, at))
         == Exec(s, CopyString(BytesAt(Fill(length, fill)), scan, at))
  {
    assert |Fill(length, fill)| == length;
  }

  lemma ReadByte(s: State, text: Word, i: Word)
    requires Inv(s)
    ensures Exec(s, StringByte(text, i)) ==
      if IsA(s.store, text, ByteString) && i < s.store[text].length && BodyOk(s.store[text])
      then Done(Effect(s, s.store[text].bytes[i])) else Aborted
  {
    hide VectorsOk, GrowthOk, HandlesOk, PackagesOk, NamesOk, PacingOk, Constructed, HeapEffect;
  }

  lemma WriteByte(s: State, text: Word, i: Word, byte: Byte)
    requires Inv(s)
    ensures Exec(s, StringSetByte(text, i, byte)) ==
      if IsA(s.store, text, ByteString) && i < s.store[text].length && BodyOk(s.store[text])
      then Done(Effect(Write(s, text, s.store[text].(bytes := s.store[text].bytes[i := byte])), 0)) else Aborted
  {
    hide VectorsOk, GrowthOk, HandlesOk, PackagesOk, NamesOk, PacingOk, Constructed, TableEffect;
  }

  /** Writing a byte succeeds exactly where a byte can be read, and changes that byte of that
      string and nothing else. */
  lemma SetByteReadBack(s: State, text: Word, i: Word, byte: Byte, other: Word, j: Word)
    requires Inv(s)
    ensures Exec(s, StringSetByte(text, i, byte)).Done? <==> Exec(s, StringByte(text, i)).Done?
    ensures Exec(s, StringSetByte(text, i, byte)).Done? ==>
      var t := Exec(s, StringSetByte(text, i, byte)).value.state;
      && Inv(t) && Exec(t, StringByte(text, i)) == Done(Effect(t, byte))
      && (other != text || j != i ==>
           match Exec(s, StringByte(other, j))
           case Aborted => Exec(t, StringByte(other, j)).Aborted?
           case Done(f) => Exec(t, StringByte(other, j)) == Done(Effect(t, f.value)))
  {
    hide Exec, GraphOk, HandlesOk, PacingOk;
    WriteByte(s, text, i, byte);
    ReadByte(s, text, i);
    ReadByte(s, other, j);
    if Exec(s, StringSetByte(text, i, byte)).Done? {
      var t := Exec(s, StringSetByte(text, i, byte)).value.state;
      ExecKeepsInv(s, StringSetByte(text, i, byte));
      ReadByte(t, text, i);
      ReadByte(t, other, j);
    }
  }

  /** The value buffer returns the latest pair in order, and NIL beyond it or before it. */
  lemma ValuesReadBack(s: State, first: Word, second: Word, granted: bool, n: Word)
    requires Inv(s)
    ensures s.valuesArea.None? ==> Exec(s, NthValue(n)) == Done(Effect(s, NIL))
    ensures Exec(s, Values2(first, second, granted)).Done? <==> s.valuesArea.Some? || granted
    ensures Exec(s, Values2(first, second, granted)).Done? ==>
      var e := Exec(s, Values2(first, second, granted)).value;
      && e.value == first && Inv(e.state)
      && Exec(e.state, NthValue(n)) == Done(Effect(e.state, if n == 0 then first else if n == 1 then second else NIL))
  {
    ExecKeepsInv(s, Values2(first, second, granted));
  }

  /** The latest pair of values is rooted until the next one replaces it. */
  lemma ValuesAreRooted(s: State, first: Word, second: Word, granted: bool, w: Word)
    requires Inv(s) && Exec(s, Values2(first, second, granted)).Done? && w in {first, second} && w in s.store
    ensures w in Rooted(Exec(s, Values2(first, second, granted)).value.state)
  {
    var t := Exec(s, Values2(first, second, granted)).value.state;
    assert t.permanent[t.valuesArea.value] == [first, second];
    assert [first, second][0] == first && [first, second][1] == second;
    AreaWordsAt(t.permanent, t.valuesArea.value);
    RootIsLive(t.store, RootSet(t), w);
  }

  /** The objects in a rooted vector are rooted. */
  lemma ElementsAreRooted(s: State, v: Word, i: nat)
    requires v in Rooted(s) && IsA(s.store, v, ValueVector) && Backed(s.store, v)
    requires i < |Elements(s, v)| && Elements(s, v)[i] in s.store
    ensures Elements(s, v)[i] in Rooted(s)
  {
    var w := s.store[v].slots[0];
    StorageIsRooted(s, v, RootSet(s));
    assert Children(s.store[w])[i] == Elements(s, v)[i];
    ChildIsLive(s.store, RootSet(s), w, Elements(s, v)[i]);
  }
}
