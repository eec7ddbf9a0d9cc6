/** What allocating and collecting calls do, said through paths from the registered words: when
    they succeed, which objects are left, and when the next collection starts
    (runtime/gc.c, and the constructors of cons.c, string.c, symbol.c, package.c, closure.c,
    vector.c). */
module Allocation {
  import opened Words
  import opened Heap
  import opened Machine
  import opened Operations
  import opened Invariants
  import opened Runs
  import opened Safety
  import opened Collection
  import opened Interning

  // ---------- Roots ----------

  /** The client has registered this word: in a frame, for good, or through a handle. */
  ghost predicate Registered(s: State, w: Word) {
    || (exists i :: 0 <= i < |s.frames| && w in s.frames[i].words)
    || (exists i :: 0 <= i < |s.permanent| && w in s.permanent[i])
    || (exists i :: 0 <= i < |s.handles| && s.handles[i].value == w)
  }

  lemma {:induction false} FrameWordsAre(frames: seq<Frame>, w: Word)
    ensures w in FrameWords(frames) <==> exists i :: 0 <= i < |frames| && w in frames[i].words
  {
    if frames != [] {
      FrameWordsAre(frames[1..], w);
      if w in FrameWords(frames[1..]) {
        var i :| 0 <= i < |frames[1..]| && w in frames[1..][i].words;
        assert w in frames[i + 1].words;
      }
      if i :| 0 < i < |frames| && w in frames[i].words {
        assert w in frames[1..][i - 1].words;
      }
    }
  }

  lemma {:induction false} AreaWordsAre(areas: seq<seq<Word>>, w: Word)
    ensures w in AreaWords(areas) <==> exists i :: 0 <= i < |areas| && w in areas[i]
  {
    if areas != [] {
      AreaWordsAre(areas[1..], w);
      if w in AreaWords(areas[1..]) {
        var i :| 0 <= i < |areas[1..]| && w in areas[1..][i];
        assert w in areas[i + 1];
      }
      if i :| 0 < i < |areas| && w in areas[i] {
        assert w in areas[1..][i - 1];
      }
    }
  }

  lemma {:induction false} HandleWordsAre(handles: seq<Handle>, w: Word)
    ensures w in HandleWords(handles) <==> exists i :: 0 <= i < |handles| && handles[i].value == w
  {
    if handles != [] {
      HandleWordsAre(handles[1..], w);
      if w in HandleWords(handles[1..]) {
        var i :| 0 <= i < |handles[1..]| && handles[1..][i].value == w;
        assert handles[i + 1].value == w;
      }
      if i :| 0 < i < |handles| && handles[i].value == w {
        assert handles[1..][i - 1].value == w;
      }
    }
  }

  lemma RegisteredWords(s: State)
    ensures forall w :: w in RootSet(s) <==> Registered(s, w)
  {
    forall w
      ensures w in RootSet(s) <==> Registered(s, w)
    {
      FrameWordsAre(s.frames, w);
      AreaWordsAre(s.permanent, w);
      HandleWordsAre(s.handles, w);
    }
  }

  /** The roots of a call: the registered words, its arguments, and the stack if it scans it. */
  ghost predicate RootsOf(roots: set<Word>, s: State, args: set<Word>, scan: Scan) {
    forall w :: w in roots <==> Registered(s, w) || w in args || (scan.Conservative? && w in scan.stack)
  }

  lemma RootsAre(roots: set<Word>, s: State, args: set<Word>, scan: Scan)
    requires RootsOf(roots, s, args, scan)
    ensures roots == RootSet(s) + (args + ScanWords(scan))
  {
    RegisteredWords(s);
  }

  // ---------- One allocation ----------

  /** The object is still there after the collection that is due, if one is due. */
  ghost predicate Stays(s: State, roots: set<Word>, a: Word) {
    a in s.store && (|s.order| >= s.limit ==> Reachable(s.store, roots, a))
  }

  /** The address can be given to a new object. */
  ghost predicate Free(s: State, roots: set<Word>, at: Word) {
    at != 0 && at % 8 == 0 && !Stays(s, roots, at)
  }

  /** t is s with one more object at `at`, after the collection that was due. Objects outside
      `touched` keep their contents. */
  ghost predicate Added(s: State, roots: set<Word>, at: Word, touched: set<Word>, t: State) {
    var due := |s.order| >= s.limit;
    && at in t.store
    && (forall a :: a != at ==> (a in t.store <==> Stays(s, roots, a)))
    && (forall a :: a != at && a in t.store && a !in touched ==> t.store[a] == s.store[a])
    && SameTables(s, t)
    && t.history.allocations == s.history.allocations + 1
    && t.history.starts == s.history.starts + (if due then [s.history.allocations] else [])
    && t.order != [] && t.order[0] == at
    && t.limit == if !due then s.limit else if |t.order| - 1 < 128 then 256 else 2 * (|t.order| - 1)
  }

  lemma SettleStays(s: State, extra: set<Word>, a: Word)
    ensures a in Settle(s, extra).store <==> Stays(s, RootSet(s) + extra, a)
    ensures a in Settle(s, extra).store ==> Settle(s, extra).store[a] == s.store[a]
  {
  }

  lemma UsableIsFree(s: State, extra: set<Word>, at: Word)
    ensures Usable(Settle(s, extra), at) <==> Free(s, RootSet(s) + extra, at)
  {
    SettleStays(s, extra, at);
    HeapTaggedIsAligned(at);
  }

  lemma InsertAdds(s: State, extra: set<Word>, at: Word, b: Body)
    ensures Added(s, RootSet(s) + extra, at, {}, Insert(Settle(s, extra), at, b))
  {
    hide Live;
    forall a
      ensures a in Settle(s, extra).store <==> Stays(s, RootSet(s) + extra, a)
      ensures a in Settle(s, extra).store ==> Settle(s, extra).store[a] == s.store[a]
    {
      SettleStays(s, extra, a);
    }
  }

  lemma ConstructAdds(s: State, extra: set<Word>, at: Word, b: Body, roots: set<Word>)
    requires roots == RootSet(s) + extra
    ensures Construct(s, extra, at, b).Done? <==> Free(s, roots, at)
    ensures Construct(s, extra, at, b).Done? ==>
      var e := Construct(s, extra, at, b).value;
      e.value == at && Added(s, roots, at, {}, e.state) && at in e.state.store && e.state.store[at] == b
  {
    hide Free, Added;
    UsableIsFree(s, extra, at);
    InsertAdds(s, extra, at, b);
  }

  /** The call makes an object of this kind at `at`, exactly when it is possible at all and the
      address is free. */
  ghost predicate Makes(s: State, r: Outcome<Effect>, possible: bool, roots: set<Word>, at: Word, kind: Kind) {
    && (r.Done? <==> possible && Free(s, roots, at))
    && (r.Done? ==>
          && r.value.value == at && Added(s, roots, at, {}, r.value.state)
          && IsA(r.value.state.store, at, kind))
  }

  lemma ConstructorLaw(s: State, op: Op, args: set<Word>, scan: Scan, roots: set<Word>)
    requires Inv(s) && IsConstructor(op) && RootsOf(roots, s, args, scan)
    requires PlanOf(s, op).Some? ==> PlanOf(s, op).value.extra == args + ScanWords(scan)
    ensures PlanOf(s, op).None? ==> Exec(s, op).Aborted?
    ensures PlanOf(s, op).Some? ==>
      var p := PlanOf(s, op).value;
      && Makes(s, Exec(s, op), true, roots, p.at, p.body.kind)
      && (Exec(s, op).Done? ==> Exec(s, op).value.state.store[p.at] == p.body)
  {
    hide PlanOf, Free, Added, Inv, Construct;
    RootsAre(roots, s, args, scan);
    if PlanOf(s, op).Some? {
      var p := PlanOf(s, op).value;
      ConstructAdds(s, p.extra, p.at, p.body, roots);
    }
  }

  /** Making a pair needs nothing but room, and its parts survive. */
  lemma ConsLaw(s: State, first: Word, rest: Word, scan: Scan, at: Word, roots: set<Word>)
    requires Inv(s) && RootsOf(roots, s, {first, rest}, scan)
    ensures var r := Exec(s, MakeCons(first, rest, scan, at));
      && Makes(s, r, true, roots, at, ConsCell)
      && (r.Done? ==> r.value.state.store[at].slots[..2] == [first, rest])
  {
    hide Inv, Exec, Free, Added, RootsOf, RootSet;
    ConstructorLaw(s, MakeCons(first, rest, scan, at), {first, rest}, scan, roots);
  }

  /** A string of any length that fits in memory with its header of 56 bytes and its final
      zero can be made. */
  lemma StringLaw(s: State, length: Word, fill: Byte, scan: Scan, at: Word, roots: set<Word>)
    requires Inv(s) && RootsOf(roots, s, {}, scan)
    ensures var r := Exec(s, MakeString(length, fill, scan, at));
      && Makes(s, r, length + 1 + 56 <= SIZE_MAX, roots, at, ByteString)
      && (r.Done? ==>
            var b := r.value.state.store[at];
            b.length == length && |b.bytes| == length + 1 && b.bytes[length] == 0 &&
            forall i :: 0 <= i < length ==> b.bytes[i] == fill)
  {
    hide Inv, Exec, Free, Added, RootsOf, RootSet;
    assert {} + ScanWords(scan) == ScanWords(scan);
    ConstructorLaw(s, MakeString(length, fill, scan, at), {}, scan, roots);
  }

  lemma CopyLaw(s: State, source: Source, scan: Scan, at: Word, roots: set<Word>)
    requires Inv(s) && RootsOf(roots, s, {}, scan)
    ensures var r := Exec(s, CopyString(source, scan, at));
      var bytes := if source.NoBytes? then [] else source.bytes;
      && Makes(s, r, (source.NoBytes? ==> source.length == 0) && |bytes| + 1 + 56 <= SIZE_MAX, roots, at, ByteString)
      && (r.Done? ==>
            var b := r.value.state.store[at];
            b.length == |bytes| && b.bytes == bytes + [0])
  {
    hide Inv, Exec, Free, Added, RootsOf, RootSet;
    assert {} + ScanWords(scan) == ScanWords(scan);
    ConstructorLaw(s, CopyString(source, scan, at), {}, scan, roots);
  }

  /** Symbols and packages are named by strings, which survive. */
  lemma SymbolLaw(s: State, name: Word, scan: Scan, at: Word, roots: set<Word>)
    requires Inv(s) && RootsOf(roots, s, {name}, scan)
    ensures var r := Exec(s, MakeSymbol(name, scan, at));
      && Makes(s, r, IsA(s.store, name, ByteString), roots, at, Symbol)
      && (r.Done? ==> r.value.state.store[at].slots == [name, NIL, NIL])
  {
    hide Inv, Exec, Free, Added, RootsOf, RootSet;
    ConstructorLaw(s, MakeSymbol(name, scan, at), {name}, scan, roots);
  }

  lemma PackageLaw(s: State, name: Word, scan: Scan, at: Word, roots: set<Word>)
    requires Inv(s) && RootsOf(roots, s, {name}, scan)
    ensures var r := Exec(s, MakePackage(name, scan, at));
      && Makes(s, r, IsA(s.store, name, ByteString), roots, at, Package)
      && (r.Done? ==> r.value.state.store[at].slots[..2] == [name, NIL])
  {
    hide Inv, Exec, Free, Added, RootsOf, RootSet;
    ConstructorLaw(s, MakePackage(name, scan, at), {name}, scan, roots);
  }

  /** A closure needs code, and its environment survives. */
  lemma ClosureLaw(s: State, code: Word, environment: Word, scan: Scan, at: Word, roots: set<Word>)
    requires Inv(s) && RootsOf(roots, s, {environment}, scan)
    ensures var r := Exec(s, MakeClosure(code, environment, scan, at));
      && Makes(s, r, code != 0, roots, at, Closure)
      && (r.Done? ==> r.value.state.store[at].slots[0] == environment && r.value.state.store[at].code == code)
  {
    hide Inv, Exec, Free, Added, RootsOf, RootSet;
    ConstructorLaw(s, MakeClosure(code, environment, scan, at), {environment}, scan, roots);
  }

  /** What a call starts from survives it: registered words, arguments, scanned words. */
  lemma RootsSurvive(s: State, roots: set<Word>, at: Word, touched: set<Word>, t: State, w: Word)
    requires Added(s, roots, at, touched, t) && Free(s, roots, at) && w in roots && w in s.store
    ensures w in t.store && (w !in touched ==> SameObject(s, t, w))
  {
    RootIsLive(s.store, roots, w);
  }

  /** How a call scans the stack. The vector calls never do. */
  function ScanOf(op: Op): Scan {
    match op
    case CollectNow(scan, _) => scan
    case MakeCons(_, _, scan, _) => scan
    case MakeString(_, _, scan, _) => scan
    case CopyString(_, scan, _) => scan
    case MakeSymbol(_, scan, _) => scan
    case MakePackage(_, scan, _) => scan
    case Intern(_, _, scan, _) => scan
    case MakeClosure(_, _, scan, _) => scan
    case _ => Precise
  }

  /** Each call of the run that may collect finds w on the stack. */
  predicate OnEveryStack(ops: seq<Op>, w: Word) {
    forall i :: 0 <= i < |ops| && MayCollect(ops[i]) ==>
      ScanOf(ops[i]).Conservative? && w in ScanOf(ops[i]).stack
  }

  /** A client that keeps an object on its stack only, and uses the scanning entries, keeps the
      object over any run. */
  lemma {:induction false} StackHolds(s: State, ops: seq<Op>, w: Word)
    requires Inv(s) && Run(s, ops).Done? && w in s.store && OnEveryStack(ops, w)
    ensures var t := Run(s, ops).value;
      && w in t.store && t.store[w].kind == s.store[w].kind
      && (NeverWritten(s, ops, w) ==> SameObject(s, t, w))
  {
    hide Run, NeverWritten, Inv;
    StackIsReached(s, ops, w);
    RunKeepsReached(s, ops, w);
  }

  lemma {:induction false} StackIsReached(s: State, ops: seq<Op>, w: Word)
    requires Inv(s) && Run(s, ops).Done? && w in s.store && OnEveryStack(ops, w)
    ensures Reached(s, ops, w)
    decreases ops
  {
    hide Inv, Exec, MayCollect, Live, RootSet;
    if ops != [] {
      if MayCollect(ops[0]) {
        assert w in Protected(s, ops[0]);
        RootIsLive(s.store, Protected(s, ops[0]), w);
      }
      ExecKeepsInv(s, ops[0]);
      StepKeepsReached(s, ops[0], w);
      StackIsReached(Exec(s, ops[0]).value.state, ops[1..], w);
    }
  }

  // ---------- Interning ----------

  lemma LinkAdds(s: State, extra: set<Word>, p: Word, name: Word, at: Word, roots: set<Word>)
    requires roots == RootSet(s) + extra && p in extra && p in s.store
    ensures InternNew(s, p, name, extra, at).Done? <==> Free(s, roots, at)
    ensures InternNew(s, p, name, extra, at).Done? ==>
      var e := InternNew(s, p, name, extra, at).value; var t := e.state;
      && e.value == at && at != p && Added(s, roots, at, {p}, t) && p in t.store && at in t.store
      && t.store[at] == SymbolBody(name, p, s.store[p].slots[1])
      && t.store[p] == s.store[p].(slots := s.store[p].slots[1 := at])
      && t.store[p].slots[..2] == [s.store[p].slots[0], at]
  {
    hide Live, Stays, RootSet;
    assert s.store[p].slots[1 := at][..2] == [s.store[p].slots[0], at];
    SettleKeepsExtra(s, extra, p);
    UsableIsFree(s, extra, at);
    InsertAdds(s, extra, at, SymbolBody(name, p, s.store[p].slots[1]));
    SettleStays(s, extra, p);
    SettleStays(s, extra, at);
  }

  /** A name that is present is found without room for anything; a new one needs room for one
      object, and is linked in front of the symbols of its package. */
  lemma InternLaw(s: State, p: Word, name: Word, scan: Scan, at: Word, roots: set<Word>, es: seq<Entry>)
    requires Inv(s) && Lists(s, p, es) && RootsOf(roots, s, {p, name}, scan)
    ensures var r := Exec(s, Intern(p, name, scan, at));
      if !IsA(s.store, name, ByteString) then r.Aborted?
      else
        BodyOk(s.store[name]) &&
        if exists i :: 0 <= i < |es| && es[i].name == Text(s.store, name)
        then r.Done? && r.value.state == s
        else
          && (r.Done? <==> Free(s, roots, at))
          && (r.Done? ==>
                var t := r.value.state;
                && r.value.value == at && Added(s, roots, at, {p}, t)
                && IsA(t.store, at, Symbol) && t.store[at].slots == [name, p, s.store[p].slots[1]]
                && IsA(t.store, p, Package) && t.store[p].slots[..2] == [s.store[p].slots[0], at])
  {
    hide GraphOk, HandlesOk, PacingOk, Exec, Free, Added, RootsOf, Lists, InternEffect, InternNew;
    if !IsA(s.store, name, ByteString) {
      NotInterned(s, p, name, scan, at);
    } else {
      NameOk(s, name);
      var i := FirstNamed(es, Text(s.store, name));
      if i < |es| {
        FindsAt(s, p, es, name, scan, at);
      } else {
        NewNameLaw(s, p, name, scan, at, roots, es);
      }
    }
  }

  lemma NameOk(s: State, name: Word)
    requires Inv(s) && IsA(s.store, name, ByteString)
    ensures BodyOk(s.store[name])
  {
  }

  lemma NewNameLaw(s: State, p: Word, name: Word, scan: Scan, at: Word, roots: set<Word>, es: seq<Entry>)
    requires Inv(s) && Lists(s, p, es) && RootsOf(roots, s, {p, name}, scan)
    requires IsA(s.store, name, ByteString) && BodyOk(s.store[name]) && FirstNamed(es, Text(s.store, name)) == |es|
    ensures var r := Exec(s, Intern(p, name, scan, at));
      && (r.Done? <==> Free(s, roots, at))
      && (r.Done? ==>
            var t := r.value.state;
            && r.value.value == at && Added(s, roots, at, {p}, t)
            && IsA(t.store, at, Symbol) && t.store[at].slots == [name, p, s.store[p].slots[1]]
            && IsA(t.store, p, Package) && t.store[p].slots[..2] == [s.store[p].slots[0], at])
  {
    hide GraphOk, HandlesOk, PacingOk, Exec, InternEffect, InternNew, Free, Added, Lists, RootsOf, FirstNamed, RootSet;
    var extra := {p, name} + ScanWords(scan);
    ExecIntern(s, p, name, scan, at);
    RootsAre(roots, s, {p, name}, scan);
    ListedIsPackage(s, p, es);
    InternLooksUp(s, p, es, name, scan, at);
    LinkAdds(s, extra, p, name, at, roots);
  }

  /** Interning needs a package and a string. */
  lemma NotInterned(s: State, p: Word, name: Word, scan: Scan, at: Word)
    requires Inv(s) && !(IsA(s.store, p, Package) && IsA(s.store, name, ByteString))
    ensures Exec(s, Intern(p, name, scan, at)).Aborted?
  {
    hide VectorsOk, GrowthOk, HandlesOk, PackagesOk, NamesOk, InternNew;
  }

  // ---------- Vectors ----------

  /** A vector takes two allocations: m is the state after the first, which leaves a header
      without storage. Each may start a collection, and the header and the initial value
      survive the second. */
  lemma VectorLaw(s: State, length: Word, initial: Word, at: Word, storageAt: Word, roots: set<Word>, more: set<Word>)
    returns (m: State)
    requires Inv(s) && RootsOf(roots, s, {NIL, initial}, Precise) && RootsOf(more, s, {at, initial}, Precise)
    ensures Free(s, roots, at) ==>
      Added(s, roots, at, {}, m) && IsA(m.store, at, ValueVector) && m.store[at].length == length
    ensures var r := Exec(s, MakeVector(length, initial, at, storageAt));
      && (r.Done? <==> Free(s, roots, at) && 8 * length + 56 <= SIZE_MAX && Free(m, more, storageAt))
      && (r.Done? ==>
            var t := r.value.state;
            && r.value.value == at && Added(m, more, storageAt, {at}, t) && storageAt != at
            && IsA(t.store, at, ValueVector) && t.store[at].length == length && t.store[at].slots[0] == storageAt
            && IsA(t.store, storageAt, VectorStorage) && t.store[storageAt].items == Fill(length, initial)
            && at in t.history.copied && t.history.copied[at] == 0)
  {
    hide Live, Stays, RootSet, GraphOk, HandlesOk, PacingOk;
    RootsAre(roots, s, {NIL, initial}, Precise);
    RootsAre(more, s, {at, initial}, Precise);
    assert {NIL, initial} + ScanWords(Precise) == {NIL, initial};
    assert {at, initial} + ScanWords(Precise) == {at, initial};
    var b := VectorBody(length, 0);
    m := Insert(Settle(s, {NIL, initial}), at, b);
    UsableIsFree(s, {NIL, initial}, at);
    InsertAdds(s, {NIL, initial}, at, b);
    assert RootSet(m) == RootSet(s) by { SameRoots(s, m); }
    SettleKeepsExtra(m, {at, initial}, at);
    BackingAdds(m, at, length, initial, storageAt, more);
  }

  lemma SameRoots(s: State, t: State)
    requires SameTables(s, t)
    ensures RootSet(s) == RootSet(t)
  {
  }

  lemma BackingAdds(m: State, at: Word, length: Word, initial: Word, storageAt: Word, more: set<Word>)
    requires more == RootSet(m) + {at, initial} && at in m.store && m.store[at] == VectorBody(length, 0)
    ensures var u := Settle(m, {at, initial}); Usable(u, storageAt) <==> Free(m, more, storageAt)
    ensures var u := Settle(m, {at, initial});
      Usable(u, storageAt) && length <= CAPACITY_MAX ==>
        && at != storageAt && Added(m, more, storageAt, {at}, BackVector(u, at, length, initial, storageAt))
  {
    hide Live, Stays, RootSet;
    SettleKeepsExtra(m, {at, initial}, at);
    UsableIsFree(m, {at, initial}, storageAt);
    SettleStays(m, {at, initial}, storageAt);
    if length <= CAPACITY_MAX {
      InsertAdds(m, {at, initial}, storageAt, StorageBody(Fill(length, initial)));
    }
  }

  /** The elements a vector has room for. */
  function Capacity(s: State, v: Word): nat
    requires v in s.store && s.store[v].slots[0] in s.store
  {
    |s.store[s.store[v].slots[0]].items|
  }

  /** The capacity of a full vector after the next push. */
  function Doubled(capacity: nat): nat {
    if capacity == 0 then 4 else 2 * capacity
  }

  /** A push into a spare place needs nothing. A full vector moves to storage of twice the size,
      which takes one allocation and copies every element once. */
  lemma PushLaw(s: State, v: Word, item: Word, at: Word, roots: set<Word>)
    requires Inv(s) && IsA(s.store, v, ValueVector) && RootsOf(roots, s, {v, item}, Precise)
    ensures s.store[v].slots[0] in s.store && v in s.history.copied
    ensures var r := Exec(s, VectorPush(v, item, at)); var length := s.store[v].length;
      if length < Capacity(s, v)
      then
        && r.Done? && v in r.value.state.store
        && r.value.state.store[v].slots == s.store[v].slots && r.value.state.history == s.history
      else
        && (r.Done? <==> 8 * Doubled(length) + 56 <= SIZE_MAX && Free(s, roots, at))
        && (r.Done? ==>
              var t := r.value.state;
              && Added(s, roots, at, {v}, t) && v in t.store && t.store[v].slots[0] == at
              && |t.store[at].items| == Doubled(length)
              && v in t.history.copied && t.history.copied[v] == s.history.copied[v] + length)
  {
    hide NamesOk, PackagesOk, HandlesOk, PacingOk, Live, RootSet, PushGrown, PushInPlace, Free, Added, RootsOf;
    assert Backed(s.store, v) && GrowthPaid(s, v);
    RootsAre(roots, s, {v, item}, Precise);
    assert {v, item} + ScanWords(Precise) == {v, item};
    if s.store[v].length < Capacity(s, v) {
      SpareLaw(s, v, item);
    } else if Full(s, v) {
      GrownLaw(s, v, item, at, roots);
    }
  }

  lemma SpareLaw(s: State, v: Word, item: Word)
    requires v in s.store && s.store[v].slots[0] in s.store
    requires s.store[v].length < |s.store[s.store[v].slots[0]].items| && s.store[v].length < SIZE_MAX
    ensures var t := PushInPlace(s, v, item);
      v in t.store && t.store[v].slots == s.store[v].slots && t.history == s.history
  {
  }

  lemma GrownLaw(s: State, v: Word, item: Word, at: Word, roots: set<Word>)
    requires Full(s, v) && roots == RootSet(s) + {v, item}
    ensures PushGrown(s, v, item, at).Done? <==> Free(s, roots, at)
    ensures PushGrown(s, v, item, at).Done? ==>
      var t := PushGrown(s, v, item, at).value.state; var length := s.store[v].length;
      && Added(s, roots, at, {v}, t) && v in t.store && t.store[v].slots[0] == at
      && |t.store[at].items| == Doubled(length)
      && v in t.history.copied && t.history.copied[v] == s.history.copied[v] + length
  {
    hide Live, Stays, RootSet;
    VectorSettles(s, {v, item}, v);
    UsableIsFree(s, {v, item}, at);
    SettleStays(s, {v, item}, at);
    InsertAdds(s, {v, item}, at, StorageBody(GrownItems(s.store[s.store[v].slots[0]].items, item)));
  }

  /** The operations on vectors accept nothing else. */
  lemma NotVector(s: State, v: Word, position: Word, item: Word, at: Word)
    requires Inv(s) && !IsA(s.store, v, ValueVector)
    ensures Exec(s, VectorLength(v)).Aborted? && Exec(s, VectorRef(v, position)).Aborted?
    ensures Exec(s, VectorSet(v, position, item)).Aborted? && Exec(s, VectorPush(v, item, at)).Aborted?
  {
    hide NamesOk, PackagesOk, HandlesOk, PacingOk, Constructed;
  }

  // ---------- Collection on demand ----------

  /** A collection that a client asks for needs room for the worklist only. An object stays if
      and only if a path from the registered words, or from the scanned stack, reaches it. */
  lemma CollectLaw(s: State, scan: Scan, granted: bool, roots: set<Word>)
    requires Inv(s) && RootsOf(roots, s, {}, scan)
    ensures var r := Exec(s, CollectNow(scan, granted));
      && (r.Done? <==> granted)
      && (r.Done? ==>
            var t := r.value.state;
            && (forall a :: a in t.store <==> a in s.store && Reachable(s.store, roots, a))
            && (forall a :: a in t.store ==> t.store[a] == s.store[a])
            && SameTables(s, t) && t.history == s.history
            && |t.order| == |t.store.Keys|
            && t.limit == if |t.store.Keys| < 128 then 256 else 2 * |t.store.Keys|)
  {
    hide GraphOk, HandlesOk, PacingOk, RootSet, RootsOf, Constructed, TableEffect, Collect;
    RootsAre(roots, s, {}, scan);
    assert {} + ScanWords(scan) == ScanWords(scan);
    CollectState(s, ScanWords(scan));
  }

  lemma CollectState(s: State, extra: set<Word>)
    requires Inv(s)
    ensures var t := Collect(s, extra);
      && (forall a :: a in t.store <==> a in s.store && Reachable(s.store, RootSet(s) + extra, a))
      && (forall a :: a in t.store ==> t.store[a] == s.store[a])
      && SameTables(s, t) && t.history == s.history
      && |t.order| == |t.store.Keys|
      && t.limit == if |t.store.Keys| < 128 then 256 else 2 * |t.store.Keys|
  {
    hide NamesOk, PackagesOk, VectorsOk, GrowthOk, HandlesOk, PacingOk, RootSet, Reachable;
    var t := Collect(s, extra);
    CollectKeepsHeap(s, extra);
    DistinctCount(t.order);
  }

  /** The survivors keep their relative order in the object list. */
  lemma CollectOrder(s: State, scan: Scan, i: nat, j: nat) returns (i': nat, j': nat)
    requires Inv(s) && Exec(s, CollectNow(scan, true)).Done?
    requires i < j < |Exec(s, CollectNow(scan, true)).value.state.order|
    ensures i' < j' < |s.order|
    ensures var order := Exec(s, CollectNow(scan, true)).value.state.order;
      s.order[i'] == order[i] && s.order[j'] == order[j]
  {
    hide GraphOk, HandlesOk, PacingOk;
    i', j' := SurvivorsKeepOrder(s, ScanWords(scan), i, j);
  }

  // ---------- When the next collection starts ----------

  /** Until an automatic collection starts, the heap grows by what is allocated; it starts when
      the heap has grown to the limit. */
  predicate Scheduled(s: State, t: State) {
    var n := |s.history.starts|;
    && |t.history.starts| >= n && t.history.starts[..n] == s.history.starts
    && if |t.history.starts| == n
       then t.limit == s.limit &&
            |t.order| - |s.order| == t.history.allocations - s.history.allocations && |t.order| <= t.limit
       else t.history.starts[n] == s.history.allocations + s.limit - |s.order|
  }

  lemma ScheduledComposes(s: State, t: State, u: State)
    requires Scheduled(s, t) && Scheduled(t, u)
    ensures Scheduled(s, u)
  {
    assert t.history.starts == u.history.starts[..|t.history.starts|];
  }

  lemma AllocationScheduled(s: State, extra: set<Word>, at: Word, b: Body)
    requires |s.order| <= s.limit
    ensures Scheduled(s, Insert(Settle(s, extra), at, b))
    ensures |Settle(s, extra).order| < Settle(s, extra).limit
  {
  }

  lemma HeapCallScheduled(s: State, op: Op)
    requires Inv(s) && !LeavesHeap(op) && !IsConstructor(op) && !op.CollectNow? && HeapEffect(s, op).Done?
    ensures Scheduled(s, HeapEffect(s, op).value.state)
  {
    hide HeapOk, NamesOk, PackagesOk, VectorsOk, GrowthOk, HandlesOk, InternEffect, MakeVectorEffect, VectorPushEffect;
    if op.Intern? {
      InternScheduled(s, op.package, op.name, op.scan, op.at);
    } else if op.MakeVector? {
      VectorScheduled(s, op.length, op.initial, op.at, op.storageAt);
    } else if op.VectorPush? {
      PushScheduled(s, op.vector, op.item, op.at);
    }
  }

  lemma InternScheduled(s: State, package: Word, name: Word, scan: Scan, at: Word)
    requires GraphOk(s, {}) && |s.order| <= s.limit && InternEffect(s, package, name, scan, at).Done?
    ensures Scheduled(s, InternEffect(s, package, name, scan, at).value.state)
  {
    hide NamesOk, PackagesOk, VectorsOk, GrowthOk, Live, RootSet, Lookup;
    AllocationScheduled(s, {package, name} + ScanWords(scan), at, SymbolBody(name, package, 0));
  }

  lemma VectorScheduled(s: State, length: Word, initial: Word, at: Word, storageAt: Word)
    requires |s.order| <= s.limit && MakeVectorEffect(s, length, initial, at, storageAt).Done?
    ensures Scheduled(s, MakeVectorEffect(s, length, initial, at, storageAt).value.state)
  {
    hide Live, RootSet;
    AllocationScheduled(s, {NIL, initial}, at, VectorBody(length, 0));
    var m := Insert(Settle(s, {NIL, initial}), at, VectorBody(length, 0));
    AllocationScheduled(m, {at, initial}, storageAt, StorageBody(Fill(length, initial)));
    ScheduledComposes(s, m, Insert(Settle(m, {at, initial}), storageAt, StorageBody(Fill(length, initial))));
  }

  lemma PushScheduled(s: State, vector: Word, item: Word, at: Word)
    requires VectorsOk(s.store, {}) && GrowthOk(s, {}) && |s.order| <= s.limit
    requires VectorPushEffect(s, vector, item, at).Done?
    ensures Scheduled(s, VectorPushEffect(s, vector, item, at).value.state)
  {
    hide Live, RootSet;
    AllocationScheduled(s, {vector, item}, at, StorageBody([]));
  }

  lemma StepScheduled(s: State, op: Op)
    requires Inv(s) && !op.CollectNow? && Exec(s, op).Done?
    ensures Scheduled(s, Exec(s, op).value.state)
  {
    hide GraphOk, HandlesOk, Live, RootSet;
    if IsConstructor(op) {
      var p := PlanOf(s, op).value;
      AllocationScheduled(s, p.extra, p.at, p.body);
    } else if LeavesHeap(op) {
      HeapLeftAlone(s, op);
    } else {
      HeapCallScheduled(s, op);
    }
  }

  lemma {:induction false} RunScheduled(s: State, ops: seq<Op>)
    requires Inv(s) && Run(s, ops).Done? && forall i :: 0 <= i < |ops| ==> !ops[i].CollectNow?
    ensures Scheduled(s, Run(s, ops).value)
    decreases ops
  {
    hide GraphOk, HandlesOk, Exec;
    if ops != [] {
      var t := Exec(s, ops[0]).value.state;
      ExecKeepsInv(s, ops[0]);
      StepScheduled(s, ops[0]);
      RunScheduled(t, ops[1..]);
      ScheduledComposes(s, t, Run(t, ops[1..]).value);
    }
  }

  /** After a collection that leaves n objects, the next automatic collection starts exactly
      when the heap has doubled, or has 256 objects when n is below 128. */
  lemma NextCollection(s: State, scan: Scan, t: State, ops: seq<Op>)
    requires Inv(s) && Exec(s, CollectNow(scan, true)) == Done(Effect(t, 0)) && Inv(t)
    requires Run(t, ops).Done? && forall i :: 0 <= i < |ops| ==> !ops[i].CollectNow?
    ensures var u := Run(t, ops).value; var n := |t.order|; var room := if n < 128 then 256 - n else n;
      if |u.history.starts| > |t.history.starts|
      then u.history.starts[|t.history.starts|] == t.history.allocations + room
      else u.history.allocations <= t.history.allocations + room
  {
    hide GraphOk, HandlesOk, Run;
    RunScheduled(t, ops);
  }

  /** From program start, the first automatic collection starts after exactly 256 allocations
      unless the client asks for one before. */
  lemma FirstCollection(ops: seq<Op>)
    requires forall i :: 0 <= i < |ops| ==> !ops[i].CollectNow?
    ensures Inv(INITIAL)
    ensures Run(INITIAL, ops).Done? ==>
      var u := Run(INITIAL, ops).value;
      if |u.history.starts| > 0 then u.history.starts[0] == 256 else u.history.allocations <= 256
  {
    InitialInv();
    if Run(INITIAL, ops).Done? {
      RunScheduled(INITIAL, ops);
    }
  }
}
