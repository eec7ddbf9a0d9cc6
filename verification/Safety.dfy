/** Nothing that is rooted is freed, moved or changed behind the client's back, and clients
    that pass live words never find a dangling one. */
module Safety {
  import opened Words
  import opened Heap
  import opened Machine
  import opened Operations
  import opened Invariants
  import opened Runs

  // ---------- Survival ----------

  /** The arguments a call keeps alive by itself while it allocates. */
  function Args(op: Op): set<Word> {
    match op
    case MakeCons(first, rest, _, _) => {first, rest}
    case MakeSymbol(name, _, _) => {name}
    case MakePackage(name, _, _) => {name}
    case Intern(package, name, _, _) => {package, name}
    case MakeClosure(_, environment, _, _) => {environment}
    case MakeVector(_, initial, _, _) => {initial}
    case VectorPush(vector, item, _) => {vector, item}
    case _ => {}
  }

  /** The words on the stack of a call that scans it for roots. */
  function Scanned(op: Op): set<Word> {
    match op
    case CollectNow(scan, _) => ScanWords(scan)
    case MakeCons(_, _, scan, _) => ScanWords(scan)
    case MakeString(_, _, scan, _) => ScanWords(scan)
    case CopyString(_, scan, _) => ScanWords(scan)
    case MakeSymbol(_, scan, _) => ScanWords(scan)
    case MakePackage(_, scan, _) => ScanWords(scan)
    case Intern(_, _, scan, _) => ScanWords(scan)
    case MakeClosure(_, _, scan, _) => ScanWords(scan)
    case _ => {}
  }

  /** The words that a collection in the middle of the call starts from. */
  ghost function Protected(s: State, op: Op): set<Word> {
    RootSet(s) + (Args(op) + Scanned(op))
  }

  predicate MayCollect(op: Op) {
    IsConstructor(op) || op.CollectNow? || op.Intern? || op.MakeVector? || op.VectorPush?
  }

  /** The objects a call is meant to change. */
  function Written(s: State, op: Op): set<Word> {
    match op
    case StringSetByte(text, _, _) => {text}
    case Intern(package, _, _, _) => {package}
    case VectorSet(vector, _, _) => if vector in s.store then {s.store[vector].slots[0]} else {}
    case VectorPush(vector, _, _) => if vector in s.store then {vector, s.store[vector].slots[0]} else {}
    case _ => {}
  }

  predicate SameObject(s: State, t: State, a: Word) {
    a in s.store && a in t.store && t.store[a] == s.store[a]
  }

  predicate SurvivesBut(s: State, t: State, written: set<Word>, a: Word) {
    && a in s.store && a in t.store && t.store[a].kind == s.store[a].kind
    && (a !in written ==> SameObject(s, t, a))
  }

  predicate Survives(s: State, op: Op, t: State, a: Word) {
    SurvivesBut(s, t, Written(s, op), a)
  }

  lemma SettleKeepsLive(s: State, extra: set<Word>, roots: set<Word>, a: Word)
    requires roots <= RootSet(s) + extra && a in Live(s.store, roots)
    ensures SameObject(s, Settle(s, extra), a) && a in Live(Settle(s, extra).store, roots)
  {
    var all := RootSet(s) + extra;
    LiveMonotone(s.store, roots, all);
    LiveIsClosed(s.store, all);
    LiveAfterRestrict(s.store, roots, Live(s.store, all));
  }

  lemma {:induction false} TrailAfterInsert(store: Store, roots: set<Word>, at: Word, b: Body, p: seq<Word>)
    requires at !in store && Trail(store, roots, p)
    ensures Trail(store[at := b], roots, p)
    decreases |p|
  {
    if |p| > 1 {
      TrailAfterInsert(store, roots, at, b, p[..|p| - 1]);
    }
  }

  lemma InsertKeepsLive(store: Store, roots: set<Word>, at: Word, b: Body, a: Word)
    requires at !in store && a in Live(store, roots)
    ensures a in Live(store[at := b], roots)
  {
    var p :| Trail(store, roots, p) && p[|p| - 1] == a;
    TrailAfterInsert(store, roots, at, b, p);
  }

  lemma MakeVectorKeepsRooted(s: State, length: Word, initial: Word, at: Word, storageAt: Word, a: Word)
    requires a in Live(s.store, RootSet(s) + {initial})
    requires MakeVectorEffect(s, length, initial, at, storageAt).Done?
    ensures SurvivesBut(s, MakeVectorEffect(s, length, initial, at, storageAt).value.state, {}, a)
  {
    var roots := RootSet(s) + {initial};
    SettleKeepsLive(s, {NIL, initial}, roots, a);
    var t0 := Settle(s, {NIL, initial});
    var t := Insert(t0, at, VectorBody(length, 0));
    InsertKeepsLive(t0.store, roots, at, VectorBody(length, 0), a);
    SettleKeepsLive(t, {at, initial}, roots, a);
  }

  lemma ConstructorKeepsRooted(s: State, op: Op, a: Word)
    requires IsConstructor(op) && Constructed(s, op).Done?
    requires a in Live(s.store, Protected(s, op))
    ensures SameObject(s, Constructed(s, op).value.state, a)
  {
    SettleKeepsLive(s, PlanOf(s, op).value.extra, Protected(s, op), a);
  }

  lemma InternKeepsRooted(s: State, package: Word, name: Word, scan: Scan, at: Word, a: Word)
    requires GraphOk(s, {}) && InternEffect(s, package, name, scan, at).Done?
    requires a in Live(s.store, RootSet(s) + ({package, name} + ScanWords(scan)))
    ensures SurvivesBut(s, InternEffect(s, package, name, scan, at).value.state, {package}, a)
  {
    hide PackagesOk, VectorsOk, NamesOk, GrowthOk, Live, RootSet;
    var extra := {package, name} + ScanWords(scan);
    SettleKeepsLive(s, extra, RootSet(s) + extra, a);
  }

  lemma PushKeepsRooted(s: State, v: Word, item: Word, at: Word, a: Word)
    requires VectorsOk(s.store, {}) && GrowthOk(s, {}) && VectorPushEffect(s, v, item, at).Done?
    requires a in Live(s.store, RootSet(s) + {v, item})
    ensures v in s.store
    ensures SurvivesBut(s, VectorPushEffect(s, v, item, at).value.state, {v, s.store[v].slots[0]}, a)
  {
    SettleKeepsLive(s, {v, item}, RootSet(s) + {v, item}, a);
  }

  lemma CollectKeepsRooted(s: State, extra: set<Word>, a: Word)
    requires a in Live(s.store, RootSet(s) + extra)
    ensures SameObject(s, Collect(s, extra), a)
  {
  }

  lemma StringSetKeepsRest(s: State, text: Word, position: Word, byte: Byte, a: Word)
    requires HeapOk(s) && StringSetByteEffect(s, text, position, byte).Done? && a in s.store
    ensures SurvivesBut(s, StringSetByteEffect(s, text, position, byte).value.state, {text}, a)
  {
  }

  lemma VectorSetKeepsRest(s: State, v: Word, position: Word, item: Word, a: Word)
    requires VectorsOk(s.store, {}) && VectorSetEffect(s, v, position, item).Done? && a in s.store
    ensures v in s.store
    ensures SurvivesBut(s, VectorSetEffect(s, v, position, item).value.state, {s.store[v].slots[0]}, a)
  {
    assert Backed(s.store, v);
  }

  lemma HeapCallsKeepRooted(s: State, op: Op, a: Word)
    requires Inv(s) && !LeavesHeap(op) && !IsConstructor(op) && HeapEffect(s, op).Done?
    requires a in s.store && (MayCollect(op) ==> a in Live(s.store, Protected(s, op)))
    ensures Survives(s, op, HeapEffect(s, op).value.state, a)
  {
    hide InternEffect, VectorPushEffect, MakeVectorEffect;
    hide PackagesOk, VectorsOk, NamesOk, GrowthOk, HandlesOk, PacingOk;
    hide RootSet, Live;
    assert Args(op) == {} ==> Args(op) + Scanned(op) == Scanned(op);
    assert Scanned(op) == {} ==> Args(op) + Scanned(op) == Args(op);
    match op
    case CollectNow(scan, granted) => CollectKeepsRooted(s, ScanWords(scan), a);
    case StringSetByte(text, position, byte) => StringSetKeepsRest(s, text, position, byte, a);
    case Intern(package, name, scan, at) => InternKeepsRooted(s, package, name, scan, at, a);
    case MakeVector(length, initial, at, storageAt) => MakeVectorKeepsRooted(s, length, initial, at, storageAt, a);
    case VectorSet(vector, position, item) => VectorSetKeepsRest(s, vector, position, item, a);
    case VectorPush(vector, item, at) => PushKeepsRooted(s, vector, item, at, a);
  }

  /** One call: whatever the registered roots, the call's own arguments or the words on a
      scanned stack reach survives, is the same object, and has the same contents unless the
      call is meant to change it. */
  lemma StepKeepsRooted(s: State, op: Op, a: Word)
    requires Inv(s) && Exec(s, op).Done? && a in Live(s.store, Protected(s, op))
    ensures Survives(s, op, Exec(s, op).value.state, a)
  {
    StepKeepsReached(s, op, a);
  }

  /** Calls that cannot collect keep every object. */
  lemma StepKeepsReached(s: State, op: Op, a: Word)
    requires Inv(s) && Exec(s, op).Done?
    requires a in s.store && (MayCollect(op) ==> a in Live(s.store, Protected(s, op)))
    ensures Survives(s, op, Exec(s, op).value.state, a)
  {
    hide InternEffect, VectorPushEffect, MakeVectorEffect, RootSet, Live, GraphOk, HandlesOk, PacingOk;
    if IsConstructor(op) {
      ConstructorKeepsRooted(s, op, a);
    } else if LeavesHeap(op) {
      HeapLeftAlone(s, op);
    } else {
      HeapCallsKeepRooted(s, op, a);
    }
  }

  lemma RootedIsLive(s: State, op: Op, a: Word)
    requires a in Rooted(s)
    ensures a in Live(s.store, Protected(s, op))
  {
    LiveMonotone(s.store, RootSet(s), Protected(s, op));
  }

  /** Before every call of the run that may collect, a is reachable from the registered roots,
      from the call's arguments, or from the stack that the call scans. */
  ghost predicate Reached(s: State, ops: seq<Op>, a: Word)
    requires Inv(s)
    decreases ops
  {
    ops != [] ==>
      && (MayCollect(ops[0]) ==> a in Live(s.store, Protected(s, ops[0])))
      && (Exec(s, ops[0]).Done? ==>
            (ExecKeepsInv(s, ops[0]); Reached(Exec(s, ops[0]).value.state, ops[1..], a)))
  }

  /** a is reachable from the registered roots before every call of the run and at its end. */
  ghost predicate Held(s: State, ops: seq<Op>, a: Word)
    requires Inv(s)
    decreases ops
  {
    && a in Rooted(s)
    && (ops != [] && Exec(s, ops[0]).Done? ==>
          (ExecKeepsInv(s, ops[0]); Held(Exec(s, ops[0]).value.state, ops[1..], a)))
  }

  ghost predicate NeverWritten(s: State, ops: seq<Op>, a: Word)
    requires Inv(s)
    decreases ops
  {
    ops != [] ==>
      && a !in Written(s, ops[0])
      && (Exec(s, ops[0]).Done? ==>
            (ExecKeepsInv(s, ops[0]); NeverWritten(Exec(s, ops[0]).value.state, ops[1..], a)))
  }

  /** Over any run of a client of the scanning entries: an object that the scanned stacks, the
      arguments or the registered roots reach at each call that may collect stays the same
      object, and keeps its contents unless one of the calls writes it. */
  lemma {:induction false} RunKeepsReached(s: State, ops: seq<Op>, a: Word)
    requires Inv(s) && Run(s, ops).Done? && a in s.store && Reached(s, ops, a)
    ensures var t := Run(s, ops).value;
      && a in t.store && t.store[a].kind == s.store[a].kind
      && (NeverWritten(s, ops, a) ==> SameObject(s, t, a))
    decreases ops
  {
    hide Inv, Exec, Written, Live, Protected, MayCollect;
    if ops != [] {
      ExecKeepsInv(s, ops[0]);
      StepKeepsReached(s, ops[0], a);
      RunKeepsReached(Exec(s, ops[0]).value.state, ops[1..], a);
    }
  }

  lemma {:induction false} HeldIsReached(s: State, ops: seq<Op>, a: Word)
    requires Inv(s) && Held(s, ops, a)
    ensures Reached(s, ops, a)
    decreases ops
  {
    hide Inv, Exec, Live, Protected, MayCollect, Rooted;
    if ops != [] {
      RootedIsLive(s, ops[0], a);
      if Exec(s, ops[0]).Done? {
        ExecKeepsInv(s, ops[0]);
        HeldIsReached(Exec(s, ops[0]).value.state, ops[1..], a);
      }
    }
  }

  /** Over any run, an object that stays rooted stays the same object, and keeps its
      contents unless one of the calls writes it. */
  lemma RunKeepsHeld(s: State, ops: seq<Op>, a: Word)
    requires Inv(s) && Run(s, ops).Done? && Held(s, ops, a)
    ensures var t := Run(s, ops).value;
      && a in s.store && a in t.store && t.store[a].kind == s.store[a].kind
      && (NeverWritten(s, ops, a) ==> SameObject(s, t, a))
  {
    hide Inv, Exec, Run, NeverWritten, Reached;
    HeldIsReached(s, ops, a);
    RunKeepsReached(s, ops, a);
  }

  /** A pair keeps its car and cdr for as long as it is held. */
  lemma PairsAreStable(s: State, ops: seq<Op>, pair: Word)
    requires Inv(s) && Run(s, ops).Done? && Held(s, ops, pair) && IsA(s.store, pair, ConsCell)
    ensures var t := Run(s, ops).value;
      && Exec(t, Car(pair)) == Done(Effect(t, s.store[pair].slots[0]))
      && Exec(t, Cdr(pair)) == Done(Effect(t, s.store[pair].slots[1]))
  {
    ImmutableObjects(s, ops, pair);
    RunKeepsHeld(s, ops, pair);
    ReadPair(Run(s, ops).value, pair);
  }

  lemma ReadPair(t: State, pair: Word)
    requires Inv(t) && IsA(t.store, pair, ConsCell)
    ensures Exec(t, Car(pair)) == Done(Effect(t, t.store[pair].slots[0]))
    ensures Exec(t, Cdr(pair)) == Done(Effect(t, t.store[pair].slots[1]))
  {
    HeapWordIsNotNil(pair);
  }

  /** No call writes to pairs, closures or symbols that exist already. */
  lemma {:induction false} ImmutableObjects(s: State, ops: seq<Op>, a: Word)
    requires Inv(s) && Run(s, ops).Done? && Held(s, ops, a)
    requires IsA(s.store, a, ConsCell) || IsA(s.store, a, Closure) || IsA(s.store, a, Symbol)
    ensures NeverWritten(s, ops, a)
    decreases ops
  {
    hide Inv, Exec, Rooted, Written;
    if ops != [] {
      var op := ops[0];
      ExecKeepsInv(s, op);
      RootedIsLive(s, op, a);
      StepKeepsRooted(s, op, a);
      WrittenKinds(s, op);
      ImmutableObjects(Exec(s, op).value.state, ops[1..], a);
    }
  }

  lemma WrittenKinds(s: State, op: Op)
    requires Inv(s) && Exec(s, op).Done?
    ensures forall a :: a in Written(s, op) ==>
      || IsA(s.store, a, ByteString) || IsA(s.store, a, Package)
      || IsA(s.store, a, ValueVector) || IsA(s.store, a, VectorStorage)
  {
    hide NamesOk, PackagesOk, GrowthOk, HandlesOk, HeapOk;
    match op
    case VectorSet(vector, _, _) => assert Backed(s.store, vector);
    case VectorPush(vector, _, _) => assert Backed(s.store, vector);
    case _ =>
  }

  // ---------- No dangling words ----------

  predicate WordOk(store: Store, w: Word) {
    HeapTagged(w) ==> w in store
  }

  ghost predicate ClosedGraph(store: Store) {
    forall a, c :: a in store && c in Children(store[a]) ==> WordOk(store, c)
  }

  ghost predicate Closed(s: State) {
    ClosedGraph(s.store) && forall w :: w in RootSet(s) ==> WordOk(s.store, w)
  }

  /** The words a call stores somewhere. */
  function Stored(op: Op): set<Word> {
    match op
    case PushRoots(frame) => SeqSet(frame.words)
    case SetRoot(_, _, word) => {word}
    case RegisterRoots(words, _) => SeqSet(words)
    case SetPermanent(_, _, word) => {word}
    case HandleSet(_, word) => {word}
    case EnterClosure(closure, argument, _) => {closure, argument}
    case Values2(first, second, _) => {first, second}
    case VectorSet(_, _, item) => {item}
    case _ => Args(op)
  }

  /** The client's duty: words it passes to be stored are immediates or live objects. */
  ghost predicate Admissible(s: State, op: Op) {
    forall w :: w in Stored(op) ==> WordOk(s.store, w)
  }

  lemma UpdateKeepsClosed(store: Store, a: Word, b: Body)
    requires ClosedGraph(store)
    requires forall c :: c in Children(b) ==> WordOk(store[a := b], c)
    ensures ClosedGraph(store[a := b])
  {
    var t := store[a := b];
    forall x, c | x in t && c in Children(t[x])
      ensures WordOk(t, c)
    {
      if x != a {
        assert WordOk(store, c);
      }
    }
  }

  lemma RestrictKeepsClosed(store: Store, keep: set<Word>)
    requires ClosedGraph(store) && ClosedUnder(store, keep)
    ensures ClosedGraph(Restrict(store, keep))
  {
    forall a, c | a in Restrict(store, keep) && c in Children(store[a])
      ensures WordOk(Restrict(store, keep), c)
    {
      assert WordOk(store, c);
    }
  }

  lemma CollectKeepsClosed(s: State, extra: set<Word>)
    requires Closed(s)
    ensures Closed(Collect(s, extra)) && Closed(Settle(s, extra))
    ensures forall w :: w in extra && WordOk(s.store, w) ==>
      WordOk(Collect(s, extra).store, w) && WordOk(Settle(s, extra).store, w)
  {
    var roots := RootSet(s) + extra;
    LiveIsClosed(s.store, roots);
    RestrictKeepsClosed(s.store, Live(s.store, roots));
  }

  /** A larger heap with the same roots. */
  lemma ClosedTransfers(s: State, t: State)
    requires Closed(s) && ClosedGraph(t.store) && s.store.Keys <= t.store.Keys
    requires t.frames == s.frames && t.permanent == s.permanent && t.handles == s.handles
    ensures Closed(t)
  {
    assert RootSet(t) == RootSet(s);
    forall w | w in RootSet(t)
      ensures WordOk(t.store, w)
    {
      assert WordOk(s.store, w);
    }
  }

  lemma ConstructKeepsClosed(s: State, extra: set<Word>, at: Word, b: Body)
    requires Closed(s) && forall c :: c in Children(b) ==> c in extra + {0, NIL} && WordOk(s.store, c)
    ensures Closed(Insert(Settle(s, extra), at, b))
  {
    CollectKeepsClosed(s, extra);
    var t := Settle(s, extra);
    forall c | c in Children(b)
      ensures WordOk(t.store[at := b], c)
    {
      HeapTaggedIsAligned(c);
    }
    UpdateKeepsClosed(t.store, at, b);
    ClosedTransfers(t, Insert(t, at, b));
  }

  lemma InsertKeepsClosed(s: State, a: Word, b: Body)
    requires Closed(s) && forall c :: c in Children(b) ==> WordOk(s.store, c)
    ensures Closed(Insert(s, a, b))
  {
    UpdateKeepsClosed(s.store, a, b);
    ClosedTransfers(s, Insert(s, a, b));
  }

  lemma WriteKeepsClosed(s: State, a: Word, b: Body)
    requires Closed(s) && a in s.store && forall c :: c in Children(b) ==> WordOk(s.store, c)
    ensures Closed(Write(s, a, b))
  {
    UpdateKeepsClosed(s.store, a, b);
    ClosedTransfers(s, Write(s, a, b));
  }

  lemma NonPointers()
    ensures !HeapTagged(NIL) && !HeapTagged(0)
  {
    HeapTaggedIsAligned(NIL);
  }

  lemma PlanKeepsClosed(s: State, op: Op)
    requires Inv(s) && Closed(s) && IsConstructor(op) && Admissible(s, op) && Constructed(s, op).Done?
    ensures Closed(Constructed(s, op).value.state)
  {
    hide PackagesOk, VectorsOk, NamesOk, GrowthOk, HandlesOk, HeapOk, Closed;
    var p := PlanOf(s, op).value;
    NonPointers();
    ConstructKeepsClosed(s, p.extra, p.at, p.body);
  }

  lemma LinkSymbolKeepsClosed(t: State, package: Word, name: Word, at: Word)
    requires Closed(t) && IsA(t.store, package, Package) && name in t.store
    ensures Closed(LinkSymbol(t, package, name, at))
  {
    var b := t.store[package];
    var symbol := SymbolBody(name, package, b.slots[1]);
    assert Children(b)[1] == b.slots[1] && WordOk(t.store, b.slots[1]);
    InsertKeepsClosed(t, at, symbol);
    var u := Insert(t, at, symbol);
    assert Children(b)[0] == b.slots[0] && WordOk(t.store, b.slots[0]);
    WriteKeepsClosed(u, package, b.(slots := b.slots[1 := at]));
  }

  lemma InternKeepsClosed(s: State, package: Word, name: Word, scan: Scan, at: Word)
    requires GraphOk(s, {}) && Closed(s) && InternEffect(s, package, name, scan, at).Done?
    ensures Closed(InternEffect(s, package, name, scan, at).value.state)
  {
    var extra := {package, name} + ScanWords(scan);
    CollectKeepsClosed(s, extra);
    SettleKeepsExtra(s, extra, package);
    SettleKeepsExtra(s, extra, name);
    if InternNew(s, package, name, extra, at).Done? {
      LinkSymbolKeepsClosed(Settle(s, extra), package, name, at);
    }
  }

  /** Attaching storage whose items are fine words. */
  lemma AttachKeepsClosed(t: State, v: Word, header: Body, at: Word, items: seq<Word>, k: nat)
    requires Closed(t) && v in t.store && header.kind.ValueVector? && header.slots[0] == at && |items| <= SIZE_MAX
    requires forall w :: w in items ==> WordOk(t.store, w)
    ensures Closed(Attach(t, v, header, at, items, k))
  {
    InsertKeepsClosed(t, at, StorageBody(items));
    WriteKeepsClosed(Insert(t, at, StorageBody(items)), v, header);
  }

  lemma MakeVectorKeepsClosed(s: State, length: Word, initial: Word, at: Word, storageAt: Word)
    requires Closed(s) && WordOk(s.store, initial) && MakeVectorEffect(s, length, initial, at, storageAt).Done?
    ensures Closed(MakeVectorEffect(s, length, initial, at, storageAt).value.state)
  {
    NonPointers();
    ConstructKeepsClosed(s, {NIL, initial}, at, VectorBody(length, 0));
    CollectKeepsClosed(s, {NIL, initial});
    var t := Insert(Settle(s, {NIL, initial}), at, VectorBody(length, 0));
    assert WordOk(t.store, initial);
    CollectKeepsClosed(t, {at, initial});
    SettleKeepsExtra(t, {at, initial}, at);
    AttachKeepsClosed(Settle(t, {at, initial}), at, VectorBody(length, storageAt), storageAt, Fill(length, initial), 0);
  }

  lemma ItemsOk(store: Store, w: Word)
    requires ClosedGraph(store) && IsA(store, w, VectorStorage)
    ensures forall x :: x in store[w].items ==> WordOk(store, x)
  {
    assert Children(store[w]) == store[w].items;
  }

  lemma GrowVectorKeepsClosed(t: State, v: Word, item: Word, at: Word)
    requires Closed(t) && Full(t, v) && Backed(t.store, v) && WordOk(t.store, item)
    ensures Closed(GrowVector(t, v, item, at))
  {
    NonPointers();
    var items := t.store[t.store[v].slots[0]].items;
    ItemsOk(t.store, t.store[v].slots[0]);
    forall w | w in GrownItems(items, item)
      ensures WordOk(t.store, w)
    {
      var i :| 0 <= i < |GrownItems(items, item)| && GrownItems(items, item)[i] == w;
      if i < |items| {
        assert w == items[i];
      }
    }
    AttachKeepsClosed(t, v, GrownHeader(t.store[v], at), at, GrownItems(items, item),
                      t.history.copied[v] + t.store[v].length);
  }

  lemma StoreItemKeepsClosed(s: State, w: Word, position: nat, item: Word)
    requires Closed(s) && IsA(s.store, w, VectorStorage) && position < |s.store[w].items| && WordOk(s.store, item)
    ensures Closed(Write(s, w, s.store[w].(items := s.store[w].items[position := item])))
  {
    ItemsOk(s.store, w);
    var items := s.store[w].items[position := item];
    forall x | x in items
      ensures WordOk(s.store, x)
    {
      var i :| 0 <= i < |items| && items[i] == x;
      if i != position {
        assert x == s.store[w].items[i];
      }
    }
    WriteKeepsClosed(s, w, s.store[w].(items := items));
  }

  lemma PushKeepsClosed(s: State, v: Word, item: Word, at: Word)
    requires VectorsOk(s.store, {}) && GrowthOk(s, {}) && Closed(s) && WordOk(s.store, item)
    requires VectorPushEffect(s, v, item, at).Done?
    ensures Closed(VectorPushEffect(s, v, item, at).value.state)
  {
    hide Live, RootSet, GrowVector;
    assert Backed(s.store, v);
    var b, w := s.store[v], s.store[v].slots[0];
    if b.length < |s.store[w].items| {
      StoreItemKeepsClosed(s, w, b.length, item);
      var t := Write(s, w, s.store[w].(items := s.store[w].items[b.length := item]));
      WriteKeepsClosed(t, v, b.(length := b.length + 1));
    } else {
      CollectKeepsClosed(s, {v, item});
      VectorSettles(s, {v, item}, v);
      GrowVectorKeepsClosed(Settle(s, {v, item}), v, item, at);
    }
  }

  // Words under root changes.

  lemma {:induction false} FrameWordsUpdate(frames: seq<Frame>, i: nat, f: Frame)
    requires i < |frames|
    ensures FrameWords(frames[i := f]) <= FrameWords(frames) + SeqSet(f.words)
  {
    if i == 0 {
      assert frames[i := f][1..] == frames[1..];
    } else {
      FrameWordsUpdate(frames[1..], i - 1, f);
      assert frames[i := f][1..] == frames[1..][i - 1 := f];
    }
  }

  lemma {:induction false} FrameWordsAt(frames: seq<Frame>, i: nat)
    requires i < |frames|
    ensures SeqSet(frames[i].words) <= FrameWords(frames)
  {
    if i > 0 {
      FrameWordsAt(frames[1..], i - 1);
    }
  }

  lemma {:induction false} AreaWordsAppend(a: seq<seq<Word>>, words: seq<Word>)
    ensures AreaWords(a + [words]) == AreaWords(a) + SeqSet(words)
  {
    if a == [] {
      assert a + [words] == [words];
      assert [words][1..] == [];
    } else {
      AreaWordsAppend(a[1..], words);
      assert (a + [words])[1..] == a[1..] + [words];
    }
  }

  lemma {:induction false} AreaWordsUpdate(a: seq<seq<Word>>, i: nat, words: seq<Word>)
    requires i < |a|
    ensures AreaWords(a[i := words]) <= AreaWords(a) + SeqSet(words)
  {
    if i == 0 {
      assert a[i := words][1..] == a[1..];
    } else {
      AreaWordsUpdate(a[1..], i - 1, words);
      assert a[i := words][1..] == a[1..][i - 1 := words];
    }
  }

  lemma {:induction false} AreaWordsAt(areas: seq<seq<Word>>, i: nat)
    requires i < |areas|
    ensures SeqSet(areas[i]) <= AreaWords(areas)
  {
    if i > 0 {
      AreaWordsAt(areas[1..], i - 1);
    }
  }

  lemma {:induction false} HandleWordsUpdate(h: seq<Handle>, i: nat, x: Handle)
    requires i < |h|
    ensures HandleWords(h[i := x]) <= HandleWords(h) + {x.value}
    ensures HandleWords(h[..i] + h[i + 1..]) <= HandleWords(h)
  {
    if i == 0 {
      assert h[i := x][1..] == h[1..];
      assert h[..i] + h[i + 1..] == h[1..];
    } else {
      HandleWordsUpdate(h[1..], i - 1, x);
      assert h[i := x][1..] == h[1..][i - 1 := x];
      assert (h[..i] + h[i + 1..])[1..] == h[1..][..i - 1] + h[1..][i..];
    }
  }

  predicate WritesFrames(op: Op) {
    op.PushRoots? || op.PopRoots? || op.SetRoot? || op.EnterClosure?
  }

  predicate WritesAreas(op: Op) {
    op.RegisterRoots? || op.SetPermanent? || op.Values2?
  }

  predicate WritesHandles(op: Op) {
    op.HandleOpen? || op.HandleSet? || op.HandleClose?
  }

  lemma FrameCallsRoots(s: State, op: Op)
    requires Inv(s) && WritesFrames(op) && TableEffect(s, op).Done?
    ensures var t := TableEffect(s, op).value.state;
      && FrameWords(t.frames) <= FrameWords(s.frames) + Stored(op)
      && t.permanent == s.permanent && t.handles == s.handles
  {
    hide PackagesOk, VectorsOk, NamesOk, GrowthOk, HandlesOk, HeapOk;
    var t := TableEffect(s, op).value.state;
    if op.PushRoots? || op.EnterClosure? {
      assert t.frames[1..] == s.frames;
    } else if op.SetRoot? {
      FrameWordsUpdate(s.frames, op.depth, t.frames[op.depth]);
      FrameWordsAt(s.frames, op.depth);
    }
  }

  lemma AreaCallsRoots(s: State, op: Op)
    requires Inv(s) && WritesAreas(op) && TableEffect(s, op).Done?
    ensures var t := TableEffect(s, op).value.state;
      && AreaWords(t.permanent) <= AreaWords(s.permanent) + Stored(op)
      && t.frames == s.frames && t.handles == s.handles
  {
    hide PackagesOk, VectorsOk, NamesOk, GrowthOk, HandlesOk, HeapOk;
    if op.RegisterRoots? {
      AreaWordsAppend(s.permanent, op.words);
    } else if op.SetPermanent? {
      var words: seq<Word> := s.permanent[op.area][op.index := op.word];
      AreaWordsUpdate(s.permanent, op.area, words);
      AreaWordsAt(s.permanent, op.area);
    } else if s.valuesArea.None? {
      AreaWordsAppend(s.permanent, [op.first, op.second]);
    } else {
      AreaWordsUpdate(s.permanent, s.valuesArea.value, [op.first, op.second]);
    }
  }

  lemma HandleCallsRoots(s: State, op: Op)
    requires Inv(s) && WritesHandles(op) && TableEffect(s, op).Done?
    ensures var t := TableEffect(s, op).value.state;
      && HandleWords(t.handles) <= HandleWords(s.handles) + Stored(op) + {NIL}
      && t.frames == s.frames && t.permanent == s.permanent
  {
    hide PackagesOk, VectorsOk, NamesOk, GrowthOk, HandlesOk, HeapOk;
    if op.HandleOpen? {
      assert TableEffect(s, op).value.state.handles[1..] == s.handles;
    } else {
      var word := if op.HandleSet? then op.word else NIL;
      HandleWordsUpdate(s.handles, HandleIndex(s.handles, op.token), Handle(op.token, word));
    }
  }

  /** Calls that leave the heap alone only root words they were given, and NIL. */
  lemma LightOpsRoots(s: State, op: Op)
    requires Inv(s) && LeavesHeap(op) && TableEffect(s, op).Done?
    ensures RootSet(TableEffect(s, op).value.state) <= RootSet(s) + Stored(op) + {NIL}
  {
    hide PackagesOk, VectorsOk, NamesOk, GrowthOk, HandlesOk, HeapOk, Stored;
    if WritesFrames(op) {
      FrameCallsRoots(s, op);
    } else if WritesAreas(op) {
      AreaCallsRoots(s, op);
    } else if WritesHandles(op) {
      HandleCallsRoots(s, op);
    }
  }

  lemma LightOpsKeepClosed(s: State, op: Op)
    requires Inv(s) && Closed(s) && Admissible(s, op) && LeavesHeap(op) && TableEffect(s, op).Done?
    ensures Closed(TableEffect(s, op).value.state)
  {
    var t := TableEffect(s, op).value.state;
    HeapLeftAlone(s, op);
    LightOpsRoots(s, op);
    NonPointers();
    forall w | w in RootSet(t)
      ensures WordOk(t.store, w)
    {
      assert w in RootSet(s) || w in Stored(op) || w == NIL;
    }
  }

  lemma StringSetKeepsClosed(s: State, text: Word, position: Word, byte: Byte)
    requires HeapOk(s) && Closed(s) && StringSetByteEffect(s, text, position, byte).Done?
    ensures Closed(StringSetByteEffect(s, text, position, byte).value.state)
  {
    WriteKeepsClosed(s, text, s.store[text].(bytes := s.store[text].bytes[position := byte]));
  }

  lemma SetKeepsClosed(s: State, v: Word, position: Word, item: Word)
    requires VectorsOk(s.store, {}) && Closed(s) && WordOk(s.store, item)
    requires VectorSetEffect(s, v, position, item).Done?
    ensures Closed(VectorSetEffect(s, v, position, item).value.state)
  {
    assert Backed(s.store, v);
    StoreItemKeepsClosed(s, s.store[v].slots[0], position, item);
  }

  lemma HeapCallsKeepClosed(s: State, op: Op)
    requires Inv(s) && Closed(s) && Admissible(s, op)
    requires !LeavesHeap(op) && !IsConstructor(op) && HeapEffect(s, op).Done?
    ensures Closed(HeapEffect(s, op).value.state)
  {
    hide InternEffect, VectorPushEffect, MakeVectorEffect, VectorSetEffect;
    hide PackagesOk, NamesOk, VectorsOk, GrowthOk, HandlesOk, Closed;
    match op
    case CollectNow(scan, granted) => CollectKeepsClosed(s, ScanWords(scan));
    case StringSetByte(text, position, byte) => StringSetKeepsClosed(s, text, position, byte);
    case Intern(package, name, scan, at) => InternKeepsClosed(s, package, name, scan, at);
    case MakeVector(length, initial, at, storageAt) => MakeVectorKeepsClosed(s, length, initial, at, storageAt);
    case VectorSet(vector, position, item) => SetKeepsClosed(s, vector, position, item);
    case VectorPush(vector, item, at) => PushKeepsClosed(s, vector, item, at);
  }

  /** One call of a client that passes only live words leaves no dangling word. */
  lemma StepKeepsClosed(s: State, op: Op)
    requires Inv(s) && Closed(s) && Admissible(s, op) && Exec(s, op).Done?
    ensures Closed(Exec(s, op).value.state)
  {
    if IsConstructor(op) {
      PlanKeepsClosed(s, op);
    } else if LeavesHeap(op) {
      LightOpsKeepClosed(s, op);
    } else {
      HeapCallsKeepClosed(s, op);
    }
  }

  ghost predicate RunAdmissible(s: State, ops: seq<Op>)
    requires Inv(s)
    decreases ops
  {
    ops != [] ==>
      && Admissible(s, ops[0])
      && (Exec(s, ops[0]).Done? ==>
            (ExecKeepsInv(s, ops[0]); RunAdmissible(Exec(s, ops[0]).value.state, ops[1..])))
  }

  /** Over every run of such a client, every word in a root frame, permanent root, handle or
      scanned slot that looks like an object is one. */
  lemma {:induction false} RunKeepsClosed(s: State, ops: seq<Op>)
    requires Inv(s) && Closed(s) && RunAdmissible(s, ops) && Run(s, ops).Done?
    ensures Closed(Run(s, ops).value)
    decreases ops
  {
    if ops != [] {
      ExecKeepsInv(s, ops[0]);
      StepKeepsClosed(s, ops[0]);
      RunKeepsClosed(Exec(s, ops[0]).value.state, ops[1..]);
    }
  }

  /** From the start of the program, a client that passes only live words never meets a
      dangling one. */
  lemma ClosedFromStart(ops: seq<Op>)
    ensures Inv(INITIAL) && Closed(INITIAL)
    ensures RunAdmissible(INITIAL, ops) && Run(INITIAL, ops).Done? ==> Closed(Run(INITIAL, ops).value)
  {
    InitialInv();
    if RunAdmissible(INITIAL, ops) && Run(INITIAL, ops).Done? {
      RunKeepsClosed(INITIAL, ops);
    }
  }
}
