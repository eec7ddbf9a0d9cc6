/** What each runtime operation does to the state, as a total function of the state and of
    the answers of the C allocator; abort() is the outcome Aborted. */
module Operations {
  import opened Words
  import opened Heap
  import opened Machine

  const SIZEOF_OBJECT := 56
  const CAPACITY_MAX := (SIZE_MAX - SIZEOF_OBJECT) / 8

  /** Whether a collection scans the C stack, and the words it then finds there. */
  datatype Scan = Precise | Conservative(stack: seq<Word>)

  function ScanWords(scan: Scan): set<Word> {
    match scan
    case Precise => {}
    case Conservative(stack) => SeqSet(stack)
  }

  /** What a client passes as foreign bytes: a null pointer with a length, or bytes. */
  datatype Source = NoBytes(length: Word) | BytesAt(bytes: seq<Byte>)

  /** The calls a client can make. `at` is calloc's answer, and null also when malloc has no
      room for the worklist of the collection that the allocation starts; `granted` is whether
      malloc finds room. A closure call is EnterClosure, any calls of the closure's code, and
      PopRoots of the same frame. */
  datatype Op =
    | PushRoots(frame: Frame)
    | PopRoots(id: Word)
    | SetRoot(depth: nat, index: nat, word: Word)
    | RegisterRoots(words: seq<Word>, granted: bool)
    | SetPermanent(area: nat, index: nat, word: Word)
    | HandleOpen(granted: bool)
    | HandleGet(token: Word)
    | HandleSet(token: Word, word: Word)
    | HandleClose(token: Word)
    | CollectNow(scan: Scan, granted: bool)
    | MakeCons(first: Word, rest: Word, scan: Scan, at: Word)
    | Car(pair: Word)
    | Cdr(pair: Word)
    | MakeString(length: Word, fill: Byte, scan: Scan, at: Word)
    | CopyString(source: Source, scan: Scan, at: Word)
    | StringByte(text: Word, position: Word)
    | StringSetByte(text: Word, position: Word, byte: Byte)
    | MakeSymbol(name: Word, scan: Scan, at: Word)
    | MakePackage(name: Word, scan: Scan, at: Word)
    | Intern(package: Word, name: Word, scan: Scan, at: Word)
    | MakeClosure(code: Word, environment: Word, scan: Scan, at: Word)
    | EnterClosure(closure: Word, argument: Word, id: Word)
    | Values2(first: Word, second: Word, granted: bool)
    | NthValue(n: Word)
    | MakeVector(length: Word, initial: Word, at: Word, storageAt: Word)
    | VectorLength(vector: Word)
    | VectorRef(vector: Word, position: Word)
    | VectorSet(vector: Word, position: Word, item: Word)
    | VectorPush(vector: Word, item: Word, at: Word)

  /** The state after a call and the word it returns (0 where C returns void). */
  datatype Effect = Effect(state: State, value: Word)

  /** A method's answer and the state it leaves are those of the effect. */
  ghost predicate Agrees(r: Outcome<Word>, now: State, e: Outcome<Effect>) {
    match e
    case Aborted => r.Aborted?
    case Done(f) => r == Done(f.value) && now == f.state
  }

  // ---------- Object payloads ----------

  function Fill<T>(count: nat, x: T): (s: seq<T>)
    ensures |s| == count && forall i :: 0 <= i < count ==> s[i] == x
  {
    seq(count, _ => x)
  }

  function ConsBody(first: Word, rest: Word): Body {
    Body(ConsCell, 0, [first, rest, 0], 0, [], [])
  }

  function StringBody(bytes: seq<Byte>): Body
    requires |bytes| <= SIZE_MAX
  {
    Body(ByteString, |bytes|, [0, 0, 0], 0, bytes + [0], [])
  }

  function SymbolBody(name: Word, package: Word, link: Word): Body {
    Body(Symbol, 0, [name, package, link], 0, [], [])
  }

  function PackageBody(name: Word, symbols: Word): Body {
    Body(Package, 0, [name, symbols, 0], 0, [], [])
  }

  function ClosureBody(code: Word, environment: Word): Body {
    Body(Closure, 0, [environment, 0, 0], code, [], [])
  }

  function VectorBody(length: Word, storage: Word): Body {
    Body(ValueVector, length, [storage, 0, 0], 0, [], [])
  }

  function StorageBody(items: seq<Word>): Body
    requires |items| <= SIZE_MAX
  {
    Body(VectorStorage, |items|, [0, 0, 0], 0, [], items)
  }

  /** The characters of a string, without the terminating zero. */
  function Text(store: Store, w: Word): seq<Byte>
    requires IsA(store, w, ByteString) && BodyOk(store[w])
  {
    store[w].bytes[..store[w].length]
  }

  // ---------- Roots, handles, values ----------

  ghost function Same(s: State, value: Word): Outcome<Effect> {
    Done(Effect(s, value))
  }

  ghost function PopRootsEffect(s: State, id: Word): Outcome<Effect> {
    if s.frames == [] || s.frames[0].id != id then Aborted
    else Same(s.(frames := s.frames[1..]), 0)
  }

  ghost function SetRootEffect(s: State, depth: nat, index: nat, word: Word): Outcome<Effect> {
    if depth >= |s.frames| || index >= |s.frames[depth].words| then Aborted
    else
      var f := s.frames[depth];
      Same(s.(frames := s.frames[depth := f.(words := f.words[index := word])]), 0)
  }

  /** Position of the handle with this token, or the number of handles. */
  function HandleIndex(handles: seq<Handle>, token: Word): (i: nat)
    ensures i <= |handles|
    ensures i < |handles| ==> handles[i].token == token
    ensures forall j :: 0 <= j < i ==> handles[j].token != token
  {
    if handles == [] || handles[0].token == token then 0
    else 1 + HandleIndex(handles[1..], token)
  }

  ghost function RegisterRootsEffect(s: State, words: seq<Word>, granted: bool): Outcome<Effect> {
    if !granted then Aborted else Same(s.(permanent := s.permanent + [words]), 0)
  }

  /** The client overwrites a word of an array it registered for good; the buffer of the
      multiple values is not the client's. */
  ghost function SetPermanentEffect(s: State, area: nat, index: nat, word: Word): Outcome<Effect> {
    if area >= |s.permanent| || s.valuesArea == Some(area) || index >= |s.permanent[area]| then Aborted
    else
      var words: seq<Word> := s.permanent[area][index := word];
      Same(s.(permanent := s.permanent[area := words]), 0)
  }

  ghost function HandleOpenEffect(s: State, granted: bool): Outcome<Effect> {
    if s.nextToken == SIZE_MAX || !granted then Aborted
    else Same(s.(handles := [Handle(s.nextToken, NIL)] + s.handles, nextToken := s.nextToken + 1), s.nextToken)
  }

  ghost function HandleGetEffect(s: State, token: Word): Outcome<Effect> {
    var i := HandleIndex(s.handles, token);
    if token == 0 || i == |s.handles| then Aborted else Same(s, s.handles[i].value)
  }

  ghost function HandleSetEffect(s: State, token: Word, word: Word): Outcome<Effect> {
    var i := HandleIndex(s.handles, token);
    if token == 0 || i == |s.handles| then Aborted
    else Same(s.(handles := s.handles[i := Handle(token, word)]), 0)
  }

  ghost function HandleCloseEffect(s: State, token: Word): Outcome<Effect> {
    var i := HandleIndex(s.handles, token);
    if token == 0 || i == |s.handles| then Aborted
    else Same(s.(handles := s.handles[..i] + s.handles[i + 1..]), 0)
  }

  /** The first call registers the buffer as a permanent root. */
  ghost function Values2Effect(s: State, first: Word, second: Word, granted: bool): Outcome<Effect>
    requires ValuesOk(s)
  {
    match s.valuesArea
    case None =>
      if !granted then Aborted
      else Same(s.(permanent := s.permanent + [[first, second]],
              valuesArea := Some(|s.permanent|), valueCount := 2), first)
    case Some(area) =>
      Same(s.(permanent := s.permanent[area := [first, second]], valueCount := 2), first)
  }

  ghost function NthValueEffect(s: State, n: Word): Outcome<Effect>
    requires ValuesOk(s)
  {
    Same(s, if n < s.valueCount then s.permanent[s.valuesArea.value][n] else NIL)
  }

  // ---------- Constructors ----------

  ghost function Construct(s: State, extra: set<Word>, at: Word, b: Body): Outcome<Effect> {
    match Allocate(s, extra, at, b)
    case Aborted => Aborted
    case Done(t) => Same(t, at)
  }

  ghost function SlotEffect(s: State, w: Word, kind: Kind, slot: nat): Outcome<Effect>
    requires slot < 3
  {
    if kind.ConsCell? && w == NIL then Same(s, NIL)
    else if !IsA(s.store, w, kind) then Aborted
    else Same(s, s.store[w].slots[slot])
  }

  ghost function StringByteEffect(s: State, text: Word, position: Word): Outcome<Effect>
    requires HeapOk(s)
  {
    if !IsA(s.store, text, ByteString) || position >= s.store[text].length then Aborted
    else Same(s, s.store[text].bytes[position])
  }

  ghost function StringSetByteEffect(s: State, text: Word, position: Word, byte: Byte): Outcome<Effect>
    requires HeapOk(s)
  {
    if !IsA(s.store, text, ByteString) || position >= s.store[text].length then Aborted
    else
      var b := s.store[text];
      Same(Write(s, text, b.(bytes := b.bytes[position := byte])), 0)
  }

  /** The frame is pushed before the closure is checked; the result is the environment. */
  ghost function EnterClosureEffect(s: State, closure: Word, argument: Word, id: Word): Outcome<Effect> {
    if !IsA(s.store, closure, Closure) then Aborted
    else Same(Pushed(s, Frame(id, [closure, argument])), s.store[closure].slots[0])
  }

  // ---------- Interning ----------

  /** The symbols of a package, most recent first. */
  ghost function ChainOf(store: Store, p: Word): (c: seq<Word>)
    requires HasChain(store, p)
    ensures Chain(store, p, store[p].slots[1], c)
  {
    var c :| Chain(store, p, store[p].slots[1], c);
    c
  }

  ghost predicate ChainNamed(store: Store, c: seq<Word>) {
    forall i :: 0 <= i < |c| ==>
      IsA(store, c[i], Symbol) && IsA(store, store[c[i]].slots[0], ByteString) &&
      BodyOk(store[store[c[i]].slots[0]])
  }

  ghost function NameOf(store: Store, symbol: Word): seq<Byte>
    requires ChainNamed(store, [symbol])
  {
    assert [symbol][0] == symbol;
    Text(store, store[symbol].slots[0])
  }

  /** The first symbol of the chain with this name, or the length of the chain. */
  ghost function Lookup(store: Store, c: seq<Word>, text: seq<Byte>): (i: nat)
    requires ChainNamed(store, c)
    ensures i <= |c|
    ensures i < |c| ==> ChainNamed(store, [c[i]]) && NameOf(store, c[i]) == text
    ensures forall j :: 0 <= j < i ==> ChainNamed(store, [c[j]]) && NameOf(store, c[j]) != text
  {
    if c == [] then 0
    else
      assert ChainNamed(store, [c[0]]);
      if NameOf(store, c[0]) == text then 0
      else 1 + Lookup(store, c[1..], text)
  }

  lemma {:induction false} ChainIsNamed(s: State, p: Word, w: Word, c: seq<Word>)
    requires HeapOk(s) && NamesOk(s.store) && Chain(s.store, p, w, c)
    ensures ChainNamed(s.store, c)
    decreases c
  {
    if c != [] {
      ChainIsNamed(s, p, s.store[w].slots[2], c[1..]);
    }
  }

  /** Put a new symbol in front of the chain of its package. */
  function LinkSymbol(t: State, package: Word, name: Word, at: Word): State
    requires package in t.store
  {
    var b := t.store[package];
    Write(Insert(t, at, SymbolBody(name, package, b.slots[1])), package, b.(slots := b.slots[1 := at]))
  }

  ghost function InternNew(s: State, package: Word, name: Word, extra: set<Word>, at: Word): Outcome<Effect>
    requires package in s.store && package in extra
  {
    SettleKeepsExtra(s, extra, package);
    var t := Settle(s, extra);
    if !Usable(t, at) then Aborted else Same(LinkSymbol(t, package, name, at), at)
  }

  ghost function InternEffect(s: State, package: Word, name: Word, scan: Scan, at: Word): Outcome<Effect>
    requires GraphOk(s, {})
  {
    if !IsA(s.store, package, Package) || !IsA(s.store, name, ByteString) then Aborted
    else
      var c := ChainOf(s.store, package);
      ChainIsNamed(s, package, s.store[package].slots[1], c);
      var i := Lookup(s.store, c, Text(s.store, name));
      if i < |c| then Same(s, c[i])
      else InternNew(s, package, name, {package, name} + ScanWords(scan), at)
  }

  // ---------- Vectors ----------

  /** Put fresh storage at `at` under header v, of whose elements k were copied so far. */
  function Attach(t: State, v: Word, header: Body, at: Word, items: seq<Word>, k: nat): State
    requires |items| <= SIZE_MAX
  {
    WithCopied(Write(Insert(t, at, StorageBody(items)), v, header), v, k)
  }

  /** Give the header at `at` storage with `length` copies of `initial`. */
  function BackVector(t: State, at: Word, length: Word, initial: Word, storageAt: Word): State
    requires length <= CAPACITY_MAX
  {
    Attach(t, at, VectorBody(length, storageAt), storageAt, Fill(length, initial), 0)
  }

  ghost function MakeVectorEffect(s: State, length: Word, initial: Word, at: Word, storageAt: Word): Outcome<Effect> {
    match Allocate(s, {NIL, initial}, at, VectorBody(length, 0))
    case Aborted => Aborted
    case Done(t) =>
      if length > CAPACITY_MAX then Aborted
      else
        var u := Settle(t, {at, initial});
        if !Usable(u, storageAt) then Aborted else Same(BackVector(u, at, length, initial, storageAt), at)
  }

  ghost function VectorLengthEffect(s: State, vector: Word): Outcome<Effect> {
    if !IsA(s.store, vector, ValueVector) then Aborted else Same(s, s.store[vector].length)
  }

  ghost function VectorRefEffect(s: State, vector: Word, position: Word): Outcome<Effect>
    requires VectorsOk(s.store, {})
  {
    if !IsA(s.store, vector, ValueVector) || position >= s.store[vector].length then Aborted
    else Same(s, s.store[s.store[vector].slots[0]].items[position])
  }

  ghost function VectorSetEffect(s: State, vector: Word, position: Word, item: Word): Outcome<Effect>
    requires VectorsOk(s.store, {})
  {
    if !IsA(s.store, vector, ValueVector) || position >= s.store[vector].length then Aborted
    else
      var w := s.store[vector].slots[0];
      Same(Write(s, w, s.store[w].(items := s.store[w].items[position := item])), item)
  }

  function NextCapacity(capacity: nat): nat {
    if capacity == 0 then 4 else 2 * capacity
  }

  /** There is a spare item: store into it and count it in. */
  ghost function PushInPlace(s: State, v: Word, item: Word): State
    requires v in s.store && s.store[v].slots[0] in s.store
    requires s.store[v].length < |s.store[s.store[v].slots[0]].items| && s.store[v].length < SIZE_MAX
  {
    var b, w := s.store[v], s.store[v].slots[0];
    var storage := s.store[w].(items := s.store[w].items[b.length := item]);
    Write(Write(s, w, storage), v, b.(length := b.length + 1))
  }

  function GrownItems(items: seq<Word>, item: Word): (r: seq<Word>)
    ensures |r| == NextCapacity(|items|) && r[..|items|] == items && r[|items|] == item
    ensures forall i :: |items| < i < |r| ==> r[i] == NIL
  {
    items + [item] + Fill(NextCapacity(|items|) - |items| - 1, NIL)
  }

  function GrownHeader(b: Body, at: Word): Body
    requires b.length < SIZE_MAX
  {
    b.(length := b.length + 1, slots := b.slots[0 := at])
  }

  /** The storage of v is full. */
  predicate Full(s: State, v: Word) {
    && IsA(s.store, v, ValueVector) && s.store[v].slots[0] in s.store && v in s.history.copied
    && s.store[v].length == |s.store[s.store[v].slots[0]].items|
    && NextCapacity(s.store[v].length) <= CAPACITY_MAX
  }

  /** Move the items of v and the pushed item to new storage under the same header. */
  function GrowVector(t: State, v: Word, item: Word, at: Word): State
    requires Full(t, v)
  {
    Attach(t, v, GrownHeader(t.store[v], at), at, GrownItems(t.store[t.store[v].slots[0]].items, item),
           t.history.copied[v] + t.store[v].length)
  }

  ghost function PushGrown(s: State, v: Word, item: Word, at: Word): Outcome<Effect>
    requires Full(s, v)
  {
    VectorSettles(s, {v, item}, v);
    var t := Settle(s, {v, item});
    if !Usable(t, at) then Aborted else Same(GrowVector(t, v, item, at), s.store[v].length)
  }

  ghost function VectorPushEffect(s: State, vector: Word, item: Word, at: Word): Outcome<Effect>
    requires VectorsOk(s.store, {}) && GrowthOk(s, {})
  {
    if !IsA(s.store, vector, ValueVector) || s.store[vector].length == SIZE_MAX then Aborted
    else
      assert Backed(s.store, vector) && GrowthPaid(s, vector);
      if s.store[vector].length < |s.store[s.store[vector].slots[0]].items|
      then Same(PushInPlace(s, vector, item), s.store[vector].length)
      else if NextCapacity(s.store[vector].length) > CAPACITY_MAX then Aborted
      else PushGrown(s, vector, item, at)
  }

  // ---------- Simple constructors ----------

  /** A construction in one allocation: words kept alive meanwhile, address and payload. */
  datatype Plan = Plan(extra: set<Word>, at: Word, body: Body)

  predicate IsConstructor(op: Op) {
    op.MakeCons? || op.MakeString? || op.CopyString? || op.MakeSymbol? || op.MakePackage? || op.MakeClosure?
  }

  predicate FitsString(length: nat) {
    length < SIZE_MAX && length + 1 <= SIZE_MAX - SIZEOF_OBJECT
  }

  /** The bytes of a source; only an empty one may be null. */
  function CopiedBytes(source: Source): Option<seq<Byte>> {
    match source
    case NoBytes(length) => if length == 0 then Some([]) else None
    case BytesAt(bytes) => Some(bytes)
  }

  function PlanOf(s: State, op: Op): Option<Plan>
    requires IsConstructor(op)
  {
    match op
    case MakeCons(first, rest, scan, at) =>
      Some(Plan({first, rest} + ScanWords(scan), at, ConsBody(first, rest)))
    case MakeString(length, fill, scan, at) =>
      if FitsString(length) then Some(Plan(ScanWords(scan), at, StringBody(Fill(length, fill)))) else None
    case CopyString(source, scan, at) =>
      match CopiedBytes(source) {
        case None => None
        case Some(bytes) =>
          if FitsString(|bytes|) then Some(Plan(ScanWords(scan), at, StringBody(bytes))) else None
      }
    case MakeSymbol(name, scan, at) =>
      if IsA(s.store, name, ByteString) then Some(Plan({name} + ScanWords(scan), at, SymbolBody(name, NIL, NIL)))
      else None
    case MakePackage(name, scan, at) =>
      if IsA(s.store, name, ByteString) then Some(Plan({name} + ScanWords(scan), at, PackageBody(name, NIL)))
      else None
    case MakeClosure(code, environment, scan, at) =>
      if code != 0 then Some(Plan({environment} + ScanWords(scan), at, ClosureBody(code, environment))) else None
  }

  ghost function Constructed(s: State, op: Op): Outcome<Effect>
    requires IsConstructor(op)
  {
    match PlanOf(s, op)
    case None => Aborted
    case Some(p) => Construct(s, p.extra, p.at, p.body)
  }

  ghost function CollectEffect(s: State, scan: Scan, granted: bool): Outcome<Effect> {
    if !granted then Aborted else Same(Collect(s, ScanWords(scan)), 0)
  }

  // ---------- One step ----------

  /** Calls that neither allocate an object, collect nor write one. */
  predicate LeavesHeap(op: Op) {
    && !IsConstructor(op) && !op.CollectNow? && !op.StringSetByte? && !op.Intern?
    && !op.MakeVector? && !op.VectorSet? && !op.VectorPush?
  }

  ghost function TableEffect(s: State, op: Op): Outcome<Effect>
    requires Inv(s) && LeavesHeap(op)
  {
    match op
    case PushRoots(frame) => Same(Pushed(s, frame), 0)
    case PopRoots(id) => PopRootsEffect(s, id)
    case SetRoot(depth, index, word) => SetRootEffect(s, depth, index, word)
    case RegisterRoots(words, granted) => RegisterRootsEffect(s, words, granted)
    case SetPermanent(area, index, word) => SetPermanentEffect(s, area, index, word)
    case HandleOpen(granted) => HandleOpenEffect(s, granted)
    case HandleGet(token) => HandleGetEffect(s, token)
    case HandleSet(token, word) => HandleSetEffect(s, token, word)
    case HandleClose(token) => HandleCloseEffect(s, token)
    case Car(pair) => SlotEffect(s, pair, ConsCell, 0)
    case Cdr(pair) => SlotEffect(s, pair, ConsCell, 1)
    case StringByte(text, position) => StringByteEffect(s, text, position)
    case EnterClosure(closure, argument, id) => EnterClosureEffect(s, closure, argument, id)
    case Values2(first, second, granted) => Values2Effect(s, first, second, granted)
    case NthValue(n) => NthValueEffect(s, n)
    case VectorLength(vector) => VectorLengthEffect(s, vector)
    case VectorRef(vector, position) => VectorRefEffect(s, vector, position)
  }

  ghost function HeapEffect(s: State, op: Op): Outcome<Effect>
    requires Inv(s) && !LeavesHeap(op) && !IsConstructor(op)
  {
    match op
    case CollectNow(scan, granted) => CollectEffect(s, scan, granted)
    case StringSetByte(text, position, byte) => StringSetByteEffect(s, text, position, byte)
    case Intern(package, name, scan, at) => InternEffect(s, package, name, scan, at)
    case MakeVector(length, initial, at, storageAt) => MakeVectorEffect(s, length, initial, at, storageAt)
    case VectorSet(vector, position, item) => VectorSetEffect(s, vector, position, item)
    case VectorPush(vector, item, at) => VectorPushEffect(s, vector, item, at)
  }

  ghost function Exec(s: State, op: Op): Outcome<Effect>
    requires Inv(s)
  {
    if IsConstructor(op) then Constructed(s, op)
    else if LeavesHeap(op) then TableEffect(s, op)
    else HeapEffect(s, op)
  }

  // ---------- Kinds of step ----------

  predicate SameHeap(s: State, t: State) {
    t.store == s.store && t.order == s.order && t.limit == s.limit && t.history == s.history
  }

  lemma HeapLeftAlone(s: State, op: Op)
    requires Inv(s) && LeavesHeap(op) && TableEffect(s, op).Done?
    ensures SameHeap(s, TableEffect(s, op).value.state)
  {
    hide PackagesOk, VectorsOk, NamesOk, GrowthOk, HandlesOk, HeapOk;
  }

  predicate SameTables(s: State, t: State) {
    && t.frames == s.frames && t.permanent == s.permanent
    && t.handles == s.handles && t.nextToken == s.nextToken
    && t.valuesArea == s.valuesArea && t.valueCount == s.valueCount
  }

  lemma InternLeavesTables(s: State, package: Word, name: Word, scan: Scan, at: Word)
    requires GraphOk(s, {}) && InternEffect(s, package, name, scan, at).Done?
    ensures SameTables(s, InternEffect(s, package, name, scan, at).value.state)
  {
  }

  lemma MakeVectorLeavesTables(s: State, length: Word, initial: Word, at: Word, storageAt: Word)
    requires MakeVectorEffect(s, length, initial, at, storageAt).Done?
    ensures SameTables(s, MakeVectorEffect(s, length, initial, at, storageAt).value.state)
  {
  }

  lemma PushLeavesTables(s: State, v: Word, item: Word, at: Word)
    requires VectorsOk(s.store, {}) && GrowthOk(s, {}) && VectorPushEffect(s, v, item, at).Done?
    ensures SameTables(s, VectorPushEffect(s, v, item, at).value.state)
  {
  }

  lemma HeapCallsLeaveTables(s: State, op: Op)
    requires Inv(s) && !LeavesHeap(op) && !IsConstructor(op) && HeapEffect(s, op).Done?
    ensures SameTables(s, HeapEffect(s, op).value.state)
  {
    if op.Intern? {
      InternLeavesTables(s, op.package, op.name, op.scan, op.at);
    } else if op.MakeVector? {
      MakeVectorLeavesTables(s, op.length, op.initial, op.at, op.storageAt);
    } else if op.VectorPush? {
      PushLeavesTables(s, op.vector, op.item, op.at);
    }
  }

  /** Calls that work on the heap return with the roots, handles and values they found. */
  lemma TablesLeftAlone(s: State, op: Op)
    requires Inv(s) && !LeavesHeap(op) && Exec(s, op).Done?
    ensures SameTables(s, Exec(s, op).value.state)
  {
    if !IsConstructor(op) {
      HeapCallsLeaveTables(s, op);
    }
  }
}
