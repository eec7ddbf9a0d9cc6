/** The runtime as a value: its state, the four primitive changes every operation is
    made of, and the invariant that holds whatever clients do. */
module Machine {
  import opened Words
  import opened Heap

  datatype Frame = Frame(id: Word, words: seq<Word>)
  datatype Handle = Handle(token: Word, value: Word)

  /** What the C code does not record, and only states the cost theorems: the objects allocated
      so far, how many there were when each automatic collection started, and the elements
      copied while growing each vector. */
  datatype History = History(allocations: nat, starts: seq<nat>, copied: map<Word, nat>)

  /** `order` is the object list and `frames` the root stack, both newest first. */
  datatype State = State(
    store: Store, order: seq<Word>, limit: nat,
    frames: seq<Frame>, permanent: seq<seq<Word>>,
    handles: seq<Handle>, nextToken: Word,
    valuesArea: Option<nat>, valueCount: nat,
    history: History)

  const INITIAL: State :=
    State(map[], [], 256, [], [], [], 1, None, 0, History(0, [], map[]))

  // ---------- Roots ----------

  ghost function FrameWords(frames: seq<Frame>): set<Word> {
    if frames == [] then {} else SeqSet(frames[0].words) + FrameWords(frames[1..])
  }

  ghost function AreaWords(areas: seq<seq<Word>>): set<Word> {
    if areas == [] then {} else SeqSet(areas[0]) + AreaWords(areas[1..])
  }

  ghost function HandleWords(handles: seq<Handle>): set<Word> {
    if handles == [] then {} else {handles[0].value} + HandleWords(handles[1..])
  }

  /** Every registered word: root frames, permanent roots and open handles. */
  ghost function RootSet(s: State): set<Word> {
    FrameWords(s.frames) + AreaWords(s.permanent) + HandleWords(s.handles)
  }

  /** What the registered roots keep alive. */
  ghost function Rooted(s: State): set<Word> {
    Live(s.store, RootSet(s))
  }

  // ---------- Primitive changes ----------

  function NextLimit(count: nat): nat {
    if count < 128 then 256 else count * 2
  }

  /** A collection that treats `extra` as roots besides the registered ones. */
  ghost function Collect(s: State, extra: set<Word>): State {
    var live := Live(s.store, RootSet(s) + extra);
    var order := Keep(s.order, live);
    s.(store := Restrict(s.store, live), order := order, limit := NextLimit(|order|))
  }

  /** The collection that an allocation starts when the limit is reached. */
  ghost function Settle(s: State, extra: set<Word>): State {
    if |s.order| < s.limit then s
    else
      var t := Collect(s, extra);
      t.(history := t.history.(starts := t.history.starts + [t.history.allocations]))
  }

  function Insert(s: State, a: Word, b: Body): State {
    s.(store := s.store[a := b], order := [a] + s.order,
       history := s.history.(allocations := s.history.allocations + 1))
  }

  function Write(s: State, a: Word, b: Body): State {
    s.(store := s.store[a := b])
  }

  /** The elements copied so far while growing vector v. */
  function WithCopied(s: State, v: Word, k: nat): State {
    s.(history := s.history.(copied := s.history.copied[v := k]))
  }

  /** `at` is what the C allocator answers. Null and misaligned answers abort; an address
      that is still live is never answered, so it counts as null. */
  predicate Usable(s: State, at: Word) {
    HeapTagged(at) && at !in s.store
  }

  /** One allocation: the collection it may start, then the new object. */
  ghost function Allocate(s: State, extra: set<Word>, at: Word, b: Body): Outcome<State> {
    var t := Settle(s, extra);
    if !Usable(t, at) then Aborted else Done(Insert(t, at, b))
  }

  // ---------- Invariant ----------

  /** The object list names each live object once; addresses are aligned and not null. */
  ghost predicate ListOk(s: State) {
    && Distinct(s.order)
    && SeqSet(s.order) == s.store.Keys
    && (forall a :: a in s.store ==> HeapTagged(a))
  }

  ghost predicate BodiesOk(store: Store) {
    forall a :: a in store ==> BodyOk(store[a])
  }

  ghost predicate HeapOk(s: State) {
    ListOk(s) && BodiesOk(s.store)
  }

  /** Symbols and packages are named by live strings. */
  ghost predicate NamesOk(store: Store) {
    forall a :: a in store && (store[a].kind.Symbol? || store[a].kind.Package?) ==>
      IsA(store, store[a].slots[0], ByteString)
  }

  /** c lists the symbols of package p from the word w on: a finite chain ending in NIL. */
  ghost predicate Chain(store: Store, p: Word, w: Word, c: seq<Word>)
    decreases c
  {
    if c == [] then w == NIL
    else
      && w != NIL && w == c[0] && IsA(store, w, Symbol) && store[w].slots[1] == p
      && Chain(store, p, store[w].slots[2], c[1..])
  }

  ghost predicate HasChain(store: Store, p: Word) {
    p in store && exists c :: Chain(store, p, store[p].slots[1], c)
  }

  ghost predicate PackagesOk(store: Store) {
    forall p :: IsA(store, p, Package) ==> HasChain(store, p)
  }

  /** A vector header owns a storage object that is large enough; spare items are NIL. */
  ghost predicate Backed(store: Store, v: Word)
    requires v in store
  {
    var w := store[v].slots[0];
    && IsA(store, w, VectorStorage)
    && store[v].length <= store[w].length == |store[w].items|
    && forall i :: store[v].length <= i < |store[w].items| ==> store[w].items[i] == NIL
  }

  /** No two headers share storage. A header in `pending` is still being built. */
  ghost predicate VectorsOk(store: Store, pending: set<Word>) {
    && (forall v :: IsA(store, v, ValueVector) && v !in pending ==> Backed(store, v))
    && (forall u, v ::
          && IsA(store, u, ValueVector) && IsA(store, v, ValueVector)
          && u !in pending && v !in pending && store[u].slots[0] == store[v].slots[0]
          ==> u == v)
  }

  ghost predicate GrowthPaid(s: State, v: Word)
    requires v in s.store && s.store[v].slots[0] in s.store
  {
    var capacity := s.store[s.store[v].slots[0]].length;
    && v in s.history.copied
    && s.history.copied[v] <= capacity
    && (s.history.copied[v] == 0 || capacity <= 2 * s.store[v].length)
  }

  /** All elements ever copied while growing a vector are paid for by its capacity. */
  ghost predicate GrowthOk(s: State, pending: set<Word>) {
    forall v :: IsA(s.store, v, ValueVector) && v !in pending ==>
      s.store[v].slots[0] in s.store && GrowthPaid(s, v)
  }

  /** Tokens strictly decrease along the list and stay between 1 and the next token. */
  ghost predicate HandlesOk(s: State) {
    && s.nextToken >= 1
    && (forall i :: 0 <= i < |s.handles| ==> 1 <= s.handles[i].token < s.nextToken)
    && (forall i, j :: 0 <= i < j < |s.handles| ==> s.handles[i].token > s.handles[j].token)
  }

  ghost predicate ValuesOk(s: State) {
    && (s.valuesArea.Some? ==>
          s.valuesArea.value < |s.permanent| && |s.permanent[s.valuesArea.value]| == 2)
    && s.valueCount == if s.valuesArea.Some? then 2 else 0
  }

  /** Allocations that can still happen before an automatic collection, counted up to 128. */
  function Slack(s: State): int {
    if s.limit - |s.order| < 128 then s.limit - |s.order| else 128
  }

  ghost predicate PacingOk(s: State) {
    && |s.order| <= s.limit
    && 128 * |s.history.starts| + 128 - Slack(s) <= s.history.allocations
  }

  /** Everything about the heap graph except what pending headers still owe. */
  ghost predicate GraphOk(s: State, pending: set<Word>) {
    && HeapOk(s) && NamesOk(s.store) && PackagesOk(s.store)
    && VectorsOk(s.store, pending) && GrowthOk(s, pending)
  }

  ghost predicate InvExcept(s: State, pending: set<Word>) {
    GraphOk(s, pending) && HandlesOk(s) && ValuesOk(s) && PacingOk(s)
  }

  ghost predicate Inv(s: State) {
    InvExcept(s, {})
  }

  // ---------- Collection keeps the invariant ----------

  lemma CollectKeepsHeap(s: State, extra: set<Word>)
    requires HeapOk(s)
    ensures HeapOk(Collect(s, extra))
  {
    KeepElements(s.order, Live(s.store, RootSet(s) + extra));
  }

  /** What is in a chain hangs off its package, so it survives with the package. */
  lemma {:induction false} ChainSurvives(store: Store, keep: set<Word>, p: Word, w: Word, c: seq<Word>)
    requires Chain(store, p, w, c) && ClosedUnder(store, keep)
    requires w in store ==> w in keep
    ensures Chain(Restrict(store, keep), p, w, c)
    decreases c
  {
    if c != [] {
      assert store[w].slots[2] in Children(store[w]);
      ChainSurvives(store, keep, p, store[w].slots[2], c[1..]);
    }
  }

  lemma CollectKeepsPackages(store: Store, keep: set<Word>)
    requires PackagesOk(store) && ClosedUnder(store, keep)
    ensures PackagesOk(Restrict(store, keep))
  {
    var kept := Restrict(store, keep);
    forall p | IsA(kept, p, Package)
      ensures HasChain(kept, p)
    {
      assert IsA(store, p, Package);
      var c :| Chain(store, p, store[p].slots[1], c);
      assert store[p].slots[1] in Children(store[p]);
      ChainSurvives(store, keep, p, store[p].slots[1], c);
    }
  }

  lemma FirstSlotSurvives(store: Store, keep: set<Word>, a: Word)
    requires ClosedUnder(store, keep) && a in store && a in keep
    requires !store[a].kind.ByteString? && !store[a].kind.VectorStorage?
    requires store[a].slots[0] in store
    ensures store[a].slots[0] in keep
  {
    assert Children(store[a])[0] == store[a].slots[0];
  }

  lemma CollectKeepsNamesAndVectors(store: Store, keep: set<Word>, pending: set<Word>)
    requires ClosedUnder(store, keep)
    ensures NamesOk(store) ==> NamesOk(Restrict(store, keep))
    ensures VectorsOk(store, pending) ==> VectorsOk(Restrict(store, keep), pending)
  {
    var kept := Restrict(store, keep);
    forall a | a in kept && !store[a].kind.ByteString? && !store[a].kind.VectorStorage? && store[a].slots[0] in store
      ensures store[a].slots[0] in keep
    {
      FirstSlotSurvives(store, keep, a);
    }
    if VectorsOk(store, pending) {
      forall v | IsA(kept, v, ValueVector) && v !in pending
        ensures Backed(kept, v)
      {
        assert IsA(store, v, ValueVector) && Backed(store, v);
      }
      forall u, v | IsA(kept, u, ValueVector) && IsA(kept, v, ValueVector) &&
                    u !in pending && v !in pending && kept[u].slots[0] == kept[v].slots[0]
        ensures u == v
      {
        assert IsA(store, u, ValueVector) && IsA(store, v, ValueVector);
      }
    }
  }

  lemma CollectKeepsGrowth(s: State, extra: set<Word>, pending: set<Word>)
    requires GrowthOk(s, pending)
    ensures GrowthOk(Collect(s, extra), pending)
  {
    var live := Live(s.store, RootSet(s) + extra);
    LiveIsClosed(s.store, RootSet(s) + extra);
    var t := Collect(s, extra);
    forall v | IsA(t.store, v, ValueVector) && v !in pending
      ensures t.store[v].slots[0] in t.store && GrowthPaid(t, v)
    {
      assert IsA(s.store, v, ValueVector);
      FirstSlotSurvives(s.store, live, v);
    }
  }

  lemma CollectKeepsGraph(s: State, extra: set<Word>, pending: set<Word>)
    requires GraphOk(s, pending)
    ensures GraphOk(Collect(s, extra), pending)
  {
    var live := Live(s.store, RootSet(s) + extra);
    LiveIsClosed(s.store, RootSet(s) + extra);
    CollectKeepsHeap(s, extra);
    CollectKeepsPackages(s.store, live);
    CollectKeepsNamesAndVectors(s.store, live, pending);
    CollectKeepsGrowth(s, extra, pending);
  }

  lemma CollectKeepsInv(s: State, extra: set<Word>, pending: set<Word>)
    requires InvExcept(s, pending)
    ensures InvExcept(Collect(s, extra), pending)
    ensures InvExcept(Settle(s, extra), pending)
    ensures |Settle(s, extra).order| < Settle(s, extra).limit
  {
    hide Live, RootSet, Restrict, Keep;
    CollectKeepsGraph(s, extra, pending);
    assert PacingOk(Collect(s, extra));
  }

  /** Objects the call names stay, with their contents, through the collection it may cause. */
  lemma SettleKeeps(s: State, extra: set<Word>, a: Word)
    requires a in Live(s.store, RootSet(s) + extra)
    ensures a in Settle(s, extra).store && Settle(s, extra).store[a] == s.store[a]
  {
  }

  lemma SettleKeepsExtra(s: State, extra: set<Word>, a: Word)
    requires a in extra && a in s.store
    ensures a in Settle(s, extra).store && Settle(s, extra).store[a] == s.store[a]
  {
    RootIsLive(s.store, RootSet(s) + extra, a);
  }

  /** A header named by the call keeps its storage too. */
  lemma VectorSettles(s: State, extra: set<Word>, v: Word)
    requires v in extra && v in s.store && s.store[v].kind.ValueVector? && s.store[v].slots[0] in s.store
    ensures var t := Settle(s, extra); var w := s.store[v].slots[0];
      v in t.store && t.store[v] == s.store[v] && w in t.store && t.store[w] == s.store[w]
  {
    SettleKeepsExtra(s, extra, v);
    RootIsLive(s.store, RootSet(s) + extra, v);
    assert s.store[v].slots[0] in Children(s.store[v]);
    ChildIsLive(s.store, RootSet(s) + extra, v, s.store[v].slots[0]);
    SettleKeeps(s, extra, s.store[v].slots[0]);
  }

  function Pushed(s: State, frame: Frame): State {
    s.(frames := [frame] + s.frames)
  }

  /** A pushed frame protects exactly its words during a collection. */
  lemma PushedSettle(s: State, frame: Frame, extra: set<Word>, all: set<Word>)
    requires all == SeqSet(frame.words) + extra
    ensures Settle(Pushed(s, frame), extra) == Pushed(Settle(s, all), frame)
  {
    assert Pushed(s, frame).frames[1..] == s.frames;
    assert RootSet(Pushed(s, frame)) + extra == RootSet(s) + all;
  }

  lemma SettleKeepsBodies(s: State, extra: set<Word>)
    requires BodiesOk(s.store)
    ensures BodiesOk(Settle(s, extra).store)
  {
  }
}
