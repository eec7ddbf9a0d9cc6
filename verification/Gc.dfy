/** The collector itself (runtime/gc.c): the linked object list, the root and handle tables,
    marking with a worklist, sweeping through the links, and allocation. */
module Gc {
  import opened Bits
  import opened Words
  import opened Heap
  import opened Machine
  import opened Operations

  // ---------- The object list ----------

  /** The word after position i - 1 of the list: an address, or null at the end. */
  function At(order: seq<Word>, i: nat): Word {
    if i < |order| then order[i] else 0
  }

  /** Following `next` from head visits exactly these objects and then null. */
  ghost predicate Linked(head: Word, next: map<Word, Word>, order: seq<Word>)
    decreases order
  {
    && head == At(order, 0)
    && (order != [] ==> head in next && Linked(next[head], next, order[1..]))
  }

  lemma {:induction false} LinkedFrame(head: Word, next: map<Word, Word>, next': map<Word, Word>, order: seq<Word>)
    requires Linked(head, next, order)
    requires forall a :: a in order ==> a in next' && (a in next ==> next'[a] == next[a])
    ensures Linked(head, next', order)
    decreases order
  {
    if order != [] {
      assert head in order;
      LinkedFrame(next[head], next, next', order[1..]);
    }
  }

  lemma {:induction false} LinkedMembers(head: Word, next: map<Word, Word>, order: seq<Word>)
    requires Linked(head, next, order)
    ensures forall a :: a in order ==> a in next
    decreases order
  {
    if order != [] {
      LinkedMembers(next[head], next, order[1..]);
      assert order == [order[0]] + order[1..];
    }
  }

  lemma {:induction false} LinkedSuffix(head: Word, next: map<Word, Word>, done: seq<Word>, rest: seq<Word>)
    requires Linked(head, next, done + rest)
    ensures Linked(At(rest, 0), next, rest)
    decreases done
  {
    if done == [] {
      assert done + rest == rest;
    } else {
      assert (done + rest)[1..] == done[1..] + rest;
      LinkedSuffix(next[head], next, done[1..], rest);
    }
  }

  function Last(s: seq<Word>): Word {
    if s == [] then 0 else s[|s| - 1]
  }

  /** Redirecting the link before c takes exactly that object out of the list. */
  lemma {:induction false} Unlink(head: Word, next: map<Word, Word>, done: seq<Word>, c: Word, rest: seq<Word>,
                                  head': Word, next': map<Word, Word>)
    requires Linked(head, next, done + [c] + rest) && Distinct(done + [c] + rest)
    requires c in next && next[c] == At(rest, 0)
    requires done == [] ==> head' == next[c]
    requires done != [] ==> head' == head && Last(done) in next' && next'[Last(done)] == next[c]
    requires forall a :: a in next && a != c && (done == [] || a != Last(done)) ==> a in next' && next'[a] == next[a]
    ensures Linked(head', next', done + rest)
    decreases done
  {
    var before := done + [c] + rest;
    DistinctWithout(done, c, rest);
    if |done| <= 1 {
      LinkedSuffix(head, next, done + [c], rest);
      LinkedMembers(At(rest, 0), next, rest);
      if done != [] {
        assert before[0] == done[0];
        assert forall i :: 0 <= i < |rest| ==> before[2 + i] == rest[i];
        assert done[0] !in rest;
        assert (done + rest)[1..] == rest;
      } else {
        assert done + rest == rest;
      }
      LinkedFrame(At(rest, 0), next, next', rest);
    } else {
      var d := done[1..];
      assert before[1..] == d + [c] + rest;
      assert Last(d) == Last(done);
      assert before[0] == done[0] == head && before[|done| - 1] == Last(done) && head != Last(done);
      assert (done + rest)[1..] == d + rest;
      assert At(before, 1) == At(d, 0);
      Unlink(next[head], next, d, c, rest, next[head], next');
    }
  }

  lemma DistinctWithout<T>(done: seq<T>, c: T, rest: seq<T>)
    requires Distinct(done + [c] + rest)
    ensures Distinct(done + rest) && c !in done && c !in rest
    ensures SeqSet(done + rest) == SeqSet(done + [c] + rest) - {c}
  {
    var before, after := done + [c] + rest, done + rest;
    assert before[|done|] == c;
    assert forall i :: 0 <= i < |after| ==> after[i] == before[if i < |done| then i else i + 1];
    assert forall i :: 0 <= i < |done| ==> before[i] == done[i];
    assert forall i :: 0 <= i < |rest| ==> before[|done| + 1 + i] == rest[i];
  }

  lemma DistinctSnoc<T>(s: seq<T>, x: T)
    requires Distinct(s) && x !in s
    ensures Distinct(s + [x]) && SeqSet(s + [x]) == SeqSet(s) + {x}
  {
  }

  lemma SubsetSize<T>(a: set<T>, b: set<T>)
    requires a <= b
    ensures |a| <= |b|
  {
    assert b == a + (b - a);
  }

  /** An unmarked object always finds room in the worklist. */
  lemma WorklistHasRoom(order: seq<Word>, store: Store, work: seq<Word>, marked: set<Word>, value: Word)
    requires Distinct(order) && SeqSet(order) == store.Keys
    requires Distinct(work) && SeqSet(work) == marked && marked <= store.Keys
    requires value in store && value !in marked
    ensures |work| < |order|
  {
    DistinctCount(order);
    DistinctCount(work);
    SubsetSize(marked + {value}, store.Keys);
  }

  lemma WorklistFits(order: seq<Word>, store: Store, work: seq<Word>, marked: set<Word>)
    requires Distinct(order) && SeqSet(order) == store.Keys
    requires Distinct(work) && SeqSet(work) == marked && marked <= store.Keys
    ensures |work| <= |order|
  {
    DistinctCount(order);
    DistinctCount(work);
    SubsetSize(marked, store.Keys);
  }

  /** The worklist loop so far: only reachable objects are marked, all named roots are, and
      so are the children of the first n objects of the worklist. */
  ghost predicate Marking(store: Store, roots: set<Word>, work: seq<Word>, n: nat, marked: set<Word>) {
    && n <= |work| && SeqSet(work) == marked
    && roots * store.Keys <= marked <= Live(store, roots)
    && forall j :: 0 <= j < n ==> work[j] in store && SeqSet(Children(store[work[j]])) * store.Keys <= marked
  }

  lemma MarkingStarts(store: Store, roots: set<Word>, work: seq<Word>, marked: set<Word>)
    requires SeqSet(work) == marked == roots * store.Keys
    ensures Marking(store, roots, work, 0, marked)
  {
    LiveIsClosed(store, roots);
  }

  lemma MarkingContinues(store: Store, roots: set<Word>, before: seq<Word>, work: seq<Word>, n: nat,
                         prior: set<Word>, marked: set<Word>)
    requires Marking(store, roots, before, n, prior) && n < |before| <= |work| && before == work[..|before|]
    requires before[n] in store && marked == prior + SeqSet(Children(store[before[n]])) * store.Keys == SeqSet(work)
    ensures Marking(store, roots, work, n + 1, marked)
  {
    var a := before[n];
    forall c | c in Children(store[a]) && c in store
      ensures c in Live(store, roots)
    {
      ChildIsLive(store, roots, a, c);
    }
    assert forall j :: 0 <= j <= n ==> work[j] == before[j];
  }

  lemma MarkingEnds(store: Store, roots: set<Word>, work: seq<Word>, marked: set<Word>)
    requires Marking(store, roots, work, |work|, marked)
    ensures marked == Live(store, roots)
  {
    forall a, c | a in marked && a in store && c in Children(store[a]) && c in store
      ensures c in marked
    {
      assert a in SeqSet(work);
      var j :| 0 <= j < |work| && work[j] == a;
      assert c in SeqSet(Children(store[work[j]]));
    }
    LiveIsLeast(store, roots, marked);
  }

  lemma NullEndsList(rest: seq<Word>, keys: set<Word>)
    requires At(rest, 0) == 0 && 0 !in keys && forall a :: a in rest ==> a in keys
    ensures rest == []
  {
    assert forall i :: 0 <= i < |rest| ==> rest[i] in keys;
  }

  /** How many slots of an object the collector scans. */
  function SlotCount(kind: Kind): (n: nat)
    ensures n <= 3
  {
    match kind
    case ConsCell => 2
    case ByteString => 0
    case Symbol => 3
    case Package => 2
    case Closure => 1
    case ValueVector => 1
    case VectorStorage => 0
  }

  /** What calloc leaves in a new object. */
  function ZeroBody(kind: Kind, extraBytes: nat): Body {
    Body(kind, 0, [0, 0, 0], 0,
         if kind.ByteString? then Fill(extraBytes, 0) else [],
         if kind.VectorStorage? then Fill(extraBytes / 8, 0) else [])
  }

  // ---------- The sweep ----------

  /** The concrete heap: list head, links, marks, objects and their number. */
  datatype LinkedHeap =
    LinkedHeap(head: Word, next: map<Word, Word>, marked: set<Word>, store: Store, count: nat)

  ghost predicate Listed(l: LinkedHeap, order: seq<Word>) {
    && Distinct(order) && Linked(l.head, l.next, order)
    && SeqSet(order) == l.store.Keys == l.next.Keys && l.count == |order|
  }

  ghost predicate Sound(l: LinkedHeap, order: seq<Word>) {
    Listed(l, order) && forall a :: a in l.store ==> HeapTagged(a)
  }

  /** The sweep has passed and kept `done`; `rest` is still ahead. */
  ghost predicate Swept(l: LinkedHeap, done: seq<Word>, rest: seq<Word>, keep: set<Word>, link: Word, current: Word) {
    && Listed(l, done + rest) && l.marked == SeqSet(rest) * keep
    && link == Last(done) && current == At(rest, 0)
  }

  lemma SweepPosition(l: LinkedHeap, done: seq<Word>, rest: seq<Word>)
    requires Listed(l, done + rest) && rest != []
    ensures rest[0] in l.next && l.next[rest[0]] == At(rest, 1)
    ensures done + rest == done + [rest[0]] + rest[1..]
    ensures done != [] ==> Last(done) in l.store
  {
    LinkedSuffix(l.head, l.next, done, rest);
    if done != [] {
      assert (done + rest)[|done| - 1] == Last(done);
      assert Last(done) in SeqSet(done + rest);
    }
  }

  lemma SweepKeeps(l: LinkedHeap, done: seq<Word>, rest: seq<Word>, keep: set<Word>, link: Word, current: Word)
    requires Swept(l, done, rest, keep, link, current) && rest != [] && current in keep
    ensures current in l.next
    ensures Swept(l.(marked := l.marked - {current}), done + [current], rest[1..], keep, current, l.next[current])
  {
    hide Linked, SeqSet;
    SweepPosition(l, done, rest);
    DistinctWithout(done, rest[0], rest[1..]);
    MarkedShrinks(rest, keep);
  }

  lemma MarkedShrinks(rest: seq<Word>, keep: set<Word>)
    requires rest != [] && rest[0] in keep && rest[0] !in rest[1..]
    ensures SeqSet(rest) * keep - {rest[0]} == SeqSet(rest[1..]) * keep
  {
    assert rest == [rest[0]] + rest[1..];
  }

  lemma SweepFrees(l: LinkedHeap, done: seq<Word>, rest: seq<Word>, keep: set<Word>, link: Word, current: Word,
                   l': LinkedHeap)
    requires Swept(l, done, rest, keep, link, current) && rest != [] && current !in keep
    requires 0 !in l.store && current in l.next && (link != 0 ==> link in l.next)
    requires l'.head == if link == 0 then l.next[current] else l.head
    requires l'.next == (if link == 0 then l.next else l.next[link := l.next[current]]) - {current}
    requires l'.marked == l.marked && l'.store == l.store - {current} && l'.count == l.count - 1
    ensures Swept(l', done, rest[1..], keep, link, l.next[current])
  {
    SweepPosition(l, done, rest);
    DistinctWithout(done, rest[0], rest[1..]);
    RestShrinks(rest, keep);
    assert done != [] ==> link != 0 && link in done;
    Unlink(l.head, l.next, done, rest[0], rest[1..], l'.head, l'.next);
  }

  /** What the whole sweep maintains, against the list `all` and the objects it started with. */
  ghost predicate Sweeping(l: LinkedHeap, done: seq<Word>, rest: seq<Word>, keep: set<Word>, link: Word, current: Word,
                           all: seq<Word>, original: Store) {
    && Swept(l, done, rest, keep, link, current)
    && done + Keep(rest, keep) == Keep(all, keep)
    && SeqSet(all) == original.Keys && 0 !in original
    && forall a :: a in l.store ==> a in original && l.store[a] == original[a]
  }

  /** The ghost side of a sweep: kept so far, still ahead, and what it started with. */
  datatype Progress = Progress(done: seq<Word>, rest: seq<Word>, keep: set<Word>, all: seq<Word>, original: Store)

  ghost predicate SweepingAt(l: LinkedHeap, g: Progress, link: Word, current: Word) {
    Sweeping(l, g.done, g.rest, g.keep, link, current, g.all, g.original)
  }

  lemma SweepStarts(l: LinkedHeap, all: seq<Word>)
    requires Listed(l, all) && 0 !in l.store && l.marked <= l.store.Keys
    ensures Sweeping(l, [], all, l.marked, 0, l.head, all, l.store)
  {
    assert [] + all == all;
    assert [] + Keep(all, l.marked) == Keep(all, l.marked);
    assert SeqSet(all) * l.marked == l.marked;
  }

  lemma SweepAt(l: LinkedHeap, done: seq<Word>, rest: seq<Word>, keep: set<Word>, link: Word, current: Word,
                all: seq<Word>, original: Store)
    requires Sweeping(l, done, rest, keep, link, current, all, original) && current != 0
    ensures rest != [] && current in l.next && l.count > 0 && (current in l.marked <==> current in keep)
    ensures link != 0 ==> link in l.next
  {
    SweepPosition(l, done, rest);
  }

  lemma SweepContinuesKeeping(l: LinkedHeap, done: seq<Word>, rest: seq<Word>, keep: set<Word>,
                              link: Word, current: Word, all: seq<Word>, original: Store)
    requires Sweeping(l, done, rest, keep, link, current, all, original) && current != 0 && current in keep
    requires current in l.next
    ensures Sweeping(Unmarked(l, current), done + [current], rest[1..], keep, current, l.next[current], all, original)
  {
    SweepPosition(l, done, rest);
    SweepKeeps(l, done, rest, keep, link, current);
    assert done + Keep(rest, keep) == done + [current] + Keep(rest[1..], keep);
  }

  function Unmarked(l: LinkedHeap, current: Word): LinkedHeap {
    l.(marked := l.marked - {current})
  }

  /** Take `current` out of the list and free it. */
  function Freed(l: LinkedHeap, link: Word, current: Word): LinkedHeap
    requires current in l.next && l.count > 0
  {
    var next := if link == 0 then l.next else l.next[link := l.next[current]];
    var head := if link == 0 then l.next[current] else l.head;
    LinkedHeap(head, next - {current}, l.marked, l.store - {current}, l.count - 1)
  }

  lemma SweepContinuesFreeing(l: LinkedHeap, done: seq<Word>, rest: seq<Word>, keep: set<Word>,
                              link: Word, current: Word, all: seq<Word>, original: Store)
    requires Sweeping(l, done, rest, keep, link, current, all, original) && current != 0 && current !in keep
    requires current in l.next && l.count > 0
    ensures Sweeping(Freed(l, link, current), done, rest[1..], keep, link, l.next[current], all, original)
  {
    SweepPosition(l, done, rest);
    SweepFrees(l, done, rest, keep, link, current, Freed(l, link, current));
  }

  lemma LinkedCons(head: Word, next: map<Word, Word>, order: seq<Word>, a: Word)
    requires Linked(head, next, order) && a !in order && forall x :: x in order ==> x in next
    ensures Linked(a, next[a := head], [a] + order)
  {
    assert ([a] + order)[1..] == order;
    LinkedFrame(head, next, next[a := head], order);
  }

  lemma ListedGrows(l: LinkedHeap, order: seq<Word>, a: Word, b: Body)
    requires Listed(l, order) && a !in l.store
    ensures Listed(LinkedHeap(a, l.next[a := l.head], l.marked, l.store[a := b], l.count + 1), [a] + order)
  {
    assert a !in order by { assert a !in SeqSet(order); }
    assert SeqSet([a] + order) == {a} + l.store.Keys && Distinct([a] + order) by { DistinctCons(a, order); }
    assert Linked(a, l.next[a := l.head], [a] + order) by {
      LinkedMembers(l.head, l.next, order);
      LinkedCons(l.head, l.next, order, a);
    }
  }

  lemma ListGrows(l: LinkedHeap, order: seq<Word>, a: Word, b: Body)
    requires Sound(l, order) && HeapTagged(a) && a !in l.store
    ensures Sound(LinkedHeap(a, l.next[a := l.head], l.marked, l.store[a := b], l.count + 1), [a] + order)
  {
    ListedGrows(l, order, a, b);
  }

  lemma KeysOfUpdate(store: Store, a: Word, b: Body)
    requires a in store
    ensures store[a := b].Keys == store.Keys
  {
  }

  lemma DistinctCons<T>(x: T, s: seq<T>)
    requires Distinct(s) && x !in s
    ensures Distinct([x] + s) && SeqSet([x] + s) == {x} + SeqSet(s)
  {
  }

  function SweptState(s: State, live: set<Word>): State {
    s.(store := Restrict(s.store, live), order := Keep(s.order, live))
  }

  /** The result of a whole sweep from l0 to l1. */
  ghost predicate SweptClean(l0: LinkedHeap, l1: LinkedHeap, all: seq<Word>, done: seq<Word>) {
    && done == Keep(all, l0.marked) && l1.store == Restrict(l0.store, l0.marked) && l1.marked == {}
    && Sound(l1, done)
  }

  lemma SweepEnds(l0: LinkedHeap, l: LinkedHeap, done: seq<Word>, rest: seq<Word>, link: Word, all: seq<Word>)
    requires Sweeping(l, done, rest, l0.marked, link, 0, all, l0.store)
    requires forall a :: a in l0.store ==> HeapTagged(a)
    ensures SweptClean(l0, l, all, done)
  {
    assert forall a :: a in rest ==> a in SeqSet(done + rest);
    NullEndsList(rest, l.store.Keys);
    assert done + rest == done;
    KeepMembers(all, l0.marked);
    assert forall a :: a in l0.store ==> a in SeqSet(all);
  }

  lemma RestShrinks(rest: seq<Word>, keep: set<Word>)
    requires rest != [] && rest[0] !in keep
    ensures SeqSet(rest) * keep == SeqSet(rest[1..]) * keep
  {
    assert rest == [rest[0]] + rest[1..];
  }

  // ---------- The runtime ----------

  class Runtime {
    var objects: Word
    var next: map<Word, Word>
    var marked: set<Word>
    var store: Store
    var objectCount: nat
    var collectionLimit: nat
    var roots: seq<Frame>
    var permanentRoots: seq<seq<Word>>
    var handles: seq<Handle>
    var nextValueHandle: Word
    var valueHandleCount: nat
    var valuesArea: Option<nat>
    var valueCount: nat
    ghost var order: seq<Word>
    ghost var history: History

    ghost function View(): State
      reads this
    {
      State(store, order, collectionLimit, roots, permanentRoots, handles, nextValueHandle,
            valuesArea, valueCount, history)
    }

    ghost function Concrete(): LinkedHeap
      reads `objects, `next, `marked, `store, `objectCount
    {
      LinkedHeap(objects, next, marked, store, objectCount)
    }

    /** The object list is well-formed, in the middle of a collection too. */
    ghost predicate ListSound()
      reads `objects, `next, `store, `objectCount, `order
    {
      Sound(LinkedHeap(objects, next, {}, store, objectCount), order)
    }

    /** Well-formed between operations. */
    ghost predicate Valid()
      reads this
    {
      ListSound() && marked == {} && valueHandleCount == |handles|
    }

    constructor ()
      ensures Valid() && View() == INITIAL
    {
      objects, next, marked, store := 0, map[], {}, map[];
      objectCount, collectionLimit := 0, 256;
      roots, permanentRoots := [], [];
      handles, nextValueHandle, valueHandleCount := [], 1, 0;
      valuesArea, valueCount := None, 0;
      order, history := [], History(0, [], map[]);
    }

    /** The address itself when it names a live object, null otherwise. */
    method FindObject(value: Word) returns (found: Word)
      requires ListSound()
      ensures found == if value in store then value else 0
    {
      if value == 0 || And(value, 7) != 0 {
        return 0;
      }
      var current := objects;
      ghost var rest := order;
      while current != 0
        invariant Linked(current, next, rest)
        invariant forall a :: a in rest ==> a in store
        invariant value in store ==> value in rest
        decreases |rest|
      {
        if current == value {
          return current;
        }
        assert rest == [current] + rest[1..];
        current := next[current];
        rest := rest[1..];
      }
      NullEndsList(rest, store.Keys);
      return 0;
    }

    /** No kind (zero in C) accepts every object. */
    method ExpectObject(value: Word, kind: Option<Kind>) returns (r: Outcome<Word>)
      requires ListSound()
      ensures r == if value in store && (kind == None || store[value].kind == kind.value) then Done(value) else Aborted
    {
      var found := FindObject(value);
      assert value in store ==> value != 0;
      if found == 0 || (kind != None && store[found].kind != kind.value) {
        return Aborted;
      }
      return Done(found);
    }

    method KindOf(value: Word) returns (r: Outcome<Kind>)
      requires ListSound()
      ensures r == if value in store then Done(store[value].kind) else Aborted
    {
      var found :- ExpectObject(value, None);
      return Done(store[found].kind);
    }

    // ---------- Roots and handles ----------

    method Push(frame: Frame)
      modifies `roots
      ensures roots == [frame] + old(roots)
    {
      roots := [frame] + roots;
    }

    method Pop(id: Word) returns (r: Outcome<Word>)
      modifies `roots
      ensures Agrees(r, View(), PopRootsEffect(old(View()), id))
      ensures old(roots) != [] && old(roots)[0].id == id ==> r.Done? && roots == old(roots)[1..]
    {
      if roots == [] || roots[0].id != id {
        return Aborted;
      }
      roots := roots[1..];
      return Done(0);
    }

    /** The client overwrites a word of an array it registered. */
    method Assign(depth: nat, index: nat, word: Word) returns (r: Outcome<Word>)
      modifies `roots
      ensures Agrees(r, View(), SetRootEffect(old(View()), depth, index, word))
    {
      if depth >= |roots| || index >= |roots[depth].words| {
        return Aborted;
      }
      roots := roots[depth := roots[depth].(words := roots[depth].words[index := word])];
      return Done(0);
    }

    method RegisterPermanentRoots(words: seq<Word>, granted: bool) returns (r: Outcome<Word>)
      modifies `permanentRoots
      ensures Agrees(r, View(), RegisterRootsEffect(old(View()), words, granted))
      ensures r.Done? ==> permanentRoots == old(permanentRoots) + [words]
    {
      if !granted {
        return Aborted;
      }
      permanentRoots := permanentRoots + [words];
      return Done(0);
    }

    /** The client overwrites a word of an array it registered for good. */
    method AssignPermanent(area: nat, index: nat, word: Word) returns (r: Outcome<Word>)
      modifies `permanentRoots
      ensures Agrees(r, View(), SetPermanentEffect(old(View()), area, index, word))
    {
      if area >= |permanentRoots| || valuesArea == Some(area) || index >= |permanentRoots[area]| {
        return Aborted;
      }
      var words: seq<Word> := permanentRoots[area][index := word];
      permanentRoots := permanentRoots[area := words];
      return Done(0);
    }

    /** Position of the handle in the list. */
    method FindValueHandle(token: Word) returns (r: Outcome<nat>)
      ensures r == if token == 0 || HandleIndex(handles, token) == |handles| then Aborted
                   else Done(HandleIndex(handles, token))
    {
      if token == 0 {
        return Aborted;
      }
      var i := LinkBefore(token);
      if i == |handles| {
        return Aborted;
      }
      return Done(i);
    }

    /** Walk the links until the one that leads to the token, or to the end. */
    method LinkBefore(token: Word) returns (i: nat)
      ensures i == HandleIndex(handles, token)
    {
      i := 0;
      while i < |handles| && handles[i].token != token
        invariant i <= |handles|
        invariant forall j :: 0 <= j < i ==> handles[j].token != token
      {
        i := i + 1;
      }
    }

    method HandleOpen(granted: bool) returns (r: Outcome<Word>)
      requires Valid()
      modifies `handles, `nextValueHandle, `valueHandleCount
      ensures Agrees(r, View(), HandleOpenEffect(old(View()), granted)) && Valid()
    {
      if nextValueHandle == SIZE_MAX {
        return Aborted;
      }
      if !granted {
        return Aborted;
      }
      var token := nextValueHandle;
      nextValueHandle := nextValueHandle + 1;
      handles := [Handle(token, NIL)] + handles;
      valueHandleCount := valueHandleCount + 1;
      return Done(token);
    }

    method HandleGet(token: Word) returns (r: Outcome<Word>)
      ensures Agrees(r, View(), HandleGetEffect(View(), token))
    {
      var i :- FindValueHandle(token);
      return Done(handles[i].value);
    }

    method HandleSet(token: Word, word: Word) returns (r: Outcome<Word>)
      requires Valid()
      modifies `handles
      ensures Agrees(r, View(), HandleSetEffect(old(View()), token, word)) && Valid()
    {
      var i :- FindValueHandle(token);
      handles := handles[i := handles[i].(value := word)];
      return Done(0);
    }

    method HandleClose(token: Word) returns (r: Outcome<Word>)
      requires Valid()
      modifies `handles, `valueHandleCount
      ensures Agrees(r, View(), HandleCloseEffect(old(View()), token)) && Valid()
    {
      var i := LinkBefore(token);
      if token == 0 || i == |handles| {
        return Aborted;
      }
      handles := handles[..i] + handles[i + 1..];
      valueHandleCount := valueHandleCount - 1;
      return Done(0);
    }

    // ---------- Marking ----------

    /** The worklist holds each marked object once and has one place per live object. */
    ghost predicate Working(work: array<Word>, used: nat)
      reads `marked, `store, `order, work
    {
      && used <= work.Length && |order| <= work.Length && marked <= store.Keys
      && Distinct(work[..used]) && SeqSet(work[..used]) == marked
    }

    method MarkValue(value: Word, work: array<Word>, used: nat) returns (used': nat)
      requires ListSound() && Working(work, used)
      modifies `marked, work
      ensures Working(work, used')
      ensures marked == old(marked) + {value} * store.Keys
      ensures used <= used' && work[..used] == old(work[..used])
    {
      used' := used;
      var found := FindObject(value);
      assert value in store ==> value != 0;
      if found != 0 && found !in marked {
        WorklistHasRoom(order, store, work[..used], marked, value);
        DistinctSnoc(work[..used], value);
        marked := marked + {found};
        work[used] := found;
        used' := used + 1;
        assert work[..used'] == old(work[..used]) + [value];
      }
    }

    /** One of the collector's scanning loops: mark `words` in order. */
    method MarkWords(words: seq<Word>, work: array<Word>, used: nat) returns (used': nat)
      requires ListSound() && Working(work, used)
      modifies `marked, work
      ensures Working(work, used')
      ensures marked == old(marked) + SeqSet(words) * store.Keys
      ensures used <= used' && work[..used] == old(work[..used])
    {
      used' := used;
      var rest := words;
      while rest != []
        invariant Working(work, used')
        invariant marked + SeqSet(rest) * store.Keys == old(marked) + SeqSet(words) * store.Keys
        invariant used <= used' && work[..used] == old(work[..used])
        decreases |rest|
      {
        ghost var mid := used';
        used' := MarkValue(rest[0], work, used');
        assert work[..used] == work[..mid][..used];
        assert rest == [rest[0]] + rest[1..];
        assert SeqSet(rest) == {rest[0]} + SeqSet(rest[1..]);
        rest := rest[1..];
      }
    }

    method MarkRegisteredRoots(work: array<Word>, used: nat) returns (used': nat)
      requires ListSound() && Working(work, used)
      modifies `marked, work
      ensures Working(work, used')
      ensures marked == old(marked) + RootSet(View()) * store.Keys
    {
      hide Linked, Distinct, FrameWords, AreaWords, HandleWords, Sound;
      used' := MarkFrames(work, used);
      used' := MarkPermanent(work, used');
      used' := MarkHandles(work, used');
    }

    method MarkFrames(work: array<Word>, used: nat) returns (used': nat)
      requires ListSound() && Working(work, used)
      modifies `marked, work
      ensures Working(work, used')
      ensures marked == old(marked) + FrameWords(roots) * store.Keys
    {
      used' := used;
      var rest := roots;
      while rest != []
        invariant Working(work, used')
        invariant marked + FrameWords(rest) * store.Keys == old(marked) + FrameWords(roots) * store.Keys
        decreases |rest|
      {
        used' := MarkWords(rest[0].words, work, used');
        rest := rest[1..];
      }
    }

    method MarkPermanent(work: array<Word>, used: nat) returns (used': nat)
      requires ListSound() && Working(work, used)
      modifies `marked, work
      ensures Working(work, used')
      ensures marked == old(marked) + AreaWords(permanentRoots) * store.Keys
    {
      used' := used;
      var rest := permanentRoots;
      while rest != []
        invariant Working(work, used')
        invariant marked + AreaWords(rest) * store.Keys == old(marked) + AreaWords(permanentRoots) * store.Keys
        decreases |rest|
      {
        used' := MarkWords(rest[0], work, used');
        rest := rest[1..];
      }
    }

    method MarkHandles(work: array<Word>, used: nat) returns (used': nat)
      requires ListSound() && Working(work, used)
      modifies `marked, work
      ensures Working(work, used')
      ensures marked == old(marked) + HandleWords(handles) * store.Keys
    {
      used' := used;
      var rest := handles;
      while rest != []
        invariant Working(work, used')
        invariant marked + HandleWords(rest) * store.Keys == old(marked) + HandleWords(handles) * store.Keys
        decreases |rest|
      {
        used' := MarkValue(rest[0].value, work, used');
        rest := rest[1..];
      }
    }

    /** Storage is scanned up to its length, every other kind by its number of value slots. */
    method MarkChildren(target: Word, work: array<Word>, used: nat) returns (used': nat)
      requires ListSound() && Working(work, used) && target in store && BodyOk(store[target])
      modifies `marked, work
      ensures Working(work, used')
      ensures marked == old(marked) + SeqSet(Children(store[target])) * store.Keys
      ensures used <= used' && work[..used] == old(work[..used])
    {
      var b := store[target];
      var words := if b.kind.VectorStorage? then b.items[..b.length] else b.slots[..SlotCount(b.kind)];
      assert words == Children(b);
      used' := MarkWords(words, work, used);
    }

    /** The roots that start a collection. */
    method MarkRoots(scan: Scan, work: array<Word>) returns (used: nat)
      requires ListSound() && marked == {} && |order| <= work.Length
      modifies `marked, work
      ensures Working(work, used)
      ensures marked == (RootSet(View()) + ScanWords(scan)) * store.Keys
    {
      assert work[..0] == [];
      used := MarkRegisteredRoots(work, 0);
      if scan.Conservative? {
        used := MarkWords(scan.stack, work, used);
      }
    }

    /** The loop over the growing worklist ends with exactly the reachable objects marked. */
    method MarkTransitively(work: array<Word>, used: nat, ghost all: set<Word>)
      requires ListSound() && BodiesOk(store) && Working(work, used) && marked == all * store.Keys
      modifies `marked, work
      ensures marked == Live(store, all) && marked <= store.Keys
    {
      var index, end := 0, used;
      MarkingStarts(store, all, work[..used], marked);
      while index < end
        invariant Working(work, end) && index <= end
        invariant Marking(store, all, work[..end], index, marked)
        decreases |order| - index
      {
        WorklistFits(order, store, work[..end], marked);
        ghost var before, prior := work[..end], marked;
        assert before[index] == work[index];
        end := MarkChildren(work[index], work, end);
        MarkingContinues(store, all, before, work[..end], index, prior, marked);
        index := index + 1;
      }
      MarkingEnds(store, all, work[..end], marked);
    }

    method MarkReachable(scan: Scan)
      requires Valid() && BodiesOk(store)
      modifies `marked
      ensures marked == Live(store, RootSet(View()) + ScanWords(scan)) && marked <= store.Keys
    {
      var work := new Word[if objectCount == 0 then 1 else objectCount];
      var used := MarkRoots(scan, work);
      MarkTransitively(work, used, RootSet(View()) + ScanWords(scan));
    }

    // ---------- Sweeping ----------

    /** A marked object: clear the mark, and continue from the link inside it. */
    method KeepObject(link: Word, current: Word, ghost g: Progress) returns (after: Word, ghost g': Progress)
      requires SweepingAt(Concrete(), g, link, current) && current != 0 && current in marked && current in next
      modifies `marked
      ensures SweepingAt(Concrete(), g', current, after)
      ensures |g'.rest| < |g.rest| && g'.keep == g.keep && g'.all == g.all && g'.original == g.original
    {
      SweepAt(Concrete(), g.done, g.rest, g.keep, link, current, g.all, g.original);
      SweepContinuesKeeping(Concrete(), g.done, g.rest, g.keep, link, current, g.all, g.original);
      marked := marked - {current};
      after := next[current];
      g' := g.(done := g.done + [current], rest := g.rest[1..]);
    }

    /** An unmarked object: take it out of the list and free it; the link stays. */
    method DropObject(link: Word, current: Word, ghost g: Progress) returns (after: Word, ghost g': Progress)
      requires SweepingAt(Concrete(), g, link, current) && current != 0 && current !in marked && current in next
      modifies `objects, `next, `store, `objectCount
      ensures SweepingAt(Concrete(), g', link, after)
      ensures |g'.rest| < |g.rest| && g'.keep == g.keep && g'.all == g.all && g'.original == g.original
    {
      SweepAt(Concrete(), g.done, g.rest, g.keep, link, current, g.all, g.original);
      SweepContinuesFreeing(Concrete(), g.done, g.rest, g.keep, link, current, g.all, g.original);
      after := FreeObject(link, current);
      g' := g.(rest := g.rest[1..]);
    }

    /** Walk the list through the links that lead to each object. */
    method SweepLinks(ghost all: seq<Word>) returns (ghost done: seq<Word>)
      requires Sound(Concrete(), all) && marked <= store.Keys
      modifies `objects, `next, `marked, `store, `objectCount
      ensures SweptClean(old(Concrete()), Concrete(), all, done)
    {
      ghost var l0 := Concrete();
      ghost var g := Progress([], all, l0.marked, all, l0.store);
      var link: Word := 0;
      var current := objects;
      SweepStarts(l0, all);
      while current != 0
        invariant SweepingAt(Concrete(), g, link, current)
        invariant g.keep == l0.marked && g.all == all && g.original == l0.store
        decreases |g.rest|
      {
        SweepAt(Concrete(), g.done, g.rest, g.keep, link, current, g.all, g.original);
        if current in marked {
          var after;
          after, g := KeepObject(link, current, g);
          link, current := current, after;
        } else {
          current, g := DropObject(link, current, g);
        }
      }
      done := g.done;
      SweepEnds(l0, Concrete(), done, g.rest, link, all);
    }

    method SweepObjects()
      requires ListSound() && marked <= store.Keys
      modifies `objects, `next, `marked, `store, `objectCount, `order
      ensures View() == SweptState(old(View()), old(marked))
      ensures ListSound() && marked == {}
    {
      hide Linked, Distinct, Keep, HeapTagged;
      ghost var done := SweepLinks(order);
      order := done;
    }

    /** Store the successor through the link that led here, then free the object. */
    method FreeObject(link: Word, current: Word) returns (after: Word)
      requires current in next && objectCount > 0 && (link != 0 ==> link in next)
      modifies `objects, `next, `store, `objectCount
      ensures Concrete() == Freed(old(Concrete()), link, current) && after == old(next[current])
    {
      after := next[current];
      if link == 0 {
        objects := after;
      } else {
        next := next[link := after];
      }
      next := next - {current};
      store := store - {current};
      objectCount := objectCount - 1;
    }

    // ---------- Collection and allocation ----------

    /** Aborts when there is no room for the worklist. */
    method CollectObjects(scan: Scan, granted: bool) returns (r: Outcome<Word>)
      requires Valid() && BodiesOk(store)
      modifies `objects, `next, `marked, `store, `objectCount, `order, `collectionLimit
      ensures r == if granted then Done(0) else Aborted
      ensures granted ==> View() == Collect(old(View()), ScanWords(scan)) && Valid()
    {
      hide Linked, Distinct, Keep, Live, RootSet, BodiesOk;
      if !granted {
        return Aborted;
      }
      MarkReachable(scan);
      assert View() == old(View());
      SweepObjects();
      collectionLimit := if objectCount < 128 then 256 else objectCount * 2;
      return Done(0);
    }

    /** calloc, and the new object in front of the list. */
    method NewObject(kind: Kind, extraBytes: nat, at: Word) returns (r: Outcome<Word>)
      requires Valid()
      modifies `objects, `next, `store, `objectCount, `order, `history
      ensures r == if extraBytes <= SIZE_MAX - SIZEOF_OBJECT && Usable(old(View()), at) then Done(at) else Aborted
      ensures r.Done? ==> View() == Insert(old(View()), at, ZeroBody(kind, extraBytes)) && Valid()
    {
      if extraBytes > SIZE_MAX - SIZEOF_OBJECT {
        return Aborted;
      }
      var address: Word := if at in store then 0 else at;
      if address == 0 || And(address, 7) != 0 {
        return Aborted;
      }
      Prepend(address, ZeroBody(kind, extraBytes));
      return Done(address);
    }

    method Prepend(address: Word, b: Body)
      requires ListSound() && HeapTagged(address) && address !in store
      modifies `objects, `next, `store, `objectCount, `order, `history
      ensures View() == Insert(old(View()), address, b) && ListSound()
    {
      hide Linked, Distinct, HeapTagged, Listed;
      ListGrows(LinkedHeap(objects, next, {}, store, objectCount), order, address, b);
      next := next[address := objects];
      objects := address;
      store := store[address := b];
      objectCount := objectCount + 1;
      order := [address] + order;
      history := history.(allocations := history.allocations + 1);
    }

    /** Store through a pointer to an object. */
    method WriteObject(a: Word, b: Body)
      requires ListSound() && a in store
      modifies `store
      ensures View() == Write(old(View()), a, b) && ListSound()
    {
      KeysOfUpdate(store, a, b);
      store := store[a := b];
    }

    /** A null answer also stands for a worklist without room: which of the two it was is open. */
    method AllocateObject(kind: Kind, extraBytes: nat, scan: Scan, at: Word) returns (r: Outcome<Word>)
      requires Valid() && BodiesOk(store)
      modifies `objects, `next, `marked, `store, `objectCount, `order, `collectionLimit, `history
      ensures var t := Settle(old(View()), ScanWords(scan));
        if extraBytes <= SIZE_MAX - SIZEOF_OBJECT && Usable(t, at)
        then r == Done(at) && View() == Insert(t, at, ZeroBody(kind, extraBytes)) && Valid()
        else r.Aborted?
    {
      if objectCount >= collectionLimit {
        var granted: bool := *;
        var _ :- CollectObjects(scan, granted || at != 0);
        history := history.(starts := history.starts + [history.allocations]);
      }
      assert View() == Settle(old(View()), ScanWords(scan));
      r := NewObject(kind, extraBytes, at);
    }
  }
}
