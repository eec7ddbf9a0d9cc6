/** Heap objects, the words the collector follows, and reachability
    (runtime/internal.h, runtime/gc.c mark_children). */
module Heap {
  import opened Words

  datatype Kind = ConsCell | ByteString | Symbol | Package | Closure | ValueVector | VectorStorage

  type Slots = s: seq<Word> | |s| == 3 witness [0, 0, 0]

  /** The payload of a psl_object. The list link and the mark bit are kept apart from it;
      the trailing byte area is `bytes` for strings and `items` for vector storage. */
  datatype Body = Body(kind: Kind, length: Word, slots: Slots, code: Word,
                       bytes: seq<Byte>, items: seq<Word>)

  type Store = map<Word, Body>

  predicate BodyOk(b: Body) {
    && (b.kind.ByteString? ==> |b.bytes| == b.length + 1 && b.bytes[b.length] == 0)
    && (b.kind.VectorStorage? ==> |b.items| == b.length)
  }

  /** The words of an object that keep other objects alive. */
  function Children(b: Body): seq<Word> {
    match b.kind
    case ConsCell => b.slots[..2]
    case ByteString => []
    case Symbol => b.slots[..3]
    case Package => b.slots[..2]
    case Closure => b.slots[..1]
    case ValueVector => b.slots[..1]
    case VectorStorage => b.items
  }

  predicate IsA(store: Store, w: Word, kind: Kind) {
    w in store && store[w].kind == kind
  }

  function SeqSet<T>(s: seq<T>): set<T> {
    set x | x in s
  }

  function Restrict(store: Store, keep: set<Word>): Store {
    map a | a in store && a in keep :: store[a]
  }

  // ---------- Reachability ----------

  /** p starts at a root word and follows children; every word on it names an object. */
  ghost predicate Trail(store: Store, roots: set<Word>, p: seq<Word>) {
    && |p| > 0
    && p[|p| - 1] in store
    && if |p| == 1 then p[0] in roots
       else Trail(store, roots, p[..|p| - 1]) && p[|p| - 1] in Children(store[p[|p| - 2]])
  }

  ghost predicate Reachable(store: Store, roots: set<Word>, a: Word) {
    exists p :: Trail(store, roots, p) && p[|p| - 1] == a
  }

  ghost function Live(store: Store, roots: set<Word>): set<Word> {
    set a | a in store && Reachable(store, roots, a)
  }

  ghost predicate ClosedUnder(store: Store, keep: set<Word>) {
    forall a, c :: a in keep && a in store && c in Children(store[a]) && c in store ==> c in keep
  }

  lemma RootIsLive(store: Store, roots: set<Word>, a: Word)
    requires a in roots && a in store
    ensures a in Live(store, roots)
  {
    assert Trail(store, roots, [a]);
  }

  lemma ChildIsLive(store: Store, roots: set<Word>, a: Word, c: Word)
    requires a in Live(store, roots) && c in Children(store[a]) && c in store
    ensures c in Live(store, roots)
  {
    var p :| Trail(store, roots, p) && p[|p| - 1] == a;
    assert (p + [c])[..|p|] == p;
    assert Trail(store, roots, p + [c]);
  }

  lemma LiveIsClosed(store: Store, roots: set<Word>)
    ensures ClosedUnder(store, Live(store, roots))
    ensures forall w :: w in roots && w in store ==> w in Live(store, roots)
  {
    forall a, c | a in Live(store, roots) && a in store && c in Children(store[a]) && c in store
      ensures c in Live(store, roots)
    {
      ChildIsLive(store, roots, a, c);
    }
    forall w | w in roots && w in store
      ensures w in Live(store, roots)
    {
      RootIsLive(store, roots, w);
    }
  }

  /** Live is the least set that holds the named roots and is closed under children. */
  lemma LiveIsLeast(store: Store, roots: set<Word>, keep: set<Word>)
    requires ClosedUnder(store, keep)
    requires forall w :: w in roots && w in store ==> w in keep
    ensures Live(store, roots) <= keep
  {
    forall a | a in Live(store, roots)
      ensures a in keep
    {
      var p :| Trail(store, roots, p) && p[|p| - 1] == a;
      TrailStaysInside(store, roots, keep, p);
    }
  }

  lemma {:induction false} TrailStaysInside(store: Store, roots: set<Word>, keep: set<Word>, p: seq<Word>)
    requires ClosedUnder(store, keep)
    requires forall w :: w in roots && w in store ==> w in keep
    requires Trail(store, roots, p)
    ensures p[|p| - 1] in keep
    decreases |p|
  {
    if |p| > 1 {
      var q := p[..|p| - 1];
      TrailStaysInside(store, roots, keep, q);
      assert q[|q| - 1] == p[|p| - 2] && q[|q| - 1] in store;
    }
  }

  lemma LiveMonotone(store: Store, roots: set<Word>, more: set<Word>)
    requires roots <= more
    ensures Live(store, roots) <= Live(store, more)
  {
    LiveIsClosed(store, more);
    LiveIsLeast(store, roots, Live(store, more));
  }

  /** Words that do not name an object add nothing to what is live. */
  lemma UnnamedRootsAddNothing(store: Store, roots: set<Word>, extra: set<Word>)
    requires forall w :: w in extra && w in store ==> w in Live(store, roots)
    ensures Live(store, roots + extra) == Live(store, roots)
  {
    LiveMonotone(store, roots, roots + extra);
    LiveIsClosed(store, roots);
    LiveIsLeast(store, roots + extra, Live(store, roots));
  }

  /** Dropping dead objects changes nothing about what is live. */
  lemma LiveAfterRestrict(store: Store, roots: set<Word>, keep: set<Word>)
    requires ClosedUnder(store, keep)
    requires Live(store, roots) <= keep
    ensures Live(Restrict(store, keep), roots) == Live(store, roots)
  {
    var kept := Restrict(store, keep);
    var before, after := Live(store, roots), Live(kept, roots);
    LiveIsClosed(store, roots);
    LiveIsLeast(kept, roots, before);
    LiveIsClosed(kept, roots);
    forall a | a in before
      ensures a in after
    {
      var p :| Trail(store, roots, p) && p[|p| - 1] == a;
      TrailSurvives(store, roots, keep, p);
    }
  }

  lemma {:induction false} TrailSurvives(store: Store, roots: set<Word>, keep: set<Word>, p: seq<Word>)
    requires Live(store, roots) <= keep
    requires Trail(store, roots, p)
    ensures Trail(Restrict(store, keep), roots, p)
    decreases |p|
  {
    assert p[|p| - 1] in Live(store, roots);
    if |p| > 1 {
      TrailSurvives(store, roots, keep, p[..|p| - 1]);
    }
  }

  // ---------- Object order ----------

  /** The sub-list of the objects in `keep`, in the same order. */
  function Keep(order: seq<Word>, keep: set<Word>): seq<Word> {
    if order == [] then []
    else if order[0] in keep then [order[0]] + Keep(order[1..], keep)
    else Keep(order[1..], keep)
  }

  ghost predicate Distinct<T>(s: seq<T>) {
    forall i, j :: 0 <= i < j < |s| ==> s[i] != s[j]
  }

  lemma {:induction false} KeepMembers(order: seq<Word>, keep: set<Word>)
    ensures forall x :: x in Keep(order, keep) <==> x in order && x in keep
  {
    if order != [] {
      KeepMembers(order[1..], keep);
      assert order == [order[0]] + order[1..];
    }
  }

  lemma {:induction false} KeepDistinct(order: seq<Word>, keep: set<Word>)
    requires Distinct(order)
    ensures Distinct(Keep(order, keep))
  {
    if order != [] {
      KeepDistinct(order[1..], keep);
      KeepMembers(order[1..], keep);
    }
  }

  lemma KeepElements(order: seq<Word>, keep: set<Word>)
    requires Distinct(order)
    ensures SeqSet(Keep(order, keep)) == SeqSet(order) * keep
    ensures Distinct(Keep(order, keep))
  {
    KeepMembers(order, keep);
    KeepDistinct(order, keep);
  }

  lemma {:induction false} KeepAppend(a: seq<Word>, b: seq<Word>, keep: set<Word>)
    ensures Keep(a + b, keep) == Keep(a, keep) + Keep(b, keep)
  {
    if a == [] {
      assert a + b == b;
    } else {
      KeepAppend(a[1..], b, keep);
      assert (a + b)[1..] == a[1..] + b;
    }
  }

  lemma {:induction false} DistinctCount<T>(s: seq<T>)
    requires Distinct(s)
    ensures |SeqSet(s)| == |s|
  {
    if s != [] {
      DistinctCount(s[1..]);
      assert SeqSet(s) == {s[0]} + SeqSet(s[1..]);
      assert s[0] !in s[1..];
    }
  }
}
