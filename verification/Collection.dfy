/** What the two collectors keep (runtime/gc.c, collect_objects). */
module Collection {
  import opened Words
  import opened Heap
  import opened Machine
  import opened Operations
  import opened Invariants

  lemma CollectCall(s: State, scan: Scan)
    requires Inv(s)
    ensures Exec(s, CollectNow(scan, true)) == Done(Effect(Collect(s, ScanWords(scan)), 0))
    ensures Inv(Collect(s, ScanWords(scan)))
  {
    hide GraphOk, HandlesOk, PacingOk, Constructed, TableEffect, Collect;
    ExecKeepsInv(s, CollectNow(scan, true));
  }

  /** Exactly the reachable objects stay, with their contents. */
  lemma CollectKeepsExactlyReachable(s: State, extra: set<Word>, a: Word)
    requires HeapOk(s)
    ensures a in Collect(s, extra).store <==> a in s.store && Reachable(s.store, RootSet(s) + extra, a)
    ensures a in Collect(s, extra).store ==> Collect(s, extra).store[a] == s.store[a]
    ensures a in Collect(s, extra).order <==> a in Collect(s, extra).store
    ensures RootSet(Collect(s, extra)) == RootSet(s)
  {
    KeepMembers(s.order, Live(s.store, RootSet(s) + extra));
    assert a in s.order <==> a in SeqSet(s.order);
  }

  lemma {:induction false} KeepOrder(order: seq<Word>, keep: set<Word>, i: nat, j: nat) returns (i': nat, j': nat)
    requires i < j < |Keep(order, keep)|
    ensures i' < j' < |order|
    ensures order[i'] == Keep(order, keep)[i] && order[j'] == Keep(order, keep)[j]
  {
    if order[0] in keep {
      if i == 0 {
        j' := KeepIndex(order[1..], keep, j - 1);
        i', j' := 0, j' + 1;
      } else {
        i', j' := KeepOrder(order[1..], keep, i - 1, j - 1);
        i', j' := i' + 1, j' + 1;
      }
    } else {
      i', j' := KeepOrder(order[1..], keep, i, j);
      i', j' := i' + 1, j' + 1;
    }
  }

  lemma {:induction false} KeepIndex(order: seq<Word>, keep: set<Word>, j: nat) returns (k: nat)
    requires j < |Keep(order, keep)|
    ensures k < |order| && order[k] == Keep(order, keep)[j]
  {
    if order[0] in keep {
      if j == 0 {
        k := 0;
      } else {
        k := KeepIndex(order[1..], keep, j - 1);
        k := k + 1;
      }
    } else {
      k := KeepIndex(order[1..], keep, j);
      k := k + 1;
    }
  }

  /** Survivors keep their relative order in the object list. */
  lemma SurvivorsKeepOrder(s: State, extra: set<Word>, i: nat, j: nat) returns (i': nat, j': nat)
    requires i < j < |Collect(s, extra).order|
    ensures i' < j' < |s.order|
    ensures s.order[i'] == Collect(s, extra).order[i] && s.order[j'] == Collect(s, extra).order[j]
  {
    i', j' := KeepOrder(s.order, Live(s.store, RootSet(s) + extra), i, j);
  }

  /** Scanning the stack keeps a superset, and exactly the same when, and only when, every
      scanned word that names an object names a rooted one. */
  lemma ConservativeVersusPrecise(s: State, stack: seq<Word>)
    requires Inv(s)
    ensures var scanned, precise := Exec(s, CollectNow(Conservative(stack), true)), Exec(s, CollectNow(Precise, true));
      && scanned.Done? && precise.Done?
      && precise.value.state.store.Keys <= scanned.value.state.store.Keys
      && (scanned == precise <==> forall w :: w in stack && w in s.store ==> w in Rooted(s))
  {
    hide Exec, GraphOk, HandlesOk, PacingOk;
    CollectCall(s, Precise);
    CollectCall(s, Conservative(stack));
    var roots, extra := RootSet(s), SeqSet(stack);
    assert roots + {} == roots;
    LiveMonotone(s.store, roots, roots + extra);
    if forall w :: w in stack && w in s.store ==> w in Rooted(s) {
      UnnamedRootsAddNothing(s.store, roots, extra);
    } else {
      var w :| w in stack && w in s.store && w !in Rooted(s);
      RootIsLive(s.store, roots + extra, w);
      assert w in Collect(s, extra).store && w !in Collect(s, {}).store;
    }
  }

  /** Collecting again at once, with the same roots, frees nothing more. */
  lemma CollectIsIdempotent(s: State, scan: Scan, t: State)
    requires Inv(s) && Exec(s, CollectNow(scan, true)) == Done(Effect(t, 0)) && Inv(t)
    ensures Exec(t, CollectNow(scan, true)) == Done(Effect(t, 0))
  {
    hide Exec, GraphOk, HandlesOk, PacingOk;
    CollectCall(s, scan);
    CollectCall(t, scan);
    CollectTwice(s, ScanWords(scan));
  }

  lemma CollectTwice(s: State, extra: set<Word>)
    ensures Collect(Collect(s, extra), extra) == Collect(s, extra)
  {
    var roots := RootSet(s) + extra;
    var live := Live(s.store, roots);
    var t := Collect(s, extra);
    LiveIsClosed(s.store, roots);
    LiveAfterRestrict(s.store, roots, live);
    assert RootSet(t) == RootSet(s);
    assert Restrict(t.store, live) == t.store;
    KeepAll(t.order, live, s.order);
  }

  lemma {:induction false} KeepAll(order: seq<Word>, keep: set<Word>, all: seq<Word>)
    requires order == Keep(all, keep)
    ensures Keep(order, keep) == order
    decreases all
  {
    if all != [] {
      KeepAll(Keep(all[1..], keep), keep, all[1..]);
      if all[0] in keep {
        assert order[1..] == Keep(all[1..], keep);
      }
    }
  }

  /** A cycle of objects dies as soon as no root reaches it. */
  lemma UnrootedIsFreed(s: State, dead: set<Word>)
    requires Inv(s) && RootSet(s) !! dead
    requires forall a, c :: a in s.store && a !in dead && c in Children(s.store[a]) ==> c !in dead
    ensures Exec(s, CollectNow(Precise, true)).Done?
    ensures Exec(s, CollectNow(Precise, true)).value.state.store.Keys !! dead
  {
    hide Exec, GraphOk, HandlesOk, PacingOk;
    CollectCall(s, Precise);
    var keep := s.store.Keys - dead;
    assert RootSet(s) + {} == RootSet(s);
    LiveIsLeast(s.store, RootSet(s), keep);
  }
}
