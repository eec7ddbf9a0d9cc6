/** Runs of arbitrary calls, and the theorems that need nothing of the client. */
module Runs {
  import opened Words
  import opened Heap
  import opened Machine
  import opened Operations
  import opened Invariants

  ghost function Run(s: State, ops: seq<Op>): (r: Outcome<State>)
    requires Inv(s)
    ensures r.Done? ==> Inv(r.value)
    decreases ops
  {
    if ops == [] then Done(s)
    else
      match Exec(s, ops[0])
      case Aborted => Aborted
      case Done(e) => ExecKeepsInv(s, ops[0]); Run(e.state, ops[1..])
  }

  lemma InitialInv()
    ensures Inv(INITIAL)
  {
  }

  lemma {:induction false} RunAppend(s: State, a: seq<Op>, b: seq<Op>)
    requires Inv(s)
    ensures Run(s, a + b) == if Run(s, a).Aborted? then Aborted else Run(Run(s, a).value, b)
    decreases a
  {
    if a == [] {
      assert a + b == b;
    } else {
      assert (a + b)[0] == a[0] && (a + b)[1..] == a[1..] + b;
      if Exec(s, a[0]).Done? {
        ExecKeepsInv(s, a[0]);
        RunAppend(Exec(s, a[0]).value.state, a[1..], b);
      }
    }
  }

  // ---------- Pacing ----------

  /** No automatic collection starts before this many objects have been allocated. */
  function Due(s: State): int {
    s.history.allocations + Slack(s)
  }

  /** How the history of s may continue to that of t: each automatic collection starts when
      it is due at the earliest, and puts off the next one by at least 128 allocations. */
  predicate Paced(s: State, t: State) {
    var n, starts := |s.history.starts|, t.history.starts;
    && t.history.allocations >= s.history.allocations
    && n <= |starts| && starts[..n] == s.history.starts
    && Due(s) + 128 * (|starts| - n) <= Due(t)
    && (forall i :: n <= i < |starts| ==>
          Due(s) <= starts[i] <= t.history.allocations && starts[i] + 128 <= Due(t))
    && (forall i, j :: n <= i < j < |starts| ==> starts[i] + 128 <= starts[j])
  }

  lemma PacedComposes(s: State, t: State, u: State)
    requires Paced(s, t) && Paced(t, u)
    ensures Paced(s, u)
  {
  }

  lemma AllocatePaced(s: State, extra: set<Word>, at: Word, b: Body)
    requires |s.order| <= s.limit
    ensures Paced(s, Insert(Settle(s, extra), at, b))
    ensures Allocate(s, extra, at, b).Done? ==> Allocate(s, extra, at, b).value == Insert(Settle(s, extra), at, b)
  {
  }

  lemma StepPaced(s: State, op: Op)
    requires Inv(s) && Exec(s, op).Done?
    ensures Paced(s, Exec(s, op).value.state)
  {
    if IsConstructor(op) {
      var p := PlanOf(s, op).value;
      AllocatePaced(s, p.extra, p.at, p.body);
    } else if LeavesHeap(op) {
      HeapLeftAlone(s, op);
    } else {
      match op
      case Intern(package, name, scan, at) => InternPaced(s, package, name, scan, at);
      case MakeVector(length, initial, at, storageAt) => MakeVectorPaced(s, length, initial, at, storageAt);
      case VectorPush(vector, item, at) => PushPaced(s, vector, item, at);
      case _ =>
    }
  }

  lemma InternPaced(s: State, package: Word, name: Word, scan: Scan, at: Word)
    requires GraphOk(s, {}) && |s.order| <= s.limit && InternEffect(s, package, name, scan, at).Done?
    ensures Paced(s, InternEffect(s, package, name, scan, at).value.state)
  {
    hide VectorsOk, GrowthOk, NamesOk, PackagesOk, Live, RootSet;
    AllocatePaced(s, {package, name} + ScanWords(scan), at, SymbolBody(name, package, s.store[package].slots[1]));
  }

  lemma MakeVectorPaced(s: State, length: Word, initial: Word, at: Word, storageAt: Word)
    requires |s.order| <= s.limit && MakeVectorEffect(s, length, initial, at, storageAt).Done?
    ensures Paced(s, MakeVectorEffect(s, length, initial, at, storageAt).value.state)
  {
    hide Live, RootSet;
    AllocatePaced(s, {NIL, initial}, at, VectorBody(length, 0));
    var t := Allocate(s, {NIL, initial}, at, VectorBody(length, 0)).value;
    AllocatePaced(t, {at, initial}, storageAt, StorageBody(Fill(length, initial)));
    PacedComposes(s, t, Insert(Settle(t, {at, initial}), storageAt, StorageBody(Fill(length, initial))));
  }

  lemma PushPaced(s: State, vector: Word, item: Word, at: Word)
    requires VectorsOk(s.store, {}) && GrowthOk(s, {}) && |s.order| <= s.limit
    requires VectorPushEffect(s, vector, item, at).Done?
    ensures Paced(s, VectorPushEffect(s, vector, item, at).value.state)
  {
    hide Live, RootSet;
    if VectorPushEffect(s, vector, item, at).value.state.history.allocations != s.history.allocations {
      AllocatePaced(s, {vector, item}, at, StorageBody(GrownItems(s.store[s.store[vector].slots[0]].items, item)));
    }
  }

  lemma {:induction false} RunPaced(s: State, ops: seq<Op>)
    requires Inv(s) && Run(s, ops).Done?
    ensures Paced(s, Run(s, ops).value)
    decreases ops
  {
    if ops != [] {
      var t := Exec(s, ops[0]).value.state;
      ExecKeepsInv(s, ops[0]);
      StepPaced(s, ops[0]);
      RunPaced(t, ops[1..]);
      PacedComposes(s, t, Run(t, ops[1..]).value);
    }
  }

  /** In any stretch of a run, each automatic collection after the first costs 128 allocations. */
  lemma StretchesArePaced(s: State, ops: seq<Op>)
    requires Inv(s) && Run(s, ops).Done?
    ensures var t := Run(s, ops).value;
      128 * (|t.history.starts| - |s.history.starts| - 1) <= t.history.allocations - s.history.allocations
  {
    RunPaced(s, ops);
  }

  /** A call starts at most one automatic collection, not before it is due; the next is due at
      least 128 allocations after that. */
  lemma StepAfterAutomatic(s: State, op: Op)
    requires Inv(s) && Exec(s, op).Done?
    ensures var t := Exec(s, op).value.state; var n := |s.history.starts|;
      |t.history.starts| > n ==>
        && |t.history.starts| == n + 1
        && Due(s) <= t.history.starts[n] <= t.history.allocations
        && Due(t) >= t.history.starts[n] + 128
  {
    hide GraphOk, HandlesOk, Exec;
    StepPaced(s, op);
    StepAllocatesLittle(s, op);
  }

  lemma StepAllocatesLittle(s: State, op: Op)
    requires Inv(s) && Exec(s, op).Done?
    ensures Exec(s, op).value.state.history.allocations <= s.history.allocations + 2
  {
    hide GraphOk, HandlesOk, PacingOk, Live, RootSet, HeapEffect;
    if LeavesHeap(op) {
      HeapLeftAlone(s, op);
    } else if !IsConstructor(op) {
      HeapCallAllocatesLittle(s, op);
    }
  }

  lemma HeapCallAllocatesLittle(s: State, op: Op)
    requires Inv(s) && !LeavesHeap(op) && !IsConstructor(op) && HeapEffect(s, op).Done?
    ensures HeapEffect(s, op).value.state.history.allocations <= s.history.allocations + 2
  {
    hide NamesOk, PackagesOk, VectorsOk, GrowthOk, HandlesOk, PacingOk, Live, RootSet, Lookup;
  }

  /** At least 128 objects are allocated between any two automatic collections of a run. */
  lemma AutomaticAreSpaced(s: State, ops: seq<Op>, i: nat, j: nat)
    requires Inv(s) && Run(s, ops).Done? && |s.history.starts| <= i < j < |Run(s, ops).value.history.starts|
    ensures var starts := Run(s, ops).value.history.starts;
      starts[i] + 128 <= starts[j] <= Run(s, ops).value.history.allocations
  {
    RunPaced(s, ops);
  }

  /** At least 128 objects are allocated between an explicit collection and the next automatic
      one. */
  lemma CollectionsAreSpaced(s: State, scan: Scan, t: State, ops: seq<Op>)
    requires Inv(s) && Exec(s, CollectNow(scan, true)) == Done(Effect(t, 0)) && Inv(t)
    requires Run(t, ops).Done? && |Run(t, ops).value.history.starts| > |t.history.starts|
    ensures Run(t, ops).value.history.starts[|t.history.starts|] >= t.history.allocations + 128
  {
    hide GraphOk, HandlesOk, Live, RootSet;
    RunPaced(t, ops);
  }

  /** From the start of the program: the object count respects the limit, any two automatic
      collections are 128 allocations apart, the first comes after as many, and so they cost
      at most one in 128 allocations. */
  lemma PacingOfRuns(ops: seq<Op>)
    ensures Inv(INITIAL)
    ensures Run(INITIAL, ops).Done? ==>
      var t := Run(INITIAL, ops).value; var starts := t.history.starts;
      && |t.order| <= t.limit && 128 * |starts| <= t.history.allocations
      && (forall i :: 0 <= i < |starts| ==> 128 <= starts[i] <= t.history.allocations)
      && (forall i, j :: 0 <= i < j < |starts| ==> starts[i] + 128 <= starts[j])
  {
    InitialInv();
    if Run(INITIAL, ops).Done? {
      RunPaced(INITIAL, ops);
    }
  }

  // ---------- Growth ----------

  /** However often any vector was pushed to, all copying ever done for it is bounded by
      its capacity and by twice its length. */
  lemma GrowthOfRuns(ops: seq<Op>, v: Word)
    ensures Inv(INITIAL)
    ensures Run(INITIAL, ops).Done? && IsA(Run(INITIAL, ops).value.store, v, ValueVector) ==>
      var t := Run(INITIAL, ops).value;
      && v in t.history.copied && t.store[v].slots[0] in t.store
      && t.history.copied[v] <= t.store[t.store[v].slots[0]].length
      && t.history.copied[v] <= 2 * t.store[v].length
  {
    InitialInv();
    if Run(INITIAL, ops).Done? && IsA(Run(INITIAL, ops).value.store, v, ValueVector) {
      assert GrowthPaid(Run(INITIAL, ops).value, v);
    }
  }

  // ---------- The limit never wraps ----------

  lemma {:induction false} AlignedSetIsSmall(a: set<Word>, n: nat)
    requires 8 * n < WORD_SPAN
    requires forall w :: w in a ==> w % 8 == 0 && 0 < w <= 8 * n
    ensures |a| <= n
    decreases n
  {
    if n == 0 {
      assert a == {};
    } else {
      var top: Word := 8 * n;
      AlignedSetIsSmall(a - {top}, n - 1);
      assert a <= (a - {top}) + {top};
    }
  }

  /** Objects are at distinct nonzero multiples of eight, so doubling their number stays
      inside a 64-bit word: collection_limit and object_count never wrap. */
  lemma LimitFitsWord(s: State)
    requires HeapOk(s)
    ensures |s.order| < 0x2000_0000_0000_0000 && NextLimit(|s.order|) <= SIZE_MAX
  {
    forall w | w in s.store.Keys
      ensures w % 8 == 0 && 0 < w <= 8 * 0x1FFF_FFFF_FFFF_FFFF
    {
      HeapTaggedIsAligned(w);
    }
    AlignedSetIsSmall(s.store.Keys, 0x1FFF_FFFF_FFFF_FFFF);
    DistinctCount(s.order);
  }
}
