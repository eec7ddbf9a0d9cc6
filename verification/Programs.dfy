/** Any client of the runtime: sequences of calls on the concrete heap do exactly what the
    state machine says, from the first object to the last abort. */
module Programs {
  import opened Words
  import opened Heap
  import opened Machine
  import opened Operations
  import opened Invariants
  import opened Runs
  import opened Calls
  import opened Gc
  import Objects
  import VectorObjects

  method PerformConstructor(rt: Runtime, op: Op) returns (r: Outcome<Word>)
    requires rt.Valid() && BodiesOk(rt.store) && IsConstructor(op)
    modifies rt
    ensures Agrees(r, rt.View(), Constructed(old(rt.View()), op))
    ensures r.Done? ==> rt.Valid()
  {
    match op
    case MakeCons(first, rest, scan, at) => r := Objects.MakeCons(rt, first, rest, scan, at);
    case MakeString(length, fill, scan, at) => r := Objects.MakeString(rt, length, fill, scan, at);
    case CopyString(source, scan, at) =>
      if source.BytesAt? && |source.bytes| > SIZE_MAX {
        return Aborted;
      }
      r := Objects.CopyString(rt, source, scan, at);
    case MakeSymbol(name, scan, at) => r := Objects.MakeSymbol(rt, name, scan, at);
    case MakePackage(name, scan, at) => r := Objects.MakePackage(rt, name, scan, at);
    case MakeClosure(code, environment, scan, at) => r := Objects.MakeClosure(rt, code, environment, scan, at);
  }

  predicate IsRootCall(op: Op) {
    op.PushRoots? || op.PopRoots? || op.SetRoot? || op.RegisterRoots? || op.SetPermanent?
  }

  method PerformRootCall(rt: Runtime, op: Op) returns (r: Outcome<Word>)
    requires rt.Valid() && Inv(rt.View()) && IsRootCall(op)
    modifies rt
    ensures Agrees(r, rt.View(), Exec(old(rt.View()), op))
    ensures r.Done? ==> rt.Valid()
  {
    hide NamesOk, PackagesOk, GrowthOk, HandlesOk, VectorsOk, HeapOk, Sound;
    hide RegisterRootsEffect, SetPermanentEffect, SetRootEffect, PopRootsEffect;
    match op
    case PushRoots(frame) =>
      rt.Push(frame);
      r := Done(0);
    case PopRoots(id) => r := rt.Pop(id);
    case SetRoot(depth, index, word) => r := rt.Assign(depth, index, word);
    case RegisterRoots(words, granted) => r := rt.RegisterPermanentRoots(words, granted);
    case SetPermanent(area, index, word) => r := rt.AssignPermanent(area, index, word);
  }

  predicate IsHandleCall(op: Op) {
    op.HandleOpen? || op.HandleGet? || op.HandleSet? || op.HandleClose?
  }

  method PerformHandleCall(rt: Runtime, op: Op) returns (r: Outcome<Word>)
    requires rt.Valid() && Inv(rt.View()) && IsHandleCall(op)
    modifies rt
    ensures Agrees(r, rt.View(), Exec(old(rt.View()), op))
    ensures r.Done? ==> rt.Valid()
  {
    hide NamesOk, PackagesOk, GrowthOk, HandlesOk, VectorsOk, HeapOk, Sound;
    match op
    case HandleOpen(granted) => r := rt.HandleOpen(granted);
    case HandleGet(token) => r := rt.HandleGet(token);
    case HandleSet(token, word) => r := rt.HandleSet(token, word);
    case HandleClose(token) => r := rt.HandleClose(token);
  }

  predicate IsRead(op: Op) {
    op.Car? || op.Cdr? || op.StringByte? || op.NthValue? || op.VectorLength? || op.VectorRef?
  }

  method PerformRead(rt: Runtime, op: Op) returns (r: Outcome<Word>)
    requires rt.Valid() && Inv(rt.View()) && IsRead(op)
    ensures Agrees(r, rt.View(), Exec(rt.View(), op))
  {
    hide NamesOk, PackagesOk, GrowthOk, HandlesOk, Sound, SlotEffect, StringByteEffect, NthValueEffect, VectorRefEffect;
    match op
    case Car(pair) => r := Objects.Slot(rt, pair, 0);
    case Cdr(pair) => r := Objects.Slot(rt, pair, 1);
    case StringByte(text, position) => r := Objects.GetByte(rt, text, position);
    case NthValue(n) =>
      var w := Objects.NthValue(rt, n);
      r := Done(w);
    case VectorLength(vector) => r := VectorObjects.Length(rt, vector);
    case VectorRef(vector, position) => r := VectorObjects.Ref(rt, vector, position);
  }

  predicate IsVectorUpdate(op: Op) {
    op.MakeVector? || op.VectorSet? || op.VectorPush?
  }

  method PerformVectorUpdate(rt: Runtime, op: Op) returns (r: Outcome<Word>)
    requires rt.Valid() && Inv(rt.View()) && IsVectorUpdate(op)
    modifies rt
    ensures Agrees(r, rt.View(), Exec(old(rt.View()), op))
    ensures r.Done? ==> rt.Valid()
  {
    match op
    case MakeVector(length, initial, at, storageAt) =>
      r := VectorObjects.MakeVector(rt, length, initial, at, storageAt);
    case VectorSet(vector, position, item) => r := VectorObjects.Set(rt, vector, position, item);
    case VectorPush(vector, item, at) => r := VectorObjects.PushItem(rt, vector, item, at);
  }

  predicate IsUpdate(op: Op) {
    op.CollectNow? || op.StringSetByte? || op.Intern? || op.Values2?
  }

  method PerformUpdate(rt: Runtime, op: Op) returns (r: Outcome<Word>)
    requires rt.Valid() && Inv(rt.View()) && IsUpdate(op)
    modifies rt
    ensures Agrees(r, rt.View(), Exec(old(rt.View()), op))
    ensures r.Done? ==> rt.Valid()
  {
    match op
    case CollectNow(scan, granted) => r := rt.CollectObjects(scan, granted);
    case StringSetByte(text, position, byte) => r := Objects.SetByte(rt, text, position, byte);
    case Intern(package, name, scan, at) => r := Objects.Intern(rt, package, name, scan, at);
    case Values2(first, second, granted) => r := Objects.Values2(rt, first, second, granted);
  }

  lemma AgreementKeepsInv(s: State, op: Op, r: Outcome<Word>, now: State)
    requires Inv(s) && Agrees(r, now, Exec(s, op)) && r.Done?
    ensures Inv(now)
  {
    ExecKeepsInv(s, op);
  }

  /** One call: the collector, its lists and its tables implement the state machine. */
  method Perform(rt: Runtime, op: Op) returns (r: Outcome<Word>)
    requires rt.Valid() && Inv(rt.View())
    modifies rt
    ensures Agrees(r, rt.View(), Exec(old(rt.View()), op))
    ensures r.Done? ==> rt.Valid() && Inv(rt.View())
  {
    if IsConstructor(op) {
      r := PerformConstructor(rt, op);
    } else if IsRootCall(op) {
      r := PerformRootCall(rt, op);
    } else if op.EnterClosure? {
      r := Objects.EnterClosure(rt, op.closure, op.argument, op.id);
    } else if IsHandleCall(op) {
      r := PerformHandleCall(rt, op);
    } else if IsRead(op) {
      r := PerformRead(rt, op);
    } else if IsVectorUpdate(op) {
      r := PerformVectorUpdate(rt, op);
    } else {
      r := PerformUpdate(rt, op);
    }
    if r.Done? {
      AgreementKeepsInv(old(rt.View()), op, r, rt.View());
    }
  }

  /** A whole client. */
  method Execute(rt: Runtime, ops: seq<Op>) returns (r: Outcome<()>)
    requires rt.Valid() && Inv(rt.View())
    modifies rt
    ensures match Run(old(rt.View()), ops)
      case Aborted => r.Aborted?
      case Done(t) => r.Done? && rt.Valid() && Inv(rt.View()) && rt.View() == t
  {
    var i := 0;
    ghost var s := rt.View();
    while i < |ops|
      invariant i <= |ops| && rt.Valid() && Inv(rt.View())
      invariant Run(s, ops) == Run(rt.View(), ops[i..])
    {
      assert ops[i..][0] == ops[i] && ops[i..][1..] == ops[i + 1..];
      var step := Perform(rt, ops[i]);
      if step.Aborted? {
        return Aborted;
      }
      i := i + 1;
    }
    return Done(());
  }

  /** psl_rt_call_closure around code that is itself any sequence of calls. */
  method CallClosure(rt: Runtime, closure: Word, argument: Word, id: Word, code: seq<Op>) returns (r: Outcome<()>)
    requires rt.Valid() && Inv(rt.View())
    modifies rt
    ensures match Call(old(rt.View()), closure, argument, id, code)
      case Aborted => r.Aborted?
      case Done(t) => r.Done? && rt.View() == t && rt.Valid()
  {
    hide Inv, Exec, Run;
    var environment := Perform(rt, EnterClosure(closure, argument, id));
    if environment.Aborted? {
      return Aborted;
    }
    var ran := Execute(rt, code);
    if ran.Aborted? {
      return Aborted;
    }
    var popped := Perform(rt, PopRoots(id));
    if popped.Aborted? {
      return Aborted;
    }
    return Done(());
  }
}
