/** Root frames balance, and a closure call protects its closure, environment and argument
    against whatever the closure's code does (runtime/gc.c, runtime/closure.c). */
module Calls {
  import opened Words
  import opened Heap
  import opened Machine
  import opened Operations
  import opened Invariants
  import opened Runs
  import opened Safety
  import opened Readback

  /** How many frames a call leaves above the point where the count was d, or None when it
      reaches below that point. */
  function Depth(op: Op, d: nat): Option<nat> {
    match op
    case PushRoots(_) => Some(d + 1)
    case EnterClosure(_, _, _) => Some(d + 1)
    case PopRoots(_) => if d == 0 then None else Some(d - 1)
    case SetRoot(depth, _, _) => if depth < d then Some(d) else None
    case _ => Some(d)
  }

  /** Code that pops and overwrites only frames that it pushed itself. */
  function DepthAfter(ops: seq<Op>, d: nat): Option<nat>
    decreases ops
  {
    if ops == [] then Some(d)
    else
      match Depth(ops[0], d)
      case None => None
      case Some(e) => DepthAfter(ops[1..], e)
  }

  /** Every call that is not itself a root operation returns with the frames it found. */
  lemma CallsRestoreFrames(s: State, op: Op)
    requires Inv(s) && Exec(s, op).Done?
    requires !op.PushRoots? && !op.PopRoots? && !op.SetRoot? && !op.EnterClosure?
    ensures Exec(s, op).value.state.frames == s.frames
  {
    if !LeavesHeap(op) {
      TablesLeftAlone(s, op);
    }
  }

  lemma StepKeepsBase(s: State, op: Op, d: nat, base: seq<Frame>)
    requires Inv(s) && Exec(s, op).Done? && Depth(op, d).Some?
    requires |s.frames| == d + |base| && s.frames[d..] == base
    ensures var t := Exec(s, op).value.state; var e := Depth(op, d).value;
      |t.frames| == e + |base| && t.frames[e..] == base
  {
    if !op.PushRoots? && !op.PopRoots? && !op.SetRoot? && !op.EnterClosure? {
      CallsRestoreFrames(s, op);
    }
  }

  /** Contained code leaves the frames below it exactly as they were, at every point. */
  lemma {:induction false} RunKeepsBase(s: State, ops: seq<Op>, d: nat, base: seq<Frame>)
    requires Inv(s) && Run(s, ops).Done? && DepthAfter(ops, d).Some?
    requires |s.frames| == d + |base| && s.frames[d..] == base
    ensures var t := Run(s, ops).value; var e := DepthAfter(ops, d).value;
      |t.frames| == e + |base| && t.frames[e..] == base
    decreases ops
  {
    if ops != [] {
      ExecKeepsInv(s, ops[0]);
      StepKeepsBase(s, ops[0], d, base);
      RunKeepsBase(Exec(s, ops[0]).value.state, ops[1..], Depth(ops[0], d).value, base);
    }
  }

  /** At every point of contained code, the words of the frames below it are held. */
  lemma {:induction false} CalleeHolds(s: State, ops: seq<Op>, d: nat, base: seq<Frame>, i: nat, a: Word)
    requires Inv(s) && Run(s, ops).Done? && DepthAfter(ops, d).Some?
    requires |s.frames| == d + |base| && s.frames[d..] == base
    requires i < |base| && a in base[i].words && a in s.store
    ensures Held(s, ops, a)
    decreases ops
  {
    hide Inv, Exec;
    assert s.frames[d + i] == base[i] by { assert s.frames[d..][i] == s.frames[d + i]; }
    FrameWordsAt(s.frames, d + i);
    RootIsLive(s.store, RootSet(s), a);
    if ops != [] {
      var t := Exec(s, ops[0]).value.state;
      ExecKeepsInv(s, ops[0]);
      StepKeepsBase(s, ops[0], d, base);
      RootedIsLive(s, ops[0], a);
      StepKeepsRooted(s, ops[0], a);
      CalleeHolds(t, ops[1..], Depth(ops[0], d).value, base, i, a);
    }
  }

  // ---------- The protocol of root frames ----------

  /** t is s with other frames. */
  predicate OnlyFrames(s: State, t: State, frames: seq<Frame>) {
    t == s.(frames := frames)
  }

  /** Pushing always succeeds, popping exactly for the newest frame, and overwriting a root
      exactly inside a frame. */
  lemma FrameCalls(s: State, frame: Frame, id: Word, depth: nat, index: nat, word: Word)
    requires Inv(s)
    ensures var r := Exec(s, PushRoots(frame)); r.Done? && OnlyFrames(s, r.value.state, [frame] + s.frames)
    ensures var r := Exec(s, PopRoots(id));
      && (r.Done? <==> s.frames != [] && s.frames[0].id == id)
      && (r.Done? ==> OnlyFrames(s, r.value.state, s.frames[1..]))
    ensures var r := Exec(s, SetRoot(depth, index, word));
      && (r.Done? <==> depth < |s.frames| && index < |s.frames[depth].words|)
      && (r.Done? ==>
            var after: seq<Word> := s.frames[depth].words[index := word];
            OnlyFrames(s, r.value.state, s.frames[depth := Frame(s.frames[depth].id, after)]))
  {
    hide GraphOk, HandlesOk, PacingOk, Constructed, HeapEffect;
  }

  /** The words of a pushed frame are held over any code that handles only frames of its own;
      popping the frame then succeeds, for this frame and no other, and restores the frames. */
  lemma FrameProtects(s: State, frame: Frame, e: Effect, ops: seq<Op>, t: State, w: Word, id: Word)
    requires Inv(s) && Exec(s, PushRoots(frame)) == Done(e) && Inv(e.state)
    requires Run(e.state, ops) == Done(t) && Inv(t) && DepthAfter(ops, 0).Some?
    ensures w in frame.words && w in s.store ==> Held(e.state, ops, w)
    ensures DepthAfter(ops, 0) == Some(0) ==>
      var r := Exec(t, PopRoots(id));
      (r.Done? <==> id == frame.id) && (r.Done? ==> OnlyFrames(t, r.value.state, s.frames))
  {
    hide Inv, Exec, Run, Held;
    FrameCalls(s, frame, id, 0, 0, 0);
    FrameCalls(t, frame, id, 0, 0, 0);
    RunKeepsBase(e.state, ops, 0, e.state.frames);
    if w in frame.words && w in s.store {
      CalleeHolds(e.state, ops, 0, e.state.frames, 0, w);
    }
  }

  /** A word stored into a registered array is held from then on, while the code handles only
      frames of its own. */
  lemma SetRootProtects(s: State, depth: nat, index: nat, word: Word, e: Effect, ops: seq<Op>)
    requires Inv(s) && Exec(s, SetRoot(depth, index, word)) == Done(e) && Inv(e.state)
    requires Run(e.state, ops).Done? && DepthAfter(ops, 0).Some? && word in s.store
    ensures Held(e.state, ops, word)
  {
    hide Inv, Exec, Run, Held;
    FrameCalls(s, Frame(0, []), 0, depth, index, word);
    assert e.state.frames[depth].words[index] == word;
    CalleeHolds(e.state, ops, 0, e.state.frames, depth, word);
  }

  // ---------- Permanent roots ----------

  predicate OnlyAreas(s: State, t: State, permanent: seq<seq<Word>>) {
    t == s.(permanent := permanent)
  }

  lemma AreaCalls(s: State, words: seq<Word>, granted: bool, area: nat, index: nat, word: Word)
    requires Inv(s)
    ensures var r := Exec(s, RegisterRoots(words, granted));
      (r.Done? <==> granted) && (r.Done? ==> OnlyAreas(s, r.value.state, s.permanent + [words]))
    ensures var r := Exec(s, SetPermanent(area, index, word));
      && (r.Done? <==> area < |s.permanent| && s.valuesArea != Some(area) && index < |s.permanent[area]|)
      && (r.Done? ==>
            var after: seq<Word> := s.permanent[area][index := word];
            OnlyAreas(s, r.value.state, s.permanent[area := after]))
  {
    hide GraphOk, HandlesOk, PacingOk, Constructed, HeapEffect;
  }

  /** The calls that overwrite a permanent array. */
  predicate Overwrites(s: State, op: Op, area: nat) {
    (op.SetPermanent? && op.area == area) || (op.Values2? && s.valuesArea == Some(area))
  }

  ghost predicate NeverOverwritten(s: State, ops: seq<Op>, area: nat)
    requires Inv(s)
    decreases ops
  {
    ops != [] ==>
      && !Overwrites(s, ops[0], area)
      && (Exec(s, ops[0]).Done? ==>
            (ExecKeepsInv(s, ops[0]); NeverOverwritten(Exec(s, ops[0]).value.state, ops[1..], area)))
  }

  lemma StepKeepsArea(s: State, op: Op, area: nat)
    requires Inv(s) && Exec(s, op).Done? && area < |s.permanent| && !Overwrites(s, op, area)
    ensures var t := Exec(s, op).value.state; area < |t.permanent| && t.permanent[area] == s.permanent[area]
  {
    hide GraphOk, HandlesOk, PacingOk, HeapEffect, Constructed;
    if !LeavesHeap(op) {
      TablesLeftAlone(s, op);
    }
  }

  /** Permanent roots stay registered: their words are held until they are overwritten. */
  lemma {:induction false} AreaHolds(s: State, ops: seq<Op>, area: nat, i: nat)
    requires Inv(s) && Run(s, ops).Done? && NeverOverwritten(s, ops, area)
    requires area < |s.permanent| && i < |s.permanent[area]|
    ensures s.permanent[area][i] in s.store ==> Held(s, ops, s.permanent[area][i])
    ensures var t := Run(s, ops).value; area < |t.permanent| && t.permanent[area] == s.permanent[area]
    decreases ops
  {
    hide Inv, Exec, Overwrites;
    var a := s.permanent[area][i];
    if a in s.store {
      AreaWordsAt(s.permanent, area);
      RootIsLive(s.store, RootSet(s), a);
    }
    if ops != [] {
      ExecKeepsInv(s, ops[0]);
      StepKeepsArea(s, ops[0], area);
      if a in s.store {
        RootedIsLive(s, ops[0], a);
        StepKeepsRooted(s, ops[0], a);
      }
      AreaHolds(Exec(s, ops[0]).value.state, ops[1..], area, i);
    }
  }

  // ---------- Multiple values ----------

  ghost predicate NoValues(ops: seq<Op>) {
    forall i :: 0 <= i < |ops| ==> !ops[i].Values2?
  }

  lemma StepKeepsValues(s: State, op: Op)
    requires Inv(s) && Exec(s, op).Done? && !op.Values2?
    ensures var t := Exec(s, op).value.state; t.valuesArea == s.valuesArea && t.valueCount == s.valueCount
    ensures s.valuesArea.Some? ==> !Overwrites(s, op, s.valuesArea.value)
  {
    hide GraphOk, HandlesOk, PacingOk, HeapEffect, Constructed;
    if !LeavesHeap(op) {
      TablesLeftAlone(s, op);
    }
  }

  lemma {:induction false} RunKeepsValues(s: State, ops: seq<Op>)
    requires Inv(s) && Run(s, ops).Done? && NoValues(ops)
    ensures var t := Run(s, ops).value; t.valuesArea == s.valuesArea && t.valueCount == s.valueCount
    ensures s.valuesArea.Some? ==> NeverOverwritten(s, ops, s.valuesArea.value)
    decreases ops
  {
    hide Inv, Exec, Overwrites;
    if ops != [] {
      ExecKeepsInv(s, ops[0]);
      StepKeepsValues(s, ops[0]);
      RunKeepsValues(Exec(s, ops[0]).value.state, ops[1..]);
    }
  }

  lemma ReadValue(s: State, n: Word)
    requires Inv(s)
    ensures ValuesOk(s)
    ensures Exec(s, NthValue(n)) ==
      Done(Effect(s, if n < s.valueCount then s.permanent[s.valuesArea.value][n] else NIL))
  {
    hide GraphOk, HandlesOk, PacingOk, Constructed, HeapEffect;
  }

  /** The latest pair of values can be read, and its objects are held, until the next one. */
  lemma ValuesLast(s: State, first: Word, second: Word, granted: bool, e: Effect, ops: seq<Op>, t: State, n: Word)
    requires Inv(s) && Exec(s, Values2(first, second, granted)) == Done(e) && Inv(e.state)
    requires Run(e.state, ops) == Done(t) && Inv(t) && NoValues(ops)
    ensures Exec(t, NthValue(n)) == Done(Effect(t, if n == 0 then first else if n == 1 then second else NIL))
    ensures first in s.store ==> Held(e.state, ops, first)
    ensures second in s.store ==> Held(e.state, ops, second)
  {
    hide Inv, Run, Held, Exec, NeverOverwritten;
    ValuesStored(s, first, second, granted, e);
    RunKeepsValues(e.state, ops);
    AreaHolds(e.state, ops, e.state.valuesArea.value, 0);
    AreaHolds(e.state, ops, e.state.valuesArea.value, 1);
    ReadValue(t, n);
  }

  lemma ValuesStored(s: State, first: Word, second: Word, granted: bool, e: Effect)
    requires Inv(s) && Exec(s, Values2(first, second, granted)) == Done(e)
    ensures var t := e.state;
      && t.valuesArea.Some? && t.valuesArea.value < |t.permanent| && t.permanent[t.valuesArea.value] == [first, second]
      && t.valueCount == 2 && e.value == first && t.store == s.store
  {
    hide GraphOk, HandlesOk, PacingOk, Constructed, HeapEffect;
  }

  // ---------- Closure calls ----------

  /** A whole closure call: enter, any contained code, leave. */
  ghost function Call(s: State, closure: Word, argument: Word, id: Word, code: seq<Op>): Outcome<State>
    requires Inv(s)
  {
    match Exec(s, EnterClosure(closure, argument, id))
    case Aborted => Aborted
    case Done(e) =>
      ExecKeepsInv(s, EnterClosure(closure, argument, id));
      match Run(e.state, code)
      case Aborted => Aborted
      case Done(t) =>
        match Exec(t, PopRoots(id))
        case Aborted => Aborted
        case Done(f) => Done(f.state)
  }

  /** However the code allocates, collects and calls, a closure call whose code handles only
      its own frames returns with the caller's frames; throughout, the closure stays the same
      object with the same environment, and environment and argument stay the objects they
      were. */
  lemma CallRestoresAndProtects(s: State, closure: Word, argument: Word, id: Word, code: seq<Op>,
                                e: Effect, t: State)
    requires Inv(s) && Exec(s, EnterClosure(closure, argument, id)) == Done(e) && Inv(e.state)
    requires DepthAfter(code, 0) == Some(0) && Run(e.state, code) == Done(t)
    ensures IsA(s.store, closure, Closure) && e.value == s.store[closure].slots[0]
    ensures Call(s, closure, argument, id, code) == Done(t.(frames := s.frames))
    ensures Held(e.state, code, closure) && SameObject(s, t, closure)
    ensures e.value in s.store ==> Held(e.state, code, e.value)
    ensures argument in s.store ==> Held(e.state, code, argument)
  {
    hide GraphOk, HandlesOk, PacingOk, Run, Rooted;
    var entered, frames := e.state, e.state.frames;
    RunKeepsBase(entered, code, 0, frames);
    assert t.frames == frames;
    assert frames[1..] == s.frames && frames[0].words == [closure, argument];
    assert frames[0].words[0] == closure && frames[0].words[1] == argument;
    CalleeHolds(entered, code, 0, frames, 0, closure);
    ClosureSurvives(entered, code, closure);
    if argument in s.store {
      CalleeHolds(entered, code, 0, frames, 0, argument);
    }
  }

  lemma ClosureSurvives(s: State, code: seq<Op>, closure: Word)
    requires Inv(s) && Run(s, code).Done? && Held(s, code, closure) && IsA(s.store, closure, Closure)
    ensures SameObject(s, Run(s, code).value, closure)
    ensures s.store[closure].slots[0] in s.store ==> Held(s, code, s.store[closure].slots[0])
  {
    ImmutableObjects(s, code, closure);
    RunKeepsHeld(s, code, closure);
    if s.store[closure].slots[0] in s.store {
      assert Children(s.store[closure])[0] == s.store[closure].slots[0];
      ChildIsHeld(s, code, closure, s.store[closure].slots[0]);
    }
  }
}
