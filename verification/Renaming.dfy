/** What overwriting names does to interning (runtime/package.c, runtime/string.c): exactly which
    writes keep every symbol answering to its name, exactly which symbol an intern returns after
    arbitrary writes, and a run from program start that ends with the wrong one. */
module Renaming {
  import opened Words
  import opened Heap
  import opened Machine
  import opened Operations
  import opened Invariants
  import opened Runs
  import opened Safety
  import opened Interning

  // ---------- One state ----------

  /** Every string with the entry's name is interned as the entry's symbol. */
  ghost predicate Answers(s: State, p: Word, e: Entry)
    requires Inv(s)
  {
    forall name, scan, at ::
      IsA(s.store, name, ByteString) && BodyOk(s.store[name]) && Text(s.store, name) == e.name ==>
        Exec(s, Intern(p, name, scan, at)) == Done(Effect(s, e.symbol))
  }

  /** All symbols of a package answer to their names exactly when the names are distinct. */
  lemma CanonicalIffUnique(s: State, p: Word, es: seq<Entry>)
    requires Inv(s) && Lists(s, p, es)
    ensures (forall k :: 0 <= k < |es| ==> Answers(s, p, es[k])) <==> UniqueNames(es)
  {
    hide InternEffect, Chain, VectorsOk, GrowthOk, HandlesOk;
    if UniqueNames(es) {
      forall k, name, scan, at | 0 <= k < |es| && IsA(s.store, name, ByteString) && BodyOk(s.store[name]) &&
                                 Text(s.store, name) == es[k].name
        ensures Exec(s, Intern(p, name, scan, at)) == Done(Effect(s, es[k].symbol))
      {
        InternFindsOld(s, p, es, k, name, scan, at);
      }
    } else {
      var i, j :| 0 <= i < j < |es| && es[i].name == es[j].name;
      LaterIsShadowed(s, p, es, i, j);
    }
  }

  lemma LaterIsShadowed(s: State, p: Word, es: seq<Entry>, i: nat, j: nat)
    requires Inv(s) && Lists(s, p, es) && i < j < |es| && es[i].name == es[j].name
    ensures !Answers(s, p, es[j])
  {
    hide InternEffect, Chain, GraphOk, HandlesOk;
    assert NamedBy(s.store, es[j]);
    var name := s.store[es[j].symbol].slots[0];
    var f := FirstNamed(es, es[j].name);
    FindsAt(s, p, es, name, Precise, 0);
    assert f <= i;
    if es[f].symbol == es[j].symbol {
      SymbolsAreUnique(s, p, es, f, j);
    }
  }

  lemma ListsAreUnique(s: State, p: Word, es: seq<Entry>, fs: seq<Entry>)
    requires Lists(s, p, es) && Lists(s, p, fs)
    ensures es == fs
  {
    ChainUnique(s.store, p, s.store[p].slots[1], Symbols(es), Symbols(fs));
    forall i | 0 <= i < |es|
      ensures es[i] == fs[i]
    {
      assert Symbols(es)[i] == Symbols(fs)[i] && NamedBy(s.store, es[i]) && NamedBy(s.store, fs[i]);
    }
  }

  // ---------- One write ----------

  /** The string is the name of this entry. */
  predicate NameIs(s: State, e: Entry, text: Word) {
    e.symbol in s.store && s.store[e.symbol].slots[0] == text
  }

  /** Some symbol is named by the string, and another one bears the name it would have. */
  ghost predicate Collides(s: State, es: seq<Entry>, text: Word, renamed: seq<Byte>) {
    exists i, j :: 0 <= i < |es| && 0 <= j < |es| && i != j && NameIs(s, es[i], text) && es[j].name == renamed
  }

  /** What the string will read after the write. */
  function TextAfter(s: State, text: Word, position: Word, byte: Byte): seq<Byte>
    requires IsA(s.store, text, ByteString) && BodyOk(s.store[text]) && position < s.store[text].length
  {
    Text(s.store, text)[position := byte]
  }

  lemma WrittenText(s: State, text: Word, position: Word, byte: Byte, t: State)
    requires Inv(s) && Exec(s, StringSetByte(text, position, byte)) == Done(Effect(t, 0))
    ensures IsA(s.store, text, ByteString) && BodyOk(s.store[text]) && position < s.store[text].length
    ensures IsA(t.store, text, ByteString) && BodyOk(t.store[text])
    ensures Text(t.store, text) == TextAfter(s, text, position, byte)
    ensures forall a :: a in s.store && a != text ==> SameObject(s, t, a)
  {
  }

  /** A write renames exactly the entries that the string names, and leaves the chain alone. */
  lemma WriteRenames(s: State, p: Word, es: seq<Entry>, text: Word, position: Word, byte: Byte, t: State)
    returns (all: seq<Entry>)
    requires Inv(s) && Inv(t) && Lists(s, p, es)
    requires Exec(s, StringSetByte(text, position, byte)) == Done(Effect(t, 0))
    ensures IsA(s.store, text, ByteString) && BodyOk(s.store[text]) && position < s.store[text].length
    ensures Lists(t, p, all) && Symbols(all) == Symbols(es) && |all| == |es|
    ensures forall i :: 0 <= i < |es| ==>
      all[i].name == if NameIs(s, es[i], text) then TextAfter(s, text, position, byte) else es[i].name
  {
    hide PackagesOk, VectorsOk, GrowthOk, HandlesOk, Chain, StringSetByteEffect;
    WrittenText(s, text, position, byte, t);
    all := RenamedEntries(s, p, es, text, t);
    forall i | 0 <= i < |es|
      ensures all[i].name == if NameIs(s, es[i], text) then TextAfter(s, text, position, byte) else es[i].name
    {
      assert NamedBy(s.store, es[i]) && NamedBy(t.store, all[i]) && es[i].symbol != text;
    }
  }

  lemma SharedName(s: State, p: Word, es: seq<Entry>, text: Word, i: nat, j: nat)
    requires Lists(s, p, es) && i < |es| && j < |es| && NameIs(s, es[i], text) && NameIs(s, es[j], text)
    ensures es[i].name == es[j].name
  {
    hide Chain;
    assert NamedBy(s.store, es[i]) && NamedBy(s.store, es[j]);
  }

  /** The guard of a write, which a caller can check before it: distinct names stay distinct
      exactly when the write does not give a symbol the name of another. */
  lemma WriteKeepsUnique(s: State, p: Word, es: seq<Entry>, text: Word, position: Word, byte: Byte, t: State,
                         all: seq<Entry>)
    requires Inv(s) && Inv(t) && Lists(s, p, es) && UniqueNames(es) && Lists(t, p, all)
    requires Exec(s, StringSetByte(text, position, byte)) == Done(Effect(t, 0))
    ensures IsA(s.store, text, ByteString) && BodyOk(s.store[text]) && position < s.store[text].length
    ensures UniqueNames(all) <==> !Collides(s, es, text, TextAfter(s, text, position, byte))
  {
    hide Inv, StringSetByteEffect, Lists, NameIs;
    var now := WriteRenames(s, p, es, text, position, byte, t);
    ListsAreUnique(t, p, all, now);
    forall i, j | 0 <= i < j < |es|
      ensures !(NameIs(s, es[i], text) && NameIs(s, es[j], text))
    {
      if NameIs(s, es[i], text) && NameIs(s, es[j], text) {
        SharedName(s, p, es, text, i, j);
      }
    }
    if Collides(s, es, text, TextAfter(s, text, position, byte)) {
      var i, j :| 0 <= i < |es| && 0 <= j < |es| && i != j && NameIs(s, es[i], text) &&
                  es[j].name == TextAfter(s, text, position, byte);
      assert all[i].name == all[j].name;
    }
  }

  // ---------- Runs ----------

  /** No write of the run gives a symbol of the package the name of another one. */
  ghost predicate Harmless(s: State, ops: seq<Op>, p: Word)
    requires Inv(s)
    decreases ops
  {
    ops != [] && Exec(s, ops[0]).Done? ==>
      && (ops[0].StringSetByte? ==> HarmlessWrite(s, ops[0], p))
      && (ExecKeepsInv(s, ops[0]); Harmless(Exec(s, ops[0]).value.state, ops[1..], p))
  }

  ghost predicate HarmlessWrite(s: State, op: Op, p: Word)
    requires Inv(s) && op.StringSetByte? && Exec(s, op).Done?
  {
    forall es :: Lists(s, p, es) ==> !Collides(s, es, op.text, TextAfter(s, op.text, op.position, op.byte))
  }

  /** Every symbol of the package answers to its name. */
  ghost predicate Canonical(s: State, p: Word)
    requires Inv(s)
  {
    forall es, k :: Lists(s, p, es) && 0 <= k < |es| ==> Answers(s, p, es[k])
  }

  ghost predicate AlwaysCanonical(s: State, ops: seq<Op>, p: Word)
    requires Inv(s)
    decreases ops
  {
    && Canonical(s, p)
    && (ops != [] && Exec(s, ops[0]).Done? ==>
          (ExecKeepsInv(s, ops[0]); AlwaysCanonical(Exec(s, ops[0]).value.state, ops[1..], p)))
  }

  lemma CanonicalIs(s: State, p: Word, es: seq<Entry>)
    requires Inv(s) && Lists(s, p, es)
    ensures Canonical(s, p) <==> UniqueNames(es)
  {
    hide Inv, Lists, Answers;
    CanonicalIffUnique(s, p, es);
    forall fs | Lists(s, p, fs)
      ensures fs == es
    {
      ListsAreUnique(s, p, fs, es);
    }
  }

  lemma StepStaysCanonical(s: State, op: Op, p: Word, es: seq<Entry>) returns (all: seq<Entry>)
    requires Inv(s) && Exec(s, op).Done? && Inv(Exec(s, op).value.state)
    requires p in Rooted(s) && Lists(s, p, es) && UniqueNames(es)
    ensures Lists(Exec(s, op).value.state, p, all)
    ensures UniqueNames(all) <==> (op.StringSetByte? ==> HarmlessWrite(s, op, p))
  {
    hide Inv, Lists, Rooted, Collides, Renames, StringSetByteEffect, InternEffect, UniqueNames;
    var t := Exec(s, op).value.state;
    if op.StringSetByte? {
      SetByteResult(s, op);
      all := WriteRenames(s, p, es, op.text, op.position, op.byte, t);
      WriteKeepsUnique(s, p, es, op.text, op.position, op.byte, t, all);
      forall fs | Lists(s, p, fs)
        ensures fs == es
      {
        ListsAreUnique(s, p, fs, es);
      }
    } else {
      assert !Renames(s, op, p) by { OnlyWritesRename(s, op, p); }
      all := StepExtendsEntries(s, op, p, es);
      assert UniqueNames(all) by { ExtendedIsUnique(es, all); }
    }
  }

  lemma SetByteResult(s: State, op: Op)
    requires Inv(s) && op.StringSetByte? && Exec(s, op).Done?
    ensures Exec(s, StringSetByte(op.text, op.position, op.byte)) == Done(Effect(Exec(s, op).value.state, 0))
  {
  }

  lemma OnlyWritesRename(s: State, op: Op, p: Word)
    requires !op.StringSetByte?
    ensures !Renames(s, op, p)
  {
  }

  lemma ExtendedIsUnique(es: seq<Entry>, all: seq<Entry>)
    requires Extended(es, all)
    ensures UniqueNames(all)
  {
  }

  /** The exact condition on runs: with the package rooted and its symbols answering to their
      names at the start, they do so after every call exactly when no write gives one of them
      the name of another. */
  lemma {:induction false} CanonicalRuns(s: State, ops: seq<Op>, p: Word)
    requires Inv(s) && Run(s, ops).Done? && Held(s, ops, p) && IsA(s.store, p, Package) && Canonical(s, p)
    ensures AlwaysCanonical(s, ops, p) <==> Harmless(s, ops, p)
    decreases ops
  {
    hide Inv, Exec, Lists, Rooted, Canonical, HarmlessWrite, UniqueNames;
    if ops != [] {
      var op, t := ops[0], Exec(s, ops[0]).value.state;
      ExecKeepsInv(s, op);
      var es := EntriesExist(s, p);
      CanonicalIs(s, p, es);
      var all := StepStaysCanonical(s, op, p, es);
      CanonicalIs(t, p, all);
      if Canonical(t, p) {
        ListedIsPackage(t, p, all);
        CanonicalRuns(t, ops[1..], p);
      }
    }
  }

  // ---------- After arbitrary writes ----------

  /** The symbols of a package stay, in order, behind those that were added since. */
  ghost predicate Behind(es: seq<Entry>, all: seq<Entry>) {
    |es| <= |all| && forall i :: 0 <= i < |es| ==> all[|all| - |es| + i].symbol == es[i].symbol
  }

  lemma StepKeepsSymbols(s: State, op: Op, p: Word, es: seq<Entry>) returns (all: seq<Entry>)
    requires Inv(s) && Exec(s, op).Done? && Inv(Exec(s, op).value.state) && p in Rooted(s) && Lists(s, p, es)
    ensures Lists(Exec(s, op).value.state, p, all) && Behind(es, all)
  {
    hide Inv, Lists, Rooted, Renames, StringSetByteEffect, InternEffect;
    if op.StringSetByte? {
      SetByteResult(s, op);
      all := WriteRenames(s, p, es, op.text, op.position, op.byte, Exec(s, op).value.state);
      assert forall i :: 0 <= i < |es| ==> Symbols(all)[i] == Symbols(es)[i];
    } else if op.Intern? && op.package == p {
      all := InternKeepsSymbols(s, op, es);
    } else {
      OnlyWritesRename(s, op, p);
      StepKeepsEntries(s, op, p, es);
      all := es;
    }
  }

  lemma InternKeepsSymbols(s: State, op: Op, es: seq<Entry>) returns (all: seq<Entry>)
    requires Inv(s) && op.Intern? && Exec(s, op).Done? && Lists(s, op.package, es)
    ensures Lists(Exec(s, op).value.state, op.package, all) && Behind(es, all)
  {
    hide InternEffect, Lists, Constructed, TableEffect, NamesOk, PackagesOk, VectorsOk, GrowthOk, HandlesOk;
    InternRefines(s, op.package, op.name, op.scan, op.at, es);
    var text := Text(s.store, op.name);
    all := if FirstNamed(es, text) < |es| then es else [Entry(text, op.at)] + es;
  }

  lemma {:induction false} RunKeepsSymbols(s: State, ops: seq<Op>, p: Word, es: seq<Entry>) returns (all: seq<Entry>)
    requires Inv(s) && Run(s, ops).Done? && Held(s, ops, p) && Lists(s, p, es)
    ensures Lists(Run(s, ops).value, p, all) && Behind(es, all)
    decreases ops
  {
    hide Inv, Exec, Lists, Rooted;
    if ops == [] {
      all := es;
    } else {
      ExecKeepsInv(s, ops[0]);
      var mid := StepKeepsSymbols(s, ops[0], p, es);
      all := RunKeepsSymbols(Exec(s, ops[0]).value.state, ops[1..], p, mid);
      assert forall i :: 0 <= i < |es| ==> all[|all| - |mid| + (|mid| - |es| + i)].symbol == es[i].symbol;
    }
  }

  /** Interning after any run, whatever names it overwrites: the symbol of the first intern is
      still in the chain, and the second one returns it exactly when it is the first symbol
      there to bear the second name at that time. */
  lemma InternAfterWrites(s: State, p: Word, name1: Word, scan1: Scan, at1: Word, first: Effect,
                          ops: seq<Op>, t: State, name2: Word, scan2: Scan, at2: Word, second: Effect)
    returns (all: seq<Entry>, k: nat)
    requires Inv(s) && Exec(s, Intern(p, name1, scan1, at1)) == Done(first) && Inv(first.state)
    requires Run(first.state, ops) == Done(t) && Held(first.state, ops, p)
    requires Inv(t) && Exec(t, Intern(p, name2, scan2, at2)) == Done(second)
    ensures IsA(t.store, name2, ByteString) && BodyOk(t.store[name2])
    ensures Lists(t, p, all) && k < |all| && all[k].symbol == first.value
    ensures first.value == second.value <==> Bears(all, k, Text(t.store, name2))
  {
    hide Inv, Run, Held, InternEffect, Lists, Bears;
    var es, i := InternedEntry(s, p, name1, scan1, at1, first);
    all := RunKeepsSymbols(first.state, ops, p, es);
    k := |all| - |es| + i;
    InternAnswers(t, p, all, k, name2, scan2, at2);
  }

  lemma InternedEntry(s: State, p: Word, name: Word, scan: Scan, at: Word, e: Effect) returns (all: seq<Entry>, i: nat)
    requires Inv(s) && Exec(s, Intern(p, name, scan, at)) == Done(e)
    ensures Lists(e.state, p, all) && i < |all| && all[i].symbol == e.value
  {
    hide Lists, HandlesOk, VectorsOk, GrowthOk;
    var es := EntriesExist(s, p);
    InternRefines(s, p, name, scan, at, es);
    var text := Text(s.store, name);
    i := FirstNamed(es, text);
    if i < |es| {
      all := es;
    } else {
      all, i := [Entry(text, at)] + es, 0;
    }
  }

  // ---------- The failure ----------

  /** A harmful write: overwriting the newest symbol's name so that it equals an older one makes
      interning that name answer with the wrong symbol. */
  lemma RenamingShadows(s: State, p: Word, es: seq<Entry>, k: nat, position: Word, byte: Byte, t: State,
                        name: Word, scan: Scan, at: Word)
    requires Inv(s) && Lists(s, p, es) && UniqueNames(es) && 0 < k < |es| && NamedBy(s.store, es[0])
    requires IsA(s.store, name, ByteString) && BodyOk(s.store[name]) && Text(s.store, name) == es[k].name
    requires Exec(s, StringSetByte(s.store[es[0].symbol].slots[0], position, byte)) == Done(Effect(t, 0))
    requires Inv(t) && NamedBy(t.store, Entry(es[k].name, es[0].symbol))
    ensures Exec(s, Intern(p, name, scan, at)) == Done(Effect(s, es[k].symbol))
    ensures Exec(t, Intern(p, name, scan, at)) == Done(Effect(t, es[0].symbol))
    ensures es[0].symbol != es[k].symbol
  {
    InternFindsOld(s, p, es, k, name, scan, at);
    SymbolsAreUniqueUnless(s, p, es, k);
    RenamedFirst(s, p, es, k, position, byte, t, name, scan, at);
  }

  lemma RenamedFirst(s: State, p: Word, es: seq<Entry>, k: nat, position: Word, byte: Byte, t: State,
                     name: Word, scan: Scan, at: Word)
    requires Inv(s) && Lists(s, p, es) && UniqueNames(es) && 0 < k < |es| && NamedBy(s.store, es[0])
    requires IsA(s.store, name, ByteString) && BodyOk(s.store[name]) && Text(s.store, name) == es[k].name
    requires Exec(s, StringSetByte(s.store[es[0].symbol].slots[0], position, byte)) == Done(Effect(t, 0))
    requires Inv(t) && NamedBy(t.store, Entry(es[k].name, es[0].symbol))
    ensures Exec(t, Intern(p, name, scan, at)) == Done(Effect(t, es[0].symbol))
  {
    hide Inv, Exec, Chain;
    assert name != s.store[es[0].symbol].slots[0];
    WrittenText(s, s.store[es[0].symbol].slots[0], position, byte, t);
    var renamed := RenamedEntries(s, p, es, s.store[es[0].symbol].slots[0], t);
    assert renamed[0].name == es[k].name;
    InternFindsFirst(t, p, renamed, name, scan, at);
  }

  lemma SymbolsAreUniqueUnless(s: State, p: Word, es: seq<Entry>, k: nat)
    requires Lists(s, p, es) && 0 < k < |es|
    ensures es[0].symbol != es[k].symbol
  {
    ChainIsAcyclic(s.store, p, s.store[p].slots[1], Symbols(es), 0, k);
  }

  const A: seq<Byte> := [97]
  const B: seq<Byte> := [98]

  /** The strings "a" and "b", a package, and a symbol for each string. */
  const MADE: seq<Op> := [
    CopyString(BytesAt(A), Precise, 8),
    CopyString(BytesAt(B), Precise, 16),
    MakePackage(8, Precise, 24),
    Intern(24, 8, Precise, 32),
    Intern(24, 16, Precise, 40)]

  /** Below the limit nothing is collected. */
  ghost predicate Roomy(s: State, at: Word) {
    Inv(s) && |s.order| < s.limit && Usable(s, at)
  }

  lemma RunOne(s: State, ops: seq<Op>, e: Effect)
    requires Inv(s) && ops != [] && Exec(s, ops[0]) == Done(e)
    ensures Inv(e.state) && Run(s, ops) == Run(e.state, ops[1..])
  {
    ExecKeepsInv(s, ops[0]);
  }

  lemma CopyStep(s: State, bytes: seq<Byte>, at: Word, ops: seq<Op>) returns (t: State)
    requires Roomy(s, at) && |bytes| == 1
    requires ops != [] && ops[0] == CopyString(BytesAt(bytes), Precise, at)
    ensures t == Insert(s, at, StringBody(bytes)) && Inv(t) && Run(s, ops) == Run(t, ops[1..])
  {
    hide GraphOk, HandlesOk, PacingOk, Run;
    t := Insert(s, at, StringBody(bytes));
    RunOne(s, ops, Effect(t, at));
  }

  lemma PackageStep(s: State, name: Word, at: Word, ops: seq<Op>) returns (t: State)
    requires Roomy(s, at) && IsA(s.store, name, ByteString)
    requires ops != [] && ops[0] == MakePackage(name, Precise, at)
    ensures t == Insert(s, at, PackageBody(name, NIL)) && Inv(t) && Run(s, ops) == Run(t, ops[1..])
    ensures Lists(t, at, []) && UniqueNames([])
  {
    hide GraphOk, HandlesOk, PacingOk, Run;
    t := Insert(s, at, PackageBody(name, NIL));
    RunOne(s, ops, Effect(t, at));
    NewPackageIsEmpty(s, name, Precise, at);
  }

  lemma InternStep(s: State, p: Word, name: Word, at: Word, es: seq<Entry>, text: seq<Byte>, ops: seq<Op>)
    returns (t: State)
    requires Roomy(s, at) && Lists(s, p, es) && IsA(s.store, name, ByteString) && BodyOk(s.store[name])
    requires text == Text(s.store, name) && FirstNamed(es, text) == |es|
    requires ops != [] && ops[0] == Intern(p, name, Precise, at)
    ensures t == LinkSymbol(s, p, name, at) && Inv(t) && Run(s, ops) == Run(t, ops[1..])
    ensures Lists(t, p, [Entry(text, at)] + es)
  {
    hide VectorsOk, GrowthOk, HandlesOk, PacingOk, Run, Live, RootSet;
    t := LinkSymbol(s, p, name, at);
    NotFound(s, p, name, at, es);
    RunOne(s, ops, Effect(t, at));
    InternRefines(s, p, name, Precise, at, es);
  }

  lemma NotFound(s: State, p: Word, name: Word, at: Word, es: seq<Entry>)
    requires Roomy(s, at) && Lists(s, p, es) && IsA(s.store, name, ByteString) && BodyOk(s.store[name])
    requires FirstNamed(es, Text(s.store, name)) == |es|
    ensures Exec(s, Intern(p, name, Precise, at)) == Done(Effect(LinkSymbol(s, p, name, at), at))
  {
    hide VectorsOk, GrowthOk, HandlesOk, PacingOk, Live, RootSet, Constructed, TableEffect;
    ExecIntern(s, p, name, Precise, at);
    InternLooksUp(s, p, es, name, Precise, at);
  }

  lemma Addresses()
    ensures forall w: Word :: w in {8, 16, 24, 32, 40} ==> HeapTagged(w)
  {
    forall w: Word | w in {8, 16, 24, 32, 40}
      ensures HeapTagged(w)
    {
      HeapTaggedIsAligned(w);
    }
  }

  /** The strings "a" and "b" at 8 and 16, within the limit, and nothing in `free`. */
  ghost predicate Prepared(s: State, count: nat, free: set<Word>) {
    && Inv(s) && |s.order| == count < 10 && s.limit == 256
    && 8 in s.store && s.store[8] == StringBody(A)
    && 16 in s.store && s.store[16] == StringBody(B)
    && s.store.Keys !! free && forall w :: w in free ==> HeapTagged(w)
  }

  lemma StringsMade() returns (s: State)
    ensures Inv(INITIAL) && Prepared(s, 2, {24, 32, 40})
    ensures Run(INITIAL, MADE) == Run(s, MADE[2..])
  {
    hide Run, GraphOk, HandlesOk, PacingOk;
    Addresses();
    InitialInv();
    s := CopyStep(INITIAL, A, 8, MADE);
    assert MADE[1..][0] == MADE[1] && MADE[1..][1..] == MADE[2..];
    s := CopyStep(s, B, 16, MADE[1..]);
  }

  lemma PackageMade() returns (s: State)
    ensures Inv(INITIAL) && Prepared(s, 3, {32, 40}) && Lists(s, 24, [])
    ensures Run(INITIAL, MADE) == Run(s, MADE[3..])
  {
    hide Run, GraphOk, HandlesOk, PacingOk, Lists;
    s := StringsMade();
    assert MADE[2..][0] == MADE[2] && MADE[2..][1..] == MADE[3..];
    s := PackageStep(s, 8, 24, MADE[2..]);
  }

  lemma LinkKeepsPrepared(s: State, count: nat, free: set<Word>, name: Word, at: Word)
    requires Prepared(s, count, free) && count < 9 && IsA(s.store, 24, Package) && at in free
    requires Inv(LinkSymbol(s, 24, name, at))
    ensures Prepared(LinkSymbol(s, 24, name, at), count + 1, free - {at})
  {
    hide GraphOk, HandlesOk, PacingOk;
  }

  lemma FirstSymbolMade() returns (s: State)
    ensures Inv(INITIAL) && Prepared(s, 4, {40}) && Lists(s, 24, [Entry(A, 32)])
    ensures Run(INITIAL, MADE) == Run(s, MADE[4..])
  {
    hide Run, GraphOk, HandlesOk, PacingOk, Chain;
    var p := PackageMade();
    assert MADE[3..][0] == MADE[3] && MADE[3..][1..] == MADE[4..];
    assert Text(p.store, 8) == A;
    s := InternStep(p, 24, 8, 32, [], A, MADE[3..]);
    LinkKeepsPrepared(p, 3, {32, 40}, 8, 32);
    assert {32, 40} - {32} == {40};
    assert [Entry(A, 32)] + [] == [Entry(A, 32)];
  }

  lemma SymbolsMade() returns (s: State)
    ensures Inv(INITIAL) && Prepared(s, 5, {}) && Lists(s, 24, [Entry(B, 40), Entry(A, 32)])
    ensures s.store[40].slots[0] == 16 && Run(INITIAL, MADE) == Done(s)
  {
    hide GraphOk, HandlesOk, PacingOk, Chain, NamedBy, HeapTagged;
    var p := FirstSymbolMade();
    assert MADE[4..][0] == MADE[4] && MADE[4..][1..] == [];
    assert Text(p.store, 16) == B;
    assert A[0] != B[0];
    s := InternStep(p, 24, 16, 40, [Entry(A, 32)], B, MADE[4..]);
    LinkKeepsPrepared(p, 4, {40}, 16, 40);
    assert {40} - {40} == {};
    assert [Entry(B, 40)] + [Entry(A, 32)] == [Entry(B, 40), Entry(A, 32)];
  }

  /** After the run, interning the string "a" returns the symbol made for it; once the "b" of
      the other symbol is overwritten with "a", it returns that one. */
  lemma RenamingHappens()
    ensures Inv(INITIAL) && Run(INITIAL, MADE).Done?
    ensures var s := Run(INITIAL, MADE).value;
      && Exec(s, Intern(24, 8, Precise, 48)) == Done(Effect(s, 32))
      && Exec(s, StringSetByte(16, 0, A[0])).Done?
      && var t := Exec(s, StringSetByte(16, 0, A[0])).value.state;
         Inv(t) && Exec(t, Intern(24, 8, Precise, 48)) == Done(Effect(t, 40))
  {
    hide GraphOk, HandlesOk, PacingOk, Chain, InternEffect, Run;
    var s := SymbolsMade();
    var t := Write(s, 16, StringBody(A));
    assert StringBody(B).(bytes := StringBody(B).bytes[0 := A[0]]) == StringBody(A);
    StringSetKeepsInv(s, 16, 0, A[0]);
    RenamingShadows(s, 24, [Entry(B, 40), Entry(A, 32)], 1, 0, A[0], t, 8, Precise, 48);
  }
}
