/** A package is an association list from names to symbols, and interning is canonical
    (runtime/package.c, runtime/symbol.c). */
module Interning {
  import opened Words
  import opened Heap
  import opened Machine
  import opened Operations
  import opened Invariants
  import opened Runs
  import opened Safety

  datatype Entry = Entry(name: seq<Byte>, symbol: Word)

  function Symbols(es: seq<Entry>): (c: seq<Word>)
    ensures |c| == |es| && forall i :: 0 <= i < |es| ==> c[i] == es[i].symbol
  {
    seq(|es|, i requires 0 <= i < |es| => es[i].symbol)
  }

  ghost predicate NamedBy(store: Store, e: Entry) {
    && IsA(store, e.symbol, Symbol) && IsA(store, store[e.symbol].slots[0], ByteString)
    && BodyOk(store[store[e.symbol].slots[0]])
    && Text(store, store[e.symbol].slots[0]) == e.name
  }

  /** Package p holds exactly these entries, most recent first. */
  ghost predicate Lists(s: State, p: Word, es: seq<Entry>) {
    && IsA(s.store, p, Package)
    && Chain(s.store, p, s.store[p].slots[1], Symbols(es))
    && forall i :: 0 <= i < |es| ==> NamedBy(s.store, es[i])
  }

  ghost predicate UniqueNames(es: seq<Entry>) {
    forall i, j :: 0 <= i < j < |es| ==> es[i].name != es[j].name
  }

  function FirstNamed(es: seq<Entry>, name: seq<Byte>): (i: nat)
    ensures i <= |es|
    ensures i < |es| ==> es[i].name == name
    ensures forall j :: 0 <= j < i ==> es[j].name != name
  {
    if es == [] || es[0].name == name then 0 else 1 + FirstNamed(es[1..], name)
  }

  /** Every live package lists some entries. */
  lemma EntriesExist(s: State, p: Word) returns (es: seq<Entry>)
    requires Inv(s) && IsA(s.store, p, Package)
    ensures Lists(s, p, es)
  {
    var c := ChainOf(s.store, p);
    ChainIsNamed(s, p, s.store[p].slots[1], c);
    es := seq(|c|, i requires 0 <= i < |c| => Entry(Text(s.store, s.store[c[i]].slots[0]), c[i]));
    assert Symbols(es) == c;
  }

  lemma ListedIsPackage(s: State, p: Word, es: seq<Entry>)
    requires Lists(s, p, es)
    ensures IsA(s.store, p, Package)
  {
  }

  /** Chains are finite and never visit a symbol twice, so the walk ends. */
  lemma {:induction false} ChainIsAcyclic(store: Store, p: Word, w: Word, c: seq<Word>, i: nat, j: nat)
    requires Chain(store, p, w, c) && i < j < |c|
    ensures c[i] != c[j]
    decreases c
  {
    if i > 0 {
      ChainIsAcyclic(store, p, store[w].slots[2], c[1..], i - 1, j - 1);
    } else if c[0] == c[j] {
      var rest := ChainSuffix(store, p, w, c, j);
      ChainUnique(store, p, w, c, rest);
    }
  }

  lemma {:induction false} ChainSuffix(store: Store, p: Word, w: Word, c: seq<Word>, j: nat) returns (rest: seq<Word>)
    requires Chain(store, p, w, c) && j < |c|
    ensures rest == c[j..] && Chain(store, p, c[j], rest)
    decreases c
  {
    rest := c[j..];
    if j > 0 {
      var r := ChainSuffix(store, p, store[w].slots[2], c[1..], j - 1);
      assert c[1..][j - 1..] == c[j..];
    } else {
      assert c[0..] == c;
    }
  }

  // ---------- One intern ----------

  lemma LookupIsFirstNamed(s: State, c: seq<Word>, es: seq<Entry>, name: seq<Byte>)
    requires ChainNamed(s.store, c) && c == Symbols(es)
    requires forall i :: 0 <= i < |es| ==> NamedBy(s.store, es[i])
    ensures Lookup(s.store, c, name) == FirstNamed(es, name)
  {
    forall k | 0 <= k < |c|
      ensures ChainNamed(s.store, [c[k]]) && NameOf(s.store, c[k]) == es[k].name
    {
      assert NamedBy(s.store, es[k]);
    }
  }

  lemma InternedText(s: State, package: Word, name: Word, extra: set<Word>, at: Word)
    requires HeapOk(s) && IsA(s.store, package, Package) && IsA(s.store, name, ByteString)
    requires package in extra && name in extra && InternNew(s, package, name, extra, at).Done?
    ensures NamedBy(InternNew(s, package, name, extra, at).value.state.store, Entry(Text(s.store, name), at))
  {
    SettleKeepsExtra(s, extra, package);
    SettleKeepsExtra(s, extra, name);
  }

  lemma LinkKeepsEntry(t: State, p: Word, name: Word, at: Word, e: Entry)
    requires NamedBy(t.store, e) && IsA(t.store, p, Package) && Usable(t, at)
    ensures NamedBy(LinkSymbol(t, p, name, at).store, e)
  {
  }

  lemma OldEntriesStay(s: State, p: Word, name: Word, extra: set<Word>, at: Word, es: seq<Entry>)
    requires Inv(s) && Lists(s, p, es) && p in extra && InternNew(s, p, name, extra, at).Done?
    ensures forall i :: 0 <= i < |es| ==> NamedBy(InternNew(s, p, name, extra, at).value.state.store, es[i])
  {
    var t := Settle(s, extra);
    RootIsLive(s.store, RootSet(s) + extra, p);
    SettleKeepsExtra(s, extra, p);
    ChainIsLive(s, RootSet(s) + extra, p, es);
    forall i | 0 <= i < |es|
      ensures NamedBy(LinkSymbol(t, p, name, at).store, es[i])
    {
      assert NamedBy(s.store, es[i]);
      SettleKeeps(s, extra, es[i].symbol);
      SettleKeeps(s, extra, s.store[es[i].symbol].slots[0]);
      LinkKeepsEntry(t, p, name, at, es[i]);
    }
  }

  /** Symbols of a live package and their name strings are live. */
  lemma ChainIsLive(s: State, roots: set<Word>, p: Word, es: seq<Entry>)
    requires Inv(s) && Lists(s, p, es) && p in Live(s.store, roots)
    ensures forall i :: 0 <= i < |es| ==>
      es[i].symbol in Live(s.store, roots) && s.store[es[i].symbol].slots[0] in Live(s.store, roots)
  {
    assert Children(s.store[p])[1] == s.store[p].slots[1];
    if s.store[p].slots[1] in s.store {
      ChildIsLive(s.store, roots, p, s.store[p].slots[1]);
    }
    ChainLiveFrom(s.store, roots, p, s.store[p].slots[1], Symbols(es));
    forall i | 0 <= i < |es|
      ensures es[i].symbol in Live(s.store, roots) && s.store[es[i].symbol].slots[0] in Live(s.store, roots)
    {
      var a := es[i].symbol;
      assert a == Symbols(es)[i] && NamedBy(s.store, es[i]);
      assert Children(s.store[a])[0] == s.store[a].slots[0];
      ChildIsLive(s.store, roots, a, s.store[a].slots[0]);
    }
  }

  lemma {:induction false} ChainLiveFrom(store: Store, roots: set<Word>, p: Word, w: Word, c: seq<Word>)
    requires Chain(store, p, w, c) && (w in store ==> w in Live(store, roots))
    ensures forall a :: a in c ==> a in Live(store, roots)
    decreases c
  {
    if c != [] {
      var link := store[w].slots[2];
      assert Children(store[w])[2] == link;
      if link in store {
        ChildIsLive(store, roots, w, link);
      }
      ChainLiveFrom(store, roots, p, link, c[1..]);
      assert c == [c[0]] + c[1..];
    }
  }

  lemma InternNewChain(s: State, p: Word, name: Word, extra: set<Word>, at: Word, c: seq<Word>)
    requires Inv(s) && IsA(s.store, p, Package) && IsA(s.store, name, ByteString)
    requires p in extra && name in extra && InternNew(s, p, name, extra, at).Done?
    requires Chain(s.store, p, s.store[p].slots[1], c)
    ensures var store := InternNew(s, p, name, extra, at).value.state.store;
      IsA(store, p, Package) && Chain(store, p, store[p].slots[1], [at] + c)
  {
    InternNewKeepsInv(s, p, name, extra, at, c);
    SettleKeepsExtra(s, extra, p);
  }

  lemma AddedEntry(s: State, p: Word, name: Word, extra: set<Word>, at: Word, es: seq<Entry>)
    requires Inv(s) && Lists(s, p, es) && IsA(s.store, name, ByteString)
    requires p in extra && name in extra && InternNew(s, p, name, extra, at).Done?
    ensures Lists(InternNew(s, p, name, extra, at).value.state, p, [Entry(Text(s.store, name), at)] + es)
  {
    hide Live, PackagesOk, VectorsOk, NamesOk, GrowthOk, HandlesOk, Settle;
    var all := [Entry(Text(s.store, name), at)] + es;
    InternNewChain(s, p, name, extra, at, Symbols(es));
    assert Symbols(all) == [at] + Symbols(es);
    InternedText(s, p, name, extra, at);
    OldEntriesStay(s, p, name, extra, at, es);
  }

  /** Interning finds the first entry with that name and changes nothing, or else adds
      exactly one entry in front. */
  lemma InternRefines(s: State, p: Word, name: Word, scan: Scan, at: Word, es: seq<Entry>)
    requires Inv(s) && Lists(s, p, es) && Exec(s, Intern(p, name, scan, at)).Done?
    ensures IsA(s.store, name, ByteString) && BodyOk(s.store[name])
    ensures var e := Exec(s, Intern(p, name, scan, at)).value; var text := Text(s.store, name);
      var i := FirstNamed(es, text);
      if i < |es| then e == Effect(s, es[i].symbol)
      else e.value == at && Lists(e.state, p, [Entry(text, at)] + es)
  {
    hide NamesOk, PackagesOk, VectorsOk, GrowthOk, HandlesOk, InternEffect, Live, RootSet;
    ExecIntern(s, p, name, scan, at);
    InternNamed(s, p, name, scan, at);
    InternLooksUp(s, p, es, name, scan, at);
    if FirstNamed(es, Text(s.store, name)) == |es| {
      AddedEntry(s, p, name, {p, name} + ScanWords(scan), at, es);
    }
  }

  // ---------- Other calls ----------

  /** The call overwrites a byte of the name of one of the package's symbols. */
  ghost predicate Renames(s: State, op: Op, p: Word) {
    op.StringSetByte? &&
    exists a :: IsA(s.store, a, Symbol) && s.store[a].slots[1] == p && s.store[a].slots[0] == op.text
  }

  lemma EntriesFrame(s: State, t: State, p: Word, es: seq<Entry>)
    requires Lists(s, p, es) && SameObject(s, t, p)
    requires forall i :: 0 <= i < |es| ==>
      SameObject(s, t, es[i].symbol) && SameObject(s, t, s.store[es[i].symbol].slots[0])
    ensures Lists(t, p, es)
  {
    ChainMembers(s.store, p, s.store[p].slots[1], Symbols(es));
    ChainFrame(s.store, t.store, p, s.store[p].slots[1], Symbols(es));
    forall i | 0 <= i < |es|
      ensures NamedBy(t.store, es[i])
    {
      assert NamedBy(s.store, es[i]);
    }
  }

  lemma EntryUnwritten(s: State, op: Op, p: Word, e: Entry)
    requires Inv(s) && Exec(s, op).Done? && !Renames(s, op, p)
    requires NamedBy(s.store, e) && s.store[e.symbol].slots[1] == p
    ensures e.symbol !in Written(s, op) && s.store[e.symbol].slots[0] !in Written(s, op)
  {
    WrittenKinds(s, op);
    WrittenStrings(s, op, s.store[e.symbol].slots[0]);
  }

  /** Only string-set-byte writes strings. */
  lemma WrittenStrings(s: State, op: Op, a: Word)
    requires Inv(s) && Exec(s, op).Done? && IsA(s.store, a, ByteString)
    ensures a in Written(s, op) ==> op.StringSetByte? && op.text == a
  {
    if op.VectorSet? || op.VectorPush? {
      assert Backed(s.store, op.vector);
    }
  }

  /** Every other call leaves a rooted package's entries alone. */
  lemma StepKeepsEntries(s: State, op: Op, p: Word, es: seq<Entry>)
    requires Inv(s) && Exec(s, op).Done? && p in Rooted(s) && Lists(s, p, es)
    requires !Renames(s, op, p) && !(op.Intern? && op.package == p)
    ensures Lists(Exec(s, op).value.state, p, es)
  {
    hide Inv, Exec, Written, Renames;
    var t := Exec(s, op).value.state;
    ChainIsLive(s, RootSet(s), p, es);
    ChainMembers(s.store, p, s.store[p].slots[1], Symbols(es));
    RootedIsLive(s, op, p);
    StepKeepsRooted(s, op, p);
    WrittenPackages(s, op, p);
    forall i | 0 <= i < |es|
      ensures SameObject(s, t, es[i].symbol) && SameObject(s, t, s.store[es[i].symbol].slots[0])
    {
      assert Symbols(es)[i] == es[i].symbol && NamedBy(s.store, es[i]);
      EntryUnwritten(s, op, p, es[i]);
      EntrySurvives(s, op, es[i].symbol);
      EntrySurvives(s, op, s.store[es[i].symbol].slots[0]);
    }
    EntriesFrame(s, t, p, es);
  }

  lemma EntrySurvives(s: State, op: Op, a: Word)
    requires Inv(s) && Exec(s, op).Done? && a in Rooted(s) && a !in Written(s, op)
    ensures SameObject(s, Exec(s, op).value.state, a)
  {
    RootedIsLive(s, op, a);
    StepKeepsRooted(s, op, a);
  }

  lemma WrittenPackages(s: State, op: Op, p: Word)
    requires Inv(s) && Exec(s, op).Done? && IsA(s.store, p, Package) && !(op.Intern? && op.package == p)
    ensures p !in Written(s, op)
  {
    if op.VectorSet? || op.VectorPush? {
      assert Backed(s.store, op.vector);
    }
  }

  // ---------- Runs ----------

  ghost predicate NeverRenamed(s: State, ops: seq<Op>, p: Word)
    requires Inv(s)
    decreases ops
  {
    ops != [] ==>
      && !Renames(s, ops[0], p)
      && (Exec(s, ops[0]).Done? ==>
            (ExecKeepsInv(s, ops[0]); NeverRenamed(Exec(s, ops[0]).value.state, ops[1..], p)))
  }

  /** The entries after a call: one may have been added in front. */
  ghost predicate Extended(es: seq<Entry>, all: seq<Entry>) {
    |es| <= |all| && all[|all| - |es|..] == es && UniqueNames(all)
  }

  lemma Prepended(es: seq<Entry>, text: seq<Byte>, at: Word)
    requires UniqueNames(es) && FirstNamed(es, text) == |es|
    ensures Extended(es, [Entry(text, at)] + es)
  {
  }

  lemma ExtendedTrans(a: seq<Entry>, b: seq<Entry>, c: seq<Entry>)
    requires Extended(a, b) && Extended(b, c)
    ensures Extended(a, c)
  {
    assert c[|c| - |a|..] == b[|b| - |a|..];
  }

  lemma InternExtendsEntries(s: State, p: Word, name: Word, scan: Scan, at: Word, es: seq<Entry>)
    returns (all: seq<Entry>)
    requires Inv(s) && Exec(s, Intern(p, name, scan, at)).Done? && Lists(s, p, es) && UniqueNames(es)
    ensures Lists(Exec(s, Intern(p, name, scan, at)).value.state, p, all) && Extended(es, all)
    ensures IsA(s.store, name, ByteString) && BodyOk(s.store[name])
    ensures Entry(Text(s.store, name), Exec(s, Intern(p, name, scan, at)).value.value) in all
  {
    InternRefines(s, p, name, scan, at, es);
    var text := Text(s.store, name);
    var i := FirstNamed(es, text);
    if i < |es| {
      all := es;
      assert all[i] == Entry(text, all[i].symbol);
    } else {
      all := [Entry(text, at)] + es;
      Prepended(es, text, at);
      assert all[0] == Entry(text, at);
    }
  }

  lemma InternStepExtends(s: State, op: Op, es: seq<Entry>) returns (all: seq<Entry>)
    requires Inv(s) && op.Intern? && Exec(s, op).Done? && Lists(s, op.package, es) && UniqueNames(es)
    ensures Lists(Exec(s, op).value.state, op.package, all) && Extended(es, all)
  {
    hide InternEffect;
    all := InternExtendsEntries(s, op.package, op.name, op.scan, op.at, es);
  }

  lemma StepExtendsEntries(s: State, op: Op, p: Word, es: seq<Entry>) returns (all: seq<Entry>)
    requires Inv(s) && Exec(s, op).Done? && p in Rooted(s) && Lists(s, p, es) && UniqueNames(es) && !Renames(s, op, p)
    ensures Lists(Exec(s, op).value.state, p, all) && Extended(es, all)
  {
    if op.Intern? && op.package == p {
      all := InternStepExtends(s, op, es);
    } else {
      StepKeepsEntries(s, op, p, es);
      all := es;
    }
  }

  /** Over any run that keeps the package rooted and its names unmutated, entries are only
      ever added in front, and distinct names stay distinct. */
  lemma {:induction false} RunExtendsEntries(s: State, ops: seq<Op>, p: Word, es: seq<Entry>) returns (all: seq<Entry>)
    requires Inv(s) && Run(s, ops).Done? && Held(s, ops, p) && NeverRenamed(s, ops, p)
    requires Lists(s, p, es) && UniqueNames(es)
    ensures Lists(Run(s, ops).value, p, all) && Extended(es, all)
    decreases ops
  {
    if ops == [] {
      all := es;
    } else {
      var mid := StepExtendsEntries(s, ops[0], p, es);
      ExecKeepsInv(s, ops[0]);
      all := RunExtendsEntries(Exec(s, ops[0]).value.state, ops[1..], p, mid);
      ExtendedTrans(es, mid, all);
    }
  }

  /** In a package with distinct names, entries with the same symbol are the same entry. */
  lemma SymbolsAreUnique(s: State, p: Word, es: seq<Entry>, i: nat, j: nat)
    requires Lists(s, p, es) && i < |es| && j < |es| && es[i].symbol == es[j].symbol
    ensures i == j
  {
    if i < j {
      ChainIsAcyclic(s.store, p, s.store[p].slots[1], Symbols(es), i, j);
    } else if j < i {
      ChainIsAcyclic(s.store, p, s.store[p].slots[1], Symbols(es), j, i);
    }
  }

  /** Entry k is the first one with this name. */
  ghost predicate Bears(es: seq<Entry>, k: nat, text: seq<Byte>) {
    k < |es| && es[k].name == text && forall j :: 0 <= j < k ==> es[j].name != text
  }

  /** Interning returns the symbol of entry k exactly when that entry is the first to bear the
      name, whether or not names are distinct. */
  lemma InternAnswers(t: State, p: Word, es: seq<Entry>, k: nat, name: Word, scan: Scan, at: Word)
    requires Inv(t) && Lists(t, p, es) && k < |es| && Exec(t, Intern(p, name, scan, at)).Done?
    ensures IsA(t.store, name, ByteString) && BodyOk(t.store[name])
    ensures Exec(t, Intern(p, name, scan, at)).value.value == es[k].symbol <==> Bears(es, k, Text(t.store, name))
  {
    hide InternEffect, Lists, GraphOk, HandlesOk;
    InternRefines(t, p, name, scan, at, es);
    var text := Text(t.store, name);
    var j := FirstNamed(es, text);
    if j < |es| {
      if es[j].symbol == es[k].symbol {
        SymbolsAreUnique(t, p, es, j, k);
      }
    } else {
      var all := [Entry(text, at)] + es;
      if at == es[k].symbol {
        SymbolsAreUnique(Exec(t, Intern(p, name, scan, at)).value.state, p, all, 0, k + 1);
      }
    }
  }

  /** Among distinct names, interning once more returns the symbol of entry k exactly for its
      name. */
  lemma InternAgain(t: State, p: Word, es: seq<Entry>, k: nat, name: Word, scan: Scan, at: Word)
    requires Inv(t) && Lists(t, p, es) && UniqueNames(es) && k < |es| && Exec(t, Intern(p, name, scan, at)).Done?
    ensures IsA(t.store, name, ByteString) && BodyOk(t.store[name])
    ensures Exec(t, Intern(p, name, scan, at)).value.value == es[k].symbol <==> Text(t.store, name) == es[k].name
  {
    hide InternEffect, Lists, Inv;
    InternAnswers(t, p, es, k, name, scan, at);
  }

  lemma InternAfterRun(s: State, p: Word, es: seq<Entry>, i: nat, ops: seq<Op>, t: State,
                       name: Word, scan: Scan, at: Word)
    requires Inv(s) && Lists(s, p, es) && UniqueNames(es) && i < |es|
    requires Run(s, ops) == Done(t) && Held(s, ops, p) && NeverRenamed(s, ops, p)
    requires Inv(t) && Exec(t, Intern(p, name, scan, at)).Done?
    ensures IsA(t.store, name, ByteString) && BodyOk(t.store[name])
    ensures Exec(t, Intern(p, name, scan, at)).value.value == es[i].symbol <==> Text(t.store, name) == es[i].name
  {
    var all := RunExtendsEntries(s, ops, p, es);
    var k := |all| - |es| + i;
    assert all[k] == all[|all| - |es|..][i];
    InternAgain(t, p, all, k, name, scan, at);
  }

  /** Two interns in one package, with any calls and collections in between that overwrite none
      of its names, return the same symbol exactly when the names are byte-equal. */
  lemma InternIsCanonical(s: State, p: Word, es: seq<Entry>, name1: Word, scan1: Scan, at1: Word, first: Effect,
                          ops: seq<Op>, t: State, name2: Word, scan2: Scan, at2: Word, second: Effect)
    requires Inv(s) && Lists(s, p, es) && UniqueNames(es)
    requires Exec(s, Intern(p, name1, scan1, at1)) == Done(first) && Inv(first.state)
    requires Run(first.state, ops) == Done(t) && Held(first.state, ops, p) && NeverRenamed(first.state, ops, p)
    requires Inv(t) && Exec(t, Intern(p, name2, scan2, at2)) == Done(second)
    ensures IsA(s.store, name1, ByteString) && BodyOk(s.store[name1])
    ensures IsA(t.store, name2, ByteString) && BodyOk(t.store[name2])
    ensures first.value == second.value <==> Text(s.store, name1) == Text(t.store, name2)
  {
    var mid := InternExtendsEntries(s, p, name1, scan1, at1, es);
    var i :| 0 <= i < |mid| && mid[i] == Entry(Text(s.store, name1), first.value);
    InternAfterRun(first.state, p, mid, i, ops, t, name2, scan2, at2);
  }

  /** A new package lists nothing, so all of its names are distinct to begin with. */
  lemma NewPackageIsEmpty(s: State, name: Word, scan: Scan, at: Word)
    requires Inv(s) && Exec(s, MakePackage(name, scan, at)).Done?
    ensures Exec(s, MakePackage(name, scan, at)).value.value == at
    ensures Lists(Exec(s, MakePackage(name, scan, at)).value.state, at, []) && UniqueNames([])
  {
    assert Symbols([]) == [];
  }

  /** From the creation of a package on, its names are distinct by themselves. */
  lemma CanonicalFromCreation(s: State, title: Word, scan: Scan, p: Word, made: Effect, ops0: seq<Op>, m: State,
                              name1: Word, scan1: Scan, at1: Word, first: Effect,
                              ops: seq<Op>, t: State, name2: Word, scan2: Scan, at2: Word, second: Effect)
    requires Inv(s) && Exec(s, MakePackage(title, scan, p)) == Done(made) && Inv(made.state)
    requires Run(made.state, ops0) == Done(m) && Held(made.state, ops0, p) && NeverRenamed(made.state, ops0, p)
    requires Inv(m) && Exec(m, Intern(p, name1, scan1, at1)) == Done(first) && Inv(first.state)
    requires Run(first.state, ops) == Done(t) && Held(first.state, ops, p) && NeverRenamed(first.state, ops, p)
    requires Inv(t) && Exec(t, Intern(p, name2, scan2, at2)) == Done(second)
    ensures IsA(m.store, name1, ByteString) && BodyOk(m.store[name1])
    ensures IsA(t.store, name2, ByteString) && BodyOk(t.store[name2])
    ensures first.value == second.value <==> Text(m.store, name1) == Text(t.store, name2)
  {
    hide Inv, Exec, Run, Held, NeverRenamed, InternEffect, Lists;
    NewPackageIsEmpty(s, title, scan, p);
    var es := RunExtendsEntries(made.state, ops0, p, []);
    InternIsCanonical(m, p, es, name1, scan1, at1, first, ops, t, name2, scan2, at2, second);
  }

  lemma InternFindsOld(s: State, p: Word, es: seq<Entry>, k: nat, name: Word, scan: Scan, at: Word)
    requires Inv(s) && Lists(s, p, es) && UniqueNames(es) && k < |es|
    requires IsA(s.store, name, ByteString) && BodyOk(s.store[name]) && Text(s.store, name) == es[k].name
    ensures Exec(s, Intern(p, name, scan, at)) == Done(Effect(s, es[k].symbol))
  {
    FindsAt(s, p, es, name, scan, at);
    assert FirstNamed(es, es[k].name) == k;
  }

  lemma InternFindsFirst(s: State, p: Word, es: seq<Entry>, name: Word, scan: Scan, at: Word)
    requires Inv(s) && Lists(s, p, es) && es != []
    requires IsA(s.store, name, ByteString) && BodyOk(s.store[name]) && Text(s.store, name) == es[0].name
    ensures Exec(s, Intern(p, name, scan, at)) == Done(Effect(s, es[0].symbol))
  {
    FindsAt(s, p, es, name, scan, at);
  }

  /** Interning a name that is present never fails and returns its first entry. */
  lemma FindsAt(s: State, p: Word, es: seq<Entry>, name: Word, scan: Scan, at: Word)
    requires Inv(s) && Lists(s, p, es) && IsA(s.store, name, ByteString) && BodyOk(s.store[name])
    ensures var i := FirstNamed(es, Text(s.store, name));
      i < |es| ==> Exec(s, Intern(p, name, scan, at)) == Done(Effect(s, es[i].symbol))
  {
    hide VectorsOk, GrowthOk, HandlesOk, PackagesOk, InternEffect;
    ExecIntern(s, p, name, scan, at);
    InternLooksUp(s, p, es, name, scan, at);
  }

  lemma InternNamed(s: State, p: Word, name: Word, scan: Scan, at: Word)
    requires GraphOk(s, {}) && InternEffect(s, p, name, scan, at).Done?
    ensures IsA(s.store, p, Package) && IsA(s.store, name, ByteString) && BodyOk(s.store[name])
  {
    hide VectorsOk, GrowthOk, NamesOk, InternNew;
  }

  lemma ExecIntern(s: State, p: Word, name: Word, scan: Scan, at: Word)
    requires Inv(s)
    ensures GraphOk(s, {}) && Exec(s, Intern(p, name, scan, at)) == InternEffect(s, p, name, scan, at)
  {
    hide InternEffect, Constructed, TableEffect;
  }

  lemma InternLooksUp(s: State, p: Word, es: seq<Entry>, name: Word, scan: Scan, at: Word)
    requires GraphOk(s, {}) && Lists(s, p, es) && IsA(s.store, name, ByteString) && BodyOk(s.store[name])
    ensures var i := FirstNamed(es, Text(s.store, name));
      if i < |es| then InternEffect(s, p, name, scan, at) == Done(Effect(s, es[i].symbol))
      else InternEffect(s, p, name, scan, at) == InternNew(s, p, name, {p, name} + ScanWords(scan), at)
  {
    hide VectorsOk, GrowthOk, HandlesOk, Live, RootSet, InternNew;
    var c := ChainOf(s.store, p);
    ChainUnique(s.store, p, s.store[p].slots[1], c, Symbols(es));
    ChainIsNamed(s, p, s.store[p].slots[1], c);
    LookupIsFirstNamed(s, c, es, Text(s.store, name));
  }

  /** Changing a string leaves the chain itself as it was. */
  lemma RenamedEntries(s: State, p: Word, es: seq<Entry>, w: Word, t: State) returns (renamed: seq<Entry>)
    requires Inv(t) && Lists(s, p, es) && IsA(s.store, w, ByteString)
    requires forall a :: a in s.store && a != w ==> SameObject(s, t, a)
    ensures Lists(t, p, renamed) && Symbols(renamed) == Symbols(es) && |renamed| == |es|
    ensures forall i :: 0 <= i < |es| ==> renamed[i].symbol == es[i].symbol && NamedBy(t.store, renamed[i])
  {
    hide VectorsOk, GrowthOk, HandlesOk, NamedBy;
    renamed := EntriesExist(t, p);
    ChainMembers(s.store, p, s.store[p].slots[1], Symbols(es));
    ChainFrame(s.store, t.store, p, s.store[p].slots[1], Symbols(es));
    ChainUnique(t.store, p, t.store[p].slots[1], Symbols(es), Symbols(renamed));
    assert forall i :: 0 <= i < |es| ==> Symbols(renamed)[i] == Symbols(es)[i];
  }
}
