/** The handle table is a finite map from tokens to values (runtime/gc.c, value handles). */
module Handles {
  import opened Words
  import opened Heap
  import opened Machine
  import opened Operations
  import opened Invariants
  import opened Runs
  import opened Safety

  function TableOf(handles: seq<Handle>): map<Word, Word> {
    if handles == [] then map[] else TableOf(handles[1..])[handles[0].token := handles[0].value]
  }

  function Table(s: State): map<Word, Word> {
    TableOf(s.handles)
  }

  ghost predicate Descending(handles: seq<Handle>) {
    forall i, j :: 0 <= i < j < |handles| ==> handles[i].token > handles[j].token
  }

  /** Looking a token up in the list and in the table agree. */
  lemma {:induction false} TableAt(handles: seq<Handle>, token: Word)
    ensures token in TableOf(handles) <==> HandleIndex(handles, token) < |handles|
    ensures token in TableOf(handles) ==> TableOf(handles)[token] == handles[HandleIndex(handles, token)].value
  {
    if handles != [] {
      TableAt(handles[1..], token);
    }
  }

  lemma HeadTokenIsNew(handles: seq<Handle>)
    requires Descending(handles) && handles != []
    ensures handles[0].token !in TableOf(handles[1..])
  {
    TableAt(handles[1..], handles[0].token);
  }

  lemma {:induction false} TableSize(handles: seq<Handle>)
    requires Descending(handles)
    ensures |TableOf(handles)| == |handles|
  {
    if handles != [] {
      TableSize(handles[1..]);
      HeadTokenIsNew(handles);
      assert TableOf(handles).Keys == TableOf(handles[1..]).Keys + {handles[0].token};
    }
  }

  /** A token is open exactly when it is in the table; reading it gives its value. */
  lemma HandleReads(s: State, token: Word)
    requires Inv(s)
    ensures |Table(s)| == |s.handles|
    ensures token in Table(s) ==> 0 < token < s.nextToken
    ensures Exec(s, HandleGet(token)) == if token in Table(s) then Done(Effect(s, Table(s)[token])) else Aborted
  {
    TableAt(s.handles, token);
    TableSize(s.handles);
  }

  lemma {:induction false} TableUpdate(handles: seq<Handle>, i: nat, h: Handle)
    requires Descending(handles) && i < |handles| && h.token == handles[i].token
    ensures TableOf(handles[i := h]) == TableOf(handles)[h.token := h.value]
  {
    var rest := handles[1..];
    if i == 0 {
      assert handles[i := h][1..] == rest;
    } else {
      TableUpdate(rest, i - 1, h);
      assert handles[i := h][1..] == rest[i - 1 := h];
      assert h.token != handles[0].token;
    }
  }

  lemma {:induction false} TableRemove(handles: seq<Handle>, i: nat)
    requires Descending(handles) && i < |handles|
    ensures TableOf(handles[..i] + handles[i + 1..]) == TableOf(handles) - {handles[i].token}
  {
    var rest := handles[1..];
    var removed := handles[..i] + handles[i + 1..];
    if i == 0 {
      assert removed == rest;
      HeadTokenIsNew(handles);
    } else {
      TableRemove(rest, i - 1);
      assert removed[1..] == rest[..i - 1] + rest[i..] && removed[0] == handles[0];
      assert handles[i].token != handles[0].token;
    }
  }

  /** What a call does to the table. */
  function TableAfter(op: Op, next: Word, m: map<Word, Word>): map<Word, Word> {
    match op
    case HandleOpen(_) => m[next := NIL]
    case HandleSet(token, word) => m[token := word]
    case HandleClose(token) => m - {token}
    case _ => m
  }

  /** Open adds a NIL entry under the next token, set and close change exactly one entry, in
      any order, and fail exactly on tokens that are not open; nothing else changes it. */
  lemma StepRefinesTable(s: State, op: Op)
    requires Inv(s) && Exec(s, op).Done?
    ensures Table(Exec(s, op).value.state) == TableAfter(op, s.nextToken, Table(s))
  {
    if op.HandleOpen? {
      OpenAdds(s, op.granted);
    } else if op.HandleSet? {
      SetUpdates(s, op.token, op.word);
    } else if op.HandleClose? {
      CloseRemoves(s, op.token);
    } else {
      HandlesUntouched(s, op);
    }
  }

  lemma OpenAdds(s: State, granted: bool)
    requires Inv(s)
    ensures Exec(s, HandleOpen(granted)).Done? <==> granted && s.nextToken < SIZE_MAX
    ensures Exec(s, HandleOpen(granted)).Done? ==>
      && Table(Exec(s, HandleOpen(granted)).value.state) == Table(s)[s.nextToken := NIL]
      && s.nextToken !in Table(s) && Exec(s, HandleOpen(granted)).value.value == s.nextToken
  {
    HandleReads(s, s.nextToken);
    if Exec(s, HandleOpen(granted)).Done? {
      assert Exec(s, HandleOpen(granted)).value.state.handles[1..] == s.handles;
    }
  }

  lemma SetUpdates(s: State, token: Word, word: Word)
    requires Inv(s)
    ensures Exec(s, HandleSet(token, word)).Done? <==> token in Table(s)
    ensures Exec(s, HandleSet(token, word)).Done? ==>
      Table(Exec(s, HandleSet(token, word)).value.state) == Table(s)[token := word]
  {
    HandleReads(s, token);
    if Exec(s, HandleSet(token, word)).Done? {
      TableUpdate(s.handles, HandleIndex(s.handles, token), Handle(token, word));
    }
  }

  lemma CloseRemoves(s: State, token: Word)
    requires Inv(s)
    ensures Exec(s, HandleClose(token)).Done? <==> token in Table(s)
    ensures Exec(s, HandleClose(token)).Done? ==>
      Table(Exec(s, HandleClose(token)).value.state) == Table(s) - {token}
  {
    hide Descending, TableOf;
    HandleReads(s, token);
    if Exec(s, HandleClose(token)).Done? {
      TableRemove(s.handles, HandleIndex(s.handles, token));
    }
  }

  lemma HandlesUntouched(s: State, op: Op)
    requires Inv(s) && Exec(s, op).Done? && !op.HandleOpen? && !op.HandleSet? && !op.HandleClose?
    ensures Exec(s, op).value.state.handles == s.handles && Exec(s, op).value.state.nextToken == s.nextToken
  {
    if !LeavesHeap(op) {
      TablesLeftAlone(s, op);
    }
  }

  lemma {:induction false} TokensGrow(s: State, ops: seq<Op>)
    requires Inv(s) && Run(s, ops).Done?
    ensures s.nextToken <= Run(s, ops).value.nextToken
    decreases ops
  {
    if ops != [] {
      ExecKeepsInv(s, ops[0]);
      if !ops[0].HandleOpen? && !ops[0].HandleSet? && !ops[0].HandleClose? {
        HandlesUntouched(s, ops[0]);
      }
      TokensGrow(Exec(s, ops[0]).value.state, ops[1..]);
    }
  }

  /** No token is ever handed out twice, however many handles were closed in between. */
  lemma TokensAreFresh(s: State, first: Effect, ops: seq<Op>, t: State, second: Effect)
    requires Inv(s) && Exec(s, HandleOpen(true)) == Done(first) && Inv(first.state)
    requires Run(first.state, ops) == Done(t) && Exec(t, HandleOpen(true)) == Done(second)
    ensures 0 < first.value < second.value
  {
    TokensGrow(first.state, ops);
  }

  lemma {:induction false} HandleWordsOfTable(handles: seq<Handle>, token: Word)
    requires Descending(handles) && token in TableOf(handles)
    ensures TableOf(handles)[token] in HandleWords(handles)
  {
    if token != handles[0].token {
      HandleWordsOfTable(handles[1..], token);
    }
  }

  /** Whatever an open handle's value reaches is rooted. */
  lemma HandleRoots(s: State, token: Word, a: Word)
    requires Inv(s) && token in Table(s) && a in Live(s.store, {Table(s)[token]})
    ensures a in Rooted(s)
  {
    HandleWordsOfTable(s.handles, token);
    LiveMonotone(s.store, {Table(s)[token]}, RootSet(s));
  }

  /** No call of the run sets or closes this handle. */
  predicate Untouched(ops: seq<Op>, token: Word) {
    forall i :: 0 <= i < |ops| && (ops[i].HandleSet? || ops[i].HandleClose?) ==> ops[i].token != token
  }

  lemma StepKeepsHandle(s: State, op: Op, token: Word)
    requires Inv(s) && Exec(s, op).Done? && token in Table(s)
    requires op.HandleSet? || op.HandleClose? ==> op.token != token
    ensures var t := Exec(s, op).value.state;
      token in Table(t) && Table(t)[token] == Table(s)[token]
  {
    hide Exec, Table;
    assert token != s.nextToken by { HandleReads(s, token); }
    StepRefinesTable(s, op);
  }

  /** An open handle keeps its value, and keeps it alive, until it is set or closed. */
  lemma {:induction false} HandleHolds(s: State, ops: seq<Op>, token: Word)
    requires Inv(s) && Run(s, ops).Done? && Untouched(ops, token)
    requires token in Table(s) && Table(s)[token] in s.store
    ensures var t := Run(s, ops).value; var a := Table(s)[token];
      && Held(s, ops, a)
      && token in Table(t) && Table(t)[token] == a
      && a in t.store && t.store[a].kind == s.store[a].kind
    decreases ops
  {
    hide Inv, Exec, Table, Rooted;
    var a := Table(s)[token];
    ValueIsRooted(s, token);
    if ops != [] {
      ExecKeepsInv(s, ops[0]);
      StepKeepsHandle(s, ops[0], token);
      RootedIsLive(s, ops[0], a);
      StepKeepsRooted(s, ops[0], a);
      HandleHolds(Exec(s, ops[0]).value.state, ops[1..], token);
    }
  }

  lemma ValueIsRooted(s: State, token: Word)
    requires Inv(s) && token in Table(s) && Table(s)[token] in s.store
    ensures Table(s)[token] in Rooted(s)
  {
    RootIsLive(s.store, {Table(s)[token]}, Table(s)[token]);
    HandleRoots(s, token, Table(s)[token]);
  }
}
