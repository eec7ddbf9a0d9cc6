# Verified core of the PSL runtime and compiler services

This project models four components of a self-hosting Lisp compiler and proves what they
promise: the managed runtime (a non-moving mark-sweep collector with root frames, permanent
roots, value handles, an optional conservative stack scan, and the object kinds built on it),
the inference of allocation effects, the arena allocator, and little-endian byte emission.
`dafny verify dfyconfig.toml` checks all of it.

## How the runtime is modelled

There are two levels, and the second is proved to refine the first.

* **State machine.** `Machine.State` is the runtime as a value: the objects by address, the
  object list, the collection limit, root frames, permanent roots, handles, the value buffer,
  and a history that exists only to state costs (allocations, when automatic collections
  started, elements copied per vector). `Operations.Exec` gives the effect of each call, including
  exactly when it aborts; `Runs.Run` runs any sequence of calls. A collection is *defined*
  through paths: `Heap.Reachable` asks for a trail of child words from a root word.
* **The collector.** `Gc.Runtime` is a class with the C variables: a list threaded through
  `next`, mark bits, a worklist array of `object_count` entries, a sweep that rewrites the
  link it came from. `Objects` and `VectorObjects` hold the other C modules on top of it.
  `Programs.Perform` and `Programs.Execute` show that any sequence of calls on this heap does
  what the state machine says.

`abort()` is the outcome `Aborted`. Each allocating call carries the C allocator's answer as
an argument: null, a misaligned address and (because no allocator returns one) an address that
is still live all count as failure, and so does a collection without room for its worklist;
other calls of `malloc` are answered by a flag. Theorems therefore quantify over every
allocator. The stack that a conservative collection scans is an arbitrary sequence of words.
The code of a closure is an arbitrary sequence of calls: a closure call is `EnterClosure`,
those calls, and `PopRoots` of the same frame. A client that overwrites a word of an array it
registered makes the call `SetRoot` or `SetPermanent`. An object's link and mark are kept
beside its payload rather than inside it, and the list of permanent roots grows at its end
rather than at its head; neither is observable.

The invariant `Machine.Inv` needs nothing from clients: whatever words they pass, every vector
has its own large-enough storage, every package has a finite chain of its own symbols, every
symbol has a live name, tokens are ordered, and collections are paced. Only the absence of
dangling words (`Safety.Closed`) needs clients to pass live words, as the runtime's
documentation demands of them.

Where the documentation and the code differ, the code is followed: `docs/runtime.md` speaks of
`psl_rt_call_closure_precise`, and `runtime/closure.c` has one entry for calling closures.

## Where to start reading

The table begins with the theorems that carry the project: the linked heap refines the state
machine over every run (`Programs.Execute`), one collection of the linked heap is the
reference collection (`Gc.Runtime.CollectObjects`), nothing rooted is ever lost (`Safety`),
interning is canonical, also under renaming exactly as long as no symbol takes the name of
another (`Renaming`), certification is exact. `Allocation` and `Calls` say of each call when
it succeeds and what it leaves, in terms of paths from the registered words. The last six rows
of the table only read definitions back, for a reader who wants to see what the state machine
means. `Collection.CollectKeepsExactlyReachable` is one of them: that the C code computes such
a collection is what `Gc.Runtime.CollectObjects` proves.

## Model

| member | source | states |
|---|---|---|
| Programs.Execute | runtime/psl_runtime.h:34-99 | every sequence of calls on the linked heap does exactly what the state machine says, abort included |
| Programs.Perform | runtime/psl_runtime.h:34-99 | every call on the linked heap has exactly the effect and the abort condition of the state machine |
| Programs.CallClosure | runtime/closure.c:29-38 | a closure call around any sequence of calls is the state machine's |
| Allocation.CollectLaw | runtime/gc.c:208-233 | the call collects: it succeeds exactly when the worklist gets room; an object stays if and only if a path from a registered word, or from a word of the scanned stack, reaches it; contents and tables are unchanged, and the limit is twice the survivors, at least 256 |
| Allocation.StackHolds | runtime/gc.c:151-168 | over any run, an object that is only on the scanned stacks is never freed, replaced or changed behind the client's back |
| Allocation.RootsSurvive | runtime/gc.c:250-259 | whatever an allocating call starts from survives it: registered words, arguments, scanned words |
| Allocation.ConsLaw | runtime/cons.c:3-13 | succeeds exactly when the address is free after the collection that is due; that collection keeps exactly what registered words, arguments and scanned words reach; the pair has its parts |
| Allocation.StringLaw | runtime/string.c:6-16 | succeeds exactly when length, final zero and header fit a word and the address is free; exactly the reachable objects stay; every byte is the fill |
| Allocation.CopyLaw | runtime/string.c:26-36 | the same for copied bytes, and a null pointer exactly with length zero |
| Allocation.SymbolLaw | runtime/symbol.c:3-14 | succeeds exactly for a string and a free address, and stores it with two NILs |
| Allocation.PackageLaw | runtime/package.c:3-13 | succeeds exactly for a string and a free address, and stores it with an empty chain |
| Allocation.ClosureLaw | runtime/closure.c:5-18 | succeeds exactly for nonnull code and a free address, and stores code and environment |
| Allocation.InternLaw | runtime/package.c:27-50 | a present name is found without room for anything; a new one succeeds exactly for a free address, with exactly the reachable objects kept and the symbol linked in front |
| Allocation.NotInterned | runtime/package.c:27-30 | interning aborts unless it is given a package and a string |
| Allocation.VectorLaw | runtime/vector.c:33-52 | succeeds exactly when both addresses are free after the collections that are due and the bytes fit; exactly the reachable objects stay, header and initial value among them |
| Allocation.PushLaw | runtime/vector.c:76-119 | a spare place needs nothing; otherwise succeeds exactly when twice the capacity fits and the address is free, and copies every element once |
| Allocation.NotVector | runtime/vector.c:24-31 | the vector calls abort on everything else |
| Allocation.NextCollection | runtime/gc.c:224 | after a collection that leaves n objects, the next automatic one starts exactly when the heap has doubled, or has 256 objects when n is below 128 |
| Allocation.FirstCollection | runtime/gc.c:19 | from program start, the first automatic collection starts after exactly 256 allocations |
| Allocation.RegisteredWords | runtime/gc.c:133-149 | the registered roots are exactly the words in frames, permanent arrays and open handles |
| Calls.FrameProtects | runtime/gc.c:45-57 | the words of a pushed frame are held over any code that handles only its own frames; popping then succeeds for this frame and no other, and restores the frames |
| Calls.SetRootProtects | runtime/psl_runtime.h:43-47 | a word stored into a registered array is held from then on |
| Calls.AreaHolds | runtime/gc.c:59-68 | permanent roots stay registered over any run: their words are held until they are overwritten |
| Calls.FrameCalls | runtime/gc.c:45-57 | pushing always succeeds, popping exactly for the newest frame, overwriting a root exactly inside a frame; nothing else changes |
| Calls.AreaCalls | runtime/gc.c:59-68 | registering succeeds exactly when its node gets room, overwriting exactly inside an array of the client's; nothing else changes |
| Calls.ValuesLast | runtime/values.c:10-27 | over any run without a new pair, the latest pair is read in order and its objects are held |
| Readback.EnterCall | runtime/closure.c:29-35 | entering needs a closure and yields its environment, with closure and argument in a frame |
| Gc.Runtime.CollectObjects | runtime/gc.c:208-225 | aborts without room for the worklist; otherwise the linked heap becomes the reference collection of the heap before it: exactly the objects on paths from the roots, unchanged, in order, unmarked |
| Gc.Runtime.MarkTransitively | runtime/gc.c:219-221 | the loop over the growing worklist terminates with exactly the reachable objects marked |
| Gc.Runtime.SweepObjects | runtime/gc.c:193-206 | frees exactly the unmarked objects, keeps the order of the others, clears every mark and keeps the count |
| Gc.MarkingEnds | runtime/gc.c:219-221 | a worklist whose entries have all been scanned lists exactly the reachable objects |
| Gc.Unlink | runtime/gc.c:201-202 | redirecting the link before an object takes exactly that object out of the list |
| Gc.WorklistHasRoom | runtime/gc.c:125-131 | an unmarked object always finds room in the worklist of object_count entries |
| Gc.Runtime.MarkValue | runtime/gc.c:125-131 | marks the object a word names and pushes it at most once, inside the array |
| Gc.Runtime.MarkRegisteredRoots | runtime/gc.c:133-149 | marks exactly the objects that frames, permanent roots and handles name |
| Gc.Runtime.MarkChildren | runtime/gc.c:170-191 | marks exactly the objects named by the scanned slots of the kind |
| Gc.Runtime.AllocateObject | runtime/gc.c:250-259 | collects exactly when the limit is reached, then allocates; aborts when the worklist or the object gets no room |
| Gc.Runtime.NewObject | runtime/gc.c:235-248 | aborts on overflow, null and misaligned addresses, otherwise puts a zeroed object in front |
| Gc.Runtime.FindObject | runtime/gc.c:21-31 | walking the list finds a word if and only if it names a live object |
| Safety.RunKeepsHeld | runtime/psl_runtime.h:45-51 | across any run, an object that stays rooted is never freed, replaced or changed behind the client's back |
| Safety.RunKeepsReached | runtime/gc.c:208-259 | over any run of a client that relies on stack scanning, an object that scanned words, arguments or roots reach at each call that may collect is never freed, replaced or changed behind its back |
| Safety.ClosedFromStart | runtime/psl_runtime.h:45-51 | from program start, a client that passes only live words never leaves a dangling one |
| Safety.RunKeepsClosed | runtime/gc.c:208-259 | over every run of such a client, each heap-tagged word in a frame, permanent root, handle or scanned slot names a live object |
| Safety.StepKeepsRooted | runtime/psl_runtime.h:45-51 | across one call, everything reachable from the registered roots, the call's arguments or the stack it scans survives as the same object, unchanged unless the call is meant to write it |
| Safety.StepKeepsClosed | runtime/gc.c:208-259 | one call of a client that passes live words leaves no dangling word |
| Safety.LightOpsRoots | runtime/gc.c:45-119 | root, handle and value calls register only words they were given, and NIL |
| Safety.ImmutableObjects | runtime/closure.c:5-18 | no call writes to existing pairs, closures or symbols |
| Safety.PairsAreStable | runtime/cons.c:23-35 | a held pair has the same car and cdr after any run |
| Interning.InternIsCanonical | runtime/package.c:27-50 | two interns with any calls and collections between that overwrite no name of the package return the same symbol if and only if the names are byte-equal |
| Interning.CanonicalFromCreation | runtime/package.c:3-50 | the same for any package whose names are not overwritten, from its creation on, without assuming them distinct |
| Renaming.CanonicalRuns | runtime/string.c:58-64 | the exact condition when names are overwritten: over any run with the package rooted, every symbol answers to its name after every call if and only if no write gives one of them the name of another |
| Renaming.WriteKeepsUnique | runtime/string.c:58-64 | the guard of one write, in terms of the state before it: names stay distinct if and only if the string does not name a symbol and come to read as the name of another |
| Renaming.CanonicalIffUnique | runtime/package.c:31-37 | at any time, all symbols of a package answer to their names if and only if the names are distinct |
| Renaming.InternAfterWrites | runtime/package.c:27-50 | whatever names a run overwrites, the first symbol stays in the chain, and a second intern returns it if and only if it is the first there to bear the second name |
| Renaming.RunKeepsSymbols | runtime/package.c:45-47 | over any run with the package rooted, its symbols stay in order behind those added since |
| Renaming.WriteRenames | runtime/string.c:58-64 | a write renames exactly the entries that the string names and leaves the chain alone |
| Renaming.RenamingShadows | runtime/package.c:31-36 | a harmful write: when the newest symbol takes the name of an older one, interning that name answers with the wrong symbol |
| Renaming.RenamingHappens | runtime/package.c:27-50 | a run of five calls from program start, and one overwritten byte, after which that happens |
| Interning.RunExtendsEntries | runtime/package.c:45-47 | over any run with the package rooted and names unmutated, entries are only added in front and names stay distinct |
| Interning.StepKeepsEntries | runtime/package.c:27-50 | every other call leaves a rooted package's entries alone unless it overwrites one of their names |
| Interning.InternRefines | runtime/package.c:27-50 | intern returns the first entry with that name and changes nothing, or adds exactly one entry in front |
| Interning.InternAnswers | runtime/package.c:31-37 | interning returns the symbol of an entry if and only if that entry is the first to bear the name |
| Interning.ChainIsAcyclic | runtime/package.c:31-37 | a chain never visits a symbol twice |
| Effects.Certifier.CertifyEffects | bootstrap/driver_effects.lisp:67-78 | terminates within one pass more than there are promises; flags end exact, and the unit's signatures ready, unless the inference stops at a promise it cannot analyse; accepts exactly when all defined functions are analysable and no region calls a tainted function; a rejection reports the first unfit callee of the first unfit function |
| Effects.StableIsUntainted | bootstrap/driver_effects.lisp:1-3 | every set of promised functions that call only members reaches no uncertified function: the untainted functions are the greatest fixed point |
| Effects.StableBetweenIsExact | bootstrap/driver_effects.lisp:67-74 | flags that are stable and were only cleared for cause are exactly the untainted functions |
| Effects.OrderDoesNotMatter | bootstrap/driver_effects.lisp:20-28 | for any reordering of the signatures, the final flags are the same function by function |
| Effects.RenamedTaint | bootstrap/driver_effects.lisp:1-3 | a renaming that respects promises and calls respects taint |
| Effects.UndefinedStays | bootstrap/driver_effects.lisp:5-9 | imported functions, and those of other units, keep their flags |
| Effects.Certifier.InferEffectPass | bootstrap/driver_effects.lisp:20-28 | a pass that reports no change leaves stable flags; one that reports a change keeps strictly fewer promises |
| Effects.Certifier.InferFunctionEffect | bootstrap/driver_effects.lisp:5-18 | clears the flag only of a function that reaches an uncertified one, and reports a change exactly then |
| Effects.Certifier.CheckUnitRegions | bootstrap/driver_effects.lisp:58-65 | succeeds exactly when all functions of the unit do, and otherwise stops at the first that does not and reports its first untrusted callee |
| Effects.Certifier.CheckFunctionRegions | bootstrap/driver_effects.lisp:47-56 | succeeds exactly when the function is imported, or analysable with only trusted region calls; otherwise it reports itself as unanalysable, or its first untrusted region callee by name or index |
| Effects.Certifier.FinishEffects | bootstrap/driver_effects.lisp:30-36 | marks exactly the unit's signatures ready |
| Effects.Certifier.ReportUnsafeCall | bootstrap/driver_effects.lisp:38-45 | phase 9 with the callee's name, or its index when it has none |
| Effects.UnsafeCall | bootstrap/frontend/effects.lisp:13-22 | the scan returns the first callee without the promise, or zero exactly when there is none |
| Vectors.RunRefinesSequence | runtime/vector.c:89-119 | over any run the same header denotes the sequence its updates and appends produce, through growth and collection |
| Vectors.StepRefinesSequence | runtime/vector.c:58-119 | any call acts on any rooted vector as index, update or append on a sequence, and leaves all other vectors alone |
| Vectors.PushAppends | runtime/vector.c:99-119 | push appends and returns the old length, although growing may collect while only the header keeps the old storage |
| Vectors.MakeFills | runtime/vector.c:33-52 | construction yields a fresh header for n copies of the initial value |
| Vectors.VectorReads | runtime/vector.c:54-74 | length, ref and set agree with the sequence, exactly indices below the length are accepted, and set returns its item |
| Invariants.ExecKeepsInv | runtime/gc.c:250-259 | no call, whatever its arguments, leaves the invariant |
| Invariants.AttachStorage | runtime/vector.c:89-97 | giving a header fresh storage keeps every vector backed by storage of its own and every growth paid for |
| Invariants.LinkSymbolKeepsInv | runtime/package.c:38-49 | linking a new symbol extends the chain of its package by one and no other |
| Machine.CollectKeepsInv | runtime/gc.c:208-225 | a collection at any point, with a vector half built, keeps vectors backed, packages chained, names live and the pace |
| Machine.ChainSurvives | runtime/gc.c:177-190 | a package's whole symbol chain survives with the package |
| Machine.PushedSettle | runtime/gc.c:45-57 | a pushed frame protects exactly its words during the collection an allocation starts |
| Runs.AutomaticAreSpaced | runtime/gc.c:250-259 | at least 128 objects are allocated between the starts of any two automatic collections of a run |
| Runs.CollectionsAreSpaced | runtime/gc.c:224 | at least 128 objects are allocated between an explicit collection and the start of the next automatic one |
| Runs.StepAfterAutomatic | runtime/gc.c:250-259 | a call starts at most one automatic collection, not before it is due, and the next is due at least 128 allocations after its start |
| Runs.StretchesArePaced | runtime/gc.c:250-259 | in any stretch of any run, each automatic collection after the first costs 128 allocations |
| Runs.RunPaced | runtime/gc.c:250-259 | over any run, automatic collections start when they are due at the earliest, and each puts off the next by 128 allocations |
| Runs.PacingOfRuns | runtime/gc.c:250-259 | from program start, objects never exceed the limit, automatic collections are 128 allocations apart, the first included, and 128 times their number never exceeds the allocations |
| Runs.GrowthOfRuns | runtime/vector.c:76-119 | from program start, everything ever copied while growing a vector is at most its capacity and at most twice its length |
| Runs.LimitFitsWord | runtime/gc.c:224 | fewer than 2^61 objects can be live, so count and limit never wrap |
| Calls.CallRestoresAndProtects | runtime/closure.c:29-38 | a closure call around any such code returns with the caller's frames; closure, environment and argument are held throughout and the closure is unchanged |
| Calls.RunKeepsBase | runtime/gc.c:45-57 | code that pops and overwrites only its own frames leaves those below exactly as they were |
| Handles.HandleHolds | runtime/psl_runtime.h:49-54 | over any run that neither sets nor closes an open handle, it keeps its value, and the object it names stays held and live |
| Handles.HandleRoots | runtime/gc.c:145-148 | at every point, whatever an open handle's value reaches is rooted |
| Handles.StepRefinesTable | runtime/gc.c:83-119 | open, set and close act on a finite map, in any order, and nothing else changes it |
| Handles.OpenAdds | runtime/gc.c:83-97 | open succeeds exactly when the entry gets room and tokens are left, and adds a NIL entry under a new token |
| Handles.TokensAreFresh | runtime/gc.c:83-97 | no token is handed out twice in a run |
| Handles.HandleReads | runtime/gc.c:70-101 | a token reads its value if and only if it is open; open tokens are nonzero and below the next one; the count is the table's size |
| Handles.SetUpdates | runtime/gc.c:103-105 | set succeeds if and only if the token is open, and changes that entry only |
| Handles.CloseRemoves | runtime/gc.c:107-119 | close succeeds if and only if the token is open, and removes exactly that entry |
| Heap.LiveIsLeast | runtime/gc.c:170-191 | the objects reached by paths are included in every set that holds the named roots and is closed under the scanned slots |
| Heap.LiveIsClosed | runtime/gc.c:170-191 | the objects reached by paths hold the named roots and are closed under the scanned slots |
| Collection.ConservativeVersusPrecise | runtime/gc.c:151-168 | scanning the stack keeps a superset, and the same state if and only if every scanned word that names an object names a rooted one |
| Allocation.CollectOrder | runtime/gc.c:193-206 | survivors keep their relative order in the object list |
| Collection.CollectIsIdempotent | runtime/gc.c:208-225 | collecting again at once, with the same stack, changes nothing |
| Collection.UnrootedIsFreed | runtime/gc.c:193-206 | any set of objects that no root and no outside object refers to, cyclic or not, is freed whole |
| Readback.ConsReadBack | runtime/cons.c:3-35 | after any run that holds the pair, car and cdr return the two arguments in order and both are still held |
| Readback.ConsKeepsParts | runtime/cons.c:3-13 | live arguments of a construction survive the collection it may cause |
| Readback.PairReads | runtime/cons.c:23-35 | car and cdr accept exactly pairs and NIL, which is its own car and cdr |
| Readback.ClosureReadBack | runtime/closure.c:5-38 | after any run that holds the closure, it has its code and entering it yields its environment, which is held too |
| Readback.StringReadBack | runtime/string.c:26-56 | a held string that nobody writes returns its bytes, and exactly the indices below its length are accepted |
| Readback.SymbolKeepsPackage | runtime/gc.c:177-190 | over any run, a held symbol of a package holds the package |
| Readback.ValuesAreRooted | runtime/values.c:10-23 | the latest pair of values is rooted |
| Readback.ElementsAreRooted | runtime/gc.c:171-176 | the objects in a rooted vector are rooted |
| Gc.Runtime.ExpectObject | runtime/gc.c:33-39 | aborts unless the word names a live object, of that kind when one is given |
| Gc.Runtime.Pop | runtime/gc.c:52-57 | aborts unless the frame is the newest |
| Gc.Runtime.FindValueHandle | runtime/gc.c:70-81 | finds the entry of an open token and aborts otherwise |
| Gc.Runtime.HandleOpen | runtime/gc.c:83-97 | agrees with the state machine, exhausted tokens and no room for the entry included |
| Gc.Runtime.HandleSet | runtime/gc.c:103-105 | agrees with the state machine |
| Gc.Runtime.HandleClose | runtime/gc.c:107-119 | agrees with the state machine |
| Objects.MakeCons | runtime/cons.c:3-13 | agrees with the state machine through the collection in its middle |
| Objects.Slot | runtime/cons.c:23-35 | car and cdr of NIL are NIL, of a pair its slots, and abort otherwise |
| Objects.MakeString | runtime/string.c:6-16 | agrees with the state machine, size overflow included |
| Objects.CopyString | runtime/string.c:26-36 | agrees with the state machine, the null pointer included |
| Objects.StringsEqual | runtime/string.c:66-71 | compares contents and aborts on other kinds |
| Objects.MakeSymbol | runtime/symbol.c:3-14 | agrees with the state machine |
| Objects.MakePackage | runtime/package.c:3-13 | agrees with the state machine |
| Objects.MakeClosure | runtime/closure.c:5-18 | agrees with the state machine, null code included |
| Objects.EnterClosure | runtime/closure.c:29-35 | agrees with the state machine |
| Objects.FindSymbol | runtime/package.c:31-37 | the walk ends, never aborts, and stops at the first equal name |
| Objects.Intern | runtime/package.c:27-50 | agrees with the state machine through the collection in its middle |
| Objects.Values2 | runtime/values.c:10-23 | agrees with the state machine, first registration and its failure included |
| Objects.NthValue | runtime/values.c:25-27 | agrees with the state machine |
| VectorObjects.VectorStorageBytes | runtime/vector.c:6-11 | aborts exactly when the byte size plus header would overflow |
| VectorObjects.GrownCapacity | runtime/vector.c:76-87 | in 64-bit words, either the least sufficient doubling or an abort because its bytes overflow; it never wraps |
| VectorObjects.MakeStorage | runtime/vector.c:13-22 | storage of that many NILs |
| VectorObjects.MakeVector | runtime/vector.c:33-52 | agrees with the state machine through both collections |
| VectorObjects.Ref | runtime/vector.c:58-64 | agrees with the state machine |
| VectorObjects.Set | runtime/vector.c:66-74 | agrees with the state machine |
| VectorObjects.PushItem | runtime/vector.c:99-119 | agrees with the state machine through growth and the collection in its middle |
| Gc.Runtime.KindOf | runtime/gc.c:41-43 | the kind of the live object a word names, and abort for every other word |
| Gc.Runtime.RegisterPermanentRoots | runtime/gc.c:59-68 | agrees with the state machine, no room for the list node included |
| Arena.PaddingIsDistance | bootstrap/arena.lisp:36-37 | masking the negated offset gives the distance to the next aligned offset |
| Arena.RoundUpIsLeast | bootstrap/arena.lisp:40 | that offset is the least aligned one at or after the used part |
| Arena.FitsIffServable | bootstrap/arena.lisp:15-26 | a request fits if and only if its alignment is a power of two and some aligned block of its size lies in the unused part |
| Arena.FitDecides | bootstrap/arena.lisp:15-26 | the wrapping comparisons decide the unbounded inequality |
| Arena.Arena.Alloc | bootstrap/arena.lisp:28-43 | succeeds exactly for a power-of-two alignment that fits in unbounded integers; failure is null and changes nothing |
| Arena.AddressesAreSound | bootstrap/arena.lisp:1-2 | inside the address space, blocks are not null, lie in the storage, and are aligned when the base is |
| Arena.BlocksAreDisjoint | bootstrap/arena.lisp:28-43 | all blocks granted in a run serve their requests inside the arena, each behind the last |
| Arena.Serve | bootstrap/arena.lisp:28-43 | a run of requests answers with exactly the blocks granted and null for the others; inside the address space, answers are aligned, lie in the storage and never overlap |
| Binary.ByteBuffer.RoomFor | bootstrap/binary.lisp:6-14 | room exactly when the bytes fit, without overflow |
| Binary.ByteBuffer.EmitByte | bootstrap/binary.lisp:26-33 | appends the byte or changes nothing |
| Binary.ByteBuffer.EmitInteger | bootstrap/binary.lisp:35-59 | appends exactly the count low-order digits, or changes nothing when count exceeds 8 or there is no room |
| Binary.ByteBuffer.PatchIntegerSteps | bootstrap/binary.lisp:61-72 | overwrites exactly the remaining digits in place |
| Binary.ByteBuffer.PatchI32 | bootstrap/binary.lisp:74-88 | changes exactly the four bytes at the offset, or nothing when they are not inside the written part |
| Binary.DigitIsShift | bootstrap/binary.lisp:41-45 | shifting by 8i and truncating selects digit i |
| Binary.ReadU32Le | bootstrap/binary.lisp:97-102 | reads the value of four digits, without wrapping |
| Binary.ValueOfDigits | bootstrap/binary.lisp:35-59 | the value of the n digits of x is x modulo 256^n |
| Binary.ReadBack | bootstrap/binary.lisp:97-102 | reading a four-byte emission gives the number modulo 2^32 |
| Binary.PatchReadBack | bootstrap/binary.lisp:74-102 | reading a patch gives the signed value back |
| Binary.EmittedValue | bootstrap/binary.lisp:35-59 | the bytes emitted for a number hold it modulo 256^count, and whole when count is 8 |
| Words.BoxUnbox | runtime/value.c:5-25 | boxing succeeds exactly on [-2^62, 2^62), unboxing exactly on odd words, and each is the inverse of the other |
| Words.BoxValue | runtime/value.c:5-11 | boxing n gives the word 2n + 1 modulo 2^64 |
| Words.TagsAreDisjoint | runtime/psl_runtime.h:7-14 | fixnums, NIL, T and heap addresses never overlap, so marking cannot mistake an immediate for an object |
| Words.HeapTaggedIsAligned | runtime/gc.c:21-24 | the collector looks up exactly the nonzero multiples of eight |
| Bits.PowerOfTwoTest | bootstrap/arena.lisp:9-13 | a & (a - 1) is zero exactly on powers of two |
| Bits.AndLowMask | bootstrap/arena.lisp:36-37 | masking with 2^k - 1 is the remainder modulo 2^k |
| Collection.CollectKeepsExactlyReachable | runtime/gc.c:208-225 | what the reference collection means: an object stays if and only if a path from the roots reaches it, with unchanged contents, and list and heap agree |
| Readback.FilledIsCopied | runtime/string.c:6-36 | a filled string equals a copied string of the same bytes, abort conditions included |
| Readback.SetByteReadBack | runtime/string.c:49-64 | a byte can be written exactly where it can be read, and the write changes that byte of that string and no other read |
| Readback.ValuesReadBack | runtime/values.c:17-27 | the buffer returns the latest pair in order and NIL beyond it or before the first |
| Interning.NewPackageIsEmpty | runtime/package.c:3-13 | a new package lists no entry |
| Calls.CallsRestoreFrames | runtime/gc.c:45-57 | every call that is not a root operation returns with the frames it found |

## Left out

- Stack discovery (`runtime/platform_linux.c`, `platform_windows.c`, `startup.c`) and the address arithmetic of `mark_stack`: only the scanned words matter.
- The abort of `mark_stack` when the stack bounds are inverted, with the address arithmetic it belongs to.
- A client that pushes a `psl_root` that is already on the stack: C would make the list of frames cyclic, the model pushes a second frame.
- Two registrations of one array: each frame has words of its own in the model.
- The C calling convention of closure code and the word it returns; its calls on the runtime are modelled.
- Foreign memory behind a byte pointer: a source is null, or a sequence of bytes.
- Accessors that read one field: `psl_rt_string_length`, `psl_rt_symbol_name`, `psl_rt_package_name`, `psl_rt_value_count`, `psl_rt_live_objects`, `psl_rt_live_value_handles`; and the word comparisons `psl_rt_nil_p`, `psl_rt_truthy`, `psl_rt_eq`.
- Building the HIR: `analyze_verified_scalar_function` and the tree walk of `hir_region_unsafe_call` enter as data, as whether a function can be analysed and which callees the scans visit in order.
- Alternating runs of emission and patching on one buffer; each call's whole effect on the buffer is stated.
- The rest of the compiler: reader, macro expansion, HIR, SSA, LIR, object writers, linking, target tables and release tooling.
