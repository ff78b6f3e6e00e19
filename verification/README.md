# Verified models of libshit and its Lua

A Dafny model of the parts of libshit, and of the Lua 5.3.5 it ships, whose correctness is
hardest to see from the code, with proofs about whole runs of them.
`dafny verify dfyconfig.toml` checks everything.

**Expression compiler** (`LuaSyntax`, `PriorityParser`, `ExprGrammar`, `LuaVm`, `InstrWords`,
`JumpLists`, `ExprSpec`, `ExprLemmas`, `CodeGen`, `ExprCompiler`). The priority-climbing
parser, which reads exactly the grammar of the manual, drives the one-pass code generator,
which leaves values pending, keeps unpatched jumps in lists threaded
through the code itself, merges LOADNILs, turns comparisons around and short-circuits `and`
and `or`. The code that comes out is run on a model of the machine: it leaves every local
with the value its tree has; and every instruction fits its 32-bit word. The meaning of an operator on values is a parameter.

**Garbage collector** (`GcHeap`, `GcWorld`, `GcLimits`, `GcVisit`, `GcClear`, `GcAtomic`,
`GcState`, `GcPhases`, `GcSteps`, `GcMutator`, `GcObjects`, `GcFinalizers`, `GcLate`,
`GcMissed`, `Collector`, `GcRun`, `GcExamples`). The incremental tri-colour collector with its four
owning lists, five gray lists, weak tables, ephemerons, finalizers and barriers is a class
whose methods are the functions of lgc.c; the program is every sequence of stores,
allocations and finalizer calls between its steps. From a new state on, whatever the program
can get at stays allocated; a full collection frees just what marking does not come to, and
calls the finalizers of just the objects that the program can no longer get at. Two operations of the program can break this; see Findings.

**Reference counts** (`RefCounts`). Threads copy, lock, move and release strong and weak
pointers, one atomic access at a time and interleaved at will.

**Encodings** (`Wtf8`), **interned strings** (`StringTable`), **upvalues** (`Upvalues`),
**integer references into a table** (`References`), **string literals** written by libshit
and read by Lua or by a C compiler (`StringLiterals`) and **the bounded random draw**
(`Random`) complete the picture.

`Prelude` holds `Option` and the predicate `Key`: a predicate stated as
`forall k :: Key(k) ==> ...` is unfolded only where a proof asks for it.

## Findings

Three properties the code is meant to have are false of it. In each case the code is
modelled as it is, an input shows the failure, and the condition under which the property
holds is proved to be exact.

| what fails | source | input | exact condition |
|---|---|---|---|
| A live table has a live metatable. No barrier looks at a gray table, and one that waits in `allweak` is not visited again. | ext/lua-5.3.5/src/lgc.c:451-471, ext/lua-5.3.5/src/lapi.c:846-883 | `GcExamples.LateMetatableExample` | `Collector.GlobalState.LateMetatable`: for every state in which the program runs while the collector marks, the new metatable survives, and nothing live refers to a dead object, if and only if marking on from there comes to the metatable without the table's help (`Marks`, the least set that contains what is marked, the roots and the objects with finalizers and is closed under strong references). |
| An object whose finalizer is still to be called keeps what it refers to. Finalizing the object that the sweep of `tobefnz` stands behind leads the sweep into `allgc`; what is left in `tobefnz` keeps its black mark, is not visited by the next collection, and so keeps nothing alive. | ext/lua-5.3.5/src/lgc.c:788-798, ext/lua-5.3.5/src/lgc.c:844-853, ext/lua-5.3.5/src/lgc.c:1129-1147 | `GcExamples.StrandExample` (129 objects to be finalized, 85 of them swept in the first step, 128 finalizers due) | `GcSteps.TakenValid`: taking one object keeps the invariant if and only if the sweep does not stand behind it or nothing without the current white is left behind. `Collector.GlobalState.Strand`: an emergency collection that follows frees an object that one left behind refers to if and only if that object is not kept otherwise (`Keeps`). |
| Joining an upvalue of a closure to another keeps both readable. The count of the old upvalue goes down before that of the new one goes up. | ext/lua-5.3.5/src/lapi.c:1287-1297, ext/lua-5.3.5/src/lgc.c:678-683 | `Upvalues.JoinExample` | `Upvalues.LuaState.UpvalueJoin`: it goes well if and only if the two are not one closed upvalue with a single user. |

## Model

| member | source | states |
|---|---|---|
| `PriorityParser.ParsePrintRoundTrip` | ext/lua-5.3.5/src/lparser.c:1025-1075 | printing any expression tree with as few parentheses as the priorities allow and parsing it gives the tree back, with no token left |
| `PriorityParser.ParsePrinted` | ext/lua-5.3.5/src/lparser.c:1048-1075 | the same with any following tokens that cannot continue the tree, and under any priority limit the tree may stand under |
| `PriorityParser.RightEdgeBound` | ext/lua-5.3.5/src/lparser.c:1025-1041 | a right operand printed without parentheses binds at least as tightly as its operator all along its right edge |
| `ExprGrammar.ParsesGrammar` | ext/lua-5.3.5/src/lparser.c:1025-1075 | before tokens that cannot continue an expression the parser reads a tree if and only if the grammar of section 3.4.8 of the Lua 5.3 manual, written with one level of operators per line and without priorities, derives the tokens with that tree |
| `ExprGrammar.ParsedDerives` | ext/lua-5.3.5/src/lparser.c:1048-1075 | whatever follows, what the parser has read is an expression of that grammar with that tree |
| `ExprGrammar.Unambiguous` | ext/lua-5.3.5/src/lparser.c:1025-1041 | no tokens have two trees |
| `ExprGrammar.PrintedExpression` | ext/lua-5.3.5/src/lparser.c:1025-1041 | the printed form of a tree is an expression of the grammar with that tree |
| `LuaVm.Simulation` | ext/lua-5.3.5/src/lopcodes.h:167-262 | code that extends other code (more instructions, open jumps given destinations) runs just as that code up to where it falls off the end or leaves by an open jump, and never gets stuck |
| `LuaVm.Adequacy` | ext/lua-5.3.5/src/lvm.c:786-1319 | the big-step run of closed code is the run of the machine, instruction by instruction |
| `LuaVm.StepsExtend` | ext/lua-5.3.5/src/lvm.c:786-1319 | a run that has not ended is not changed by instructions added behind the code |
| `InstrWords.WordRoundTrip` | ext/lua-5.3.5/src/lopcodes.h:38-126 | every instruction of the code, whose type `LuaVm.Encodable` bounds all operands (registers below 255, constant operands and indices, jumps, upvalues), fits a 32-bit word and is what is read back from it |
| `JumpLists.LinkAppends` | ext/lua-5.3.5/src/lcode.c:116-127 | storing the head of a second list in the last jump of a first makes one list of both, in order |
| `JumpLists.PatchStep` | ext/lua-5.3.5/src/lcode.c:195-234 | patching one more jump of a list is patching the list with it: jumps that carry a value go to the value target with their test adjusted, the others to the default target, and no other jump of the list is disturbed |
| `JumpLists.ListFrame` | ext/lua-5.3.5/src/lcode.c:90-96 | a list is the same list in any code in which its jumps are unchanged |
| `JumpLists.HeadsDiffer` | ext/lua-5.3.5/src/lcode.c:675-696 | two disjoint lists have the same head only when both are empty, which is how `hasjumps` tells that an expression has exits |
| `CodeGen.FuncState.FixJump` | ext/lua-5.3.5/src/lcode.c:103-110 | fails exactly when the distance does not fit the operand, and otherwise changes that jump alone |
| `CodeGen.FuncState.Concat` | ext/lua-5.3.5/src/lcode.c:116-127 | the result heads the concatenation of the two lists, and only jumps of the first were touched |
| `CodeGen.FuncState.PatchTestReg` | ext/lua-5.3.5/src/lcode.c:195-207 | says whether the test before the jump carries a value, and turns a TESTSET into one that writes `reg` or into a TEST |
| `CodeGen.FuncState.RemoveValues` | ext/lua-5.3.5/src/lcode.c:213-216 | no jump of the list carries a value any more |
| `CodeGen.FuncState.PatchListAux` | ext/lua-5.3.5/src/lcode.c:224-234 | every jump of the list is patched, whatever the order of the list |
| `CodeGen.FuncState.DischargeJpc` | ext/lua-5.3.5/src/lcode.c:242-245 | the pending jumps lead to the next instruction and are no longer open |
| `CodeGen.FuncState.PutCode` | ext/lua-5.3.5/src/lcode.c:293-305 | the instruction is appended after the pending jumps have been sent to it; fails only at a limit |
| `CodeGen.FuncState.Jump` | ext/lua-5.3.5/src/lcode.c:136-143 | the new open jump heads a list of itself and the jumps that were pending |
| `CodeGen.FuncState.CondJump` | ext/lua-5.3.5/src/lcode.c:158-161 | a test and its open jump have been appended |
| `CodeGen.FuncState.LoadNil` | ext/lua-5.3.5/src/lcode.c:64-83 | emits a LOADNIL or widens the one before, and the latter only when nothing jumps in between and the ranges connect |
| `ExprLemmas.MergeNil` | ext/lua-5.3.5/src/lcode.c:64-83 | widening that LOADNIL, which precedes the code of the expression, does for the registers what a new one would |
| `CodeGen.FuncState.CheckStack` | ext/lua-5.3.5/src/lcode.c:361-369 | fails exactly when the function would need 255 registers or more |
| `CodeGen.FuncState.AddK` | ext/lua-5.3.5/src/lcode.c:428-452 | the index returned holds the constant, the old constants stay, and it fails only when there are too many |
| `CodeGen.FuncState.NeedValue` | ext/lua-5.3.5/src/lcode.c:659-665 | true exactly when some jump of the list carries no value |
| `ExprLemmas.FinalExitExec` | ext/lua-5.3.5/src/lcode.c:675-696 | control that leaves an expression by any of its exits arrives at its end with the value in the register: from its own TESTSET, or from the boolean loads |
| `ExprLemmas.FinalFlow` | ext/lua-5.3.5/src/lcode.c:675-696 | after the loads have been emitted and both lists patched, the register holds the value of the tree whichever way the expression was left |
| `CodeGen.FuncState.Exp2reg` | ext/lua-5.3.5/src/lcode.c:675-696 | any pending expression ends up in the register, without exits, with the invariant of expressions kept |
| `CodeGen.FuncState.Exp2anyreg` | ext/lua-5.3.5/src/lcode.c:715-727 | the value is in some register; one that already is in a local or temporary stays there and no code is emitted |
| `CodeGen.FuncState.Exp2RK` | ext/lua-5.3.5/src/lcode.c:758-776 | the operand denotes the value as a register or a constant index in range |
| `ExprLemmas.TestFlow` | ext/lua-5.3.5/src/lcode.c:839-851 | testing the main value and jumping adds one exit, taken exactly when the truth value is the other one |
| `CodeGen.FuncState.JumpOnCond` | ext/lua-5.3.5/src/lcode.c:839-851 | the code goes on when the value has the truth value not tested for, also when a pending `not` is dropped and its operand tested instead |
| `CodeGen.FuncState.GoIfTrue` | ext/lua-5.3.5/src/lcode.c:857-878 | the code goes on exactly when the value is true; all else leaves by the false list |
| `CodeGen.FuncState.GoIfFalse` | ext/lua-5.3.5/src/lcode.c:884-904 | the code goes on exactly when the value is false or nil; all else leaves by the true list |
| `ExprLemmas.NegateDone` | ext/lua-5.3.5/src/lcode.c:910-939 | exchanging the two lists and taking the values off their jumps negates the expression |
| `CodeGen.FuncState.CodeNot` | ext/lua-5.3.5/src/lcode.c:910-939 | the result stands for the negated tree, for every kind of pending value |
| `CodeGen.FuncState.FoldedBinary` | ext/lua-5.3.5/src/lcode.c:978-996 | a constant that folding gives stands for the operation on both trees, with no code for either |
| `CodeGen.FuncState.FoldingSafe` | ext/lua-5.3.5/src/lcode.c:954-996 | only operations on two numerals are folded, none that raises an error when the program runs, and none whose result is a NaN or a float zero |
| `CodeGen.FuncState.FoldedUnary` | ext/lua-5.3.5/src/lcode.c:1066-1079 | likewise for an operator with one operand |
| `CodeGen.FuncState.CodeUnExpVal` | ext/lua-5.3.5/src/lcode.c:1004-1010 | the emitted instruction, its register still open, computes the operator on the value of the operand |
| `ExprLemmas.BinaryReady` | ext/lua-5.3.5/src/lcode.c:1022-1060 | with the first operand computed before and the second after, in whatever order their registers were fixed, the instruction sees both values |
| `ExprLemmas.Substitute` | ext/lua-5.3.5/src/lcode.c:1086-1115 | an operand that was left as a constant, local or register may be read after the second operand has run |
| `CodeGen.FuncState.CodeBinExpVal` | ext/lua-5.3.5/src/lcode.c:1022-1030 | the emitted instruction computes the operator on both values, and the registers of both are free again |
| `CodeGen.FuncState.CodeComp` | ext/lua-5.3.5/src/lcode.c:1037-1060 | the emitted test and jump decide the comparison, also with `>` and `>=` turned around and `~=` negated |
| `ExprLemmas.ConcatMerge` | ext/lua-5.3.5/src/lcode.c:1141-1155 | widening the concatenation pending on the right to take in the left operand concatenates all, right to left |
| `CodeGen.FuncState.CodeConcat` | ext/lua-5.3.5/src/lcode.c:1141-1155 | the result stands for the concatenation, merged or not |
| `ExprLemmas.JunctionDone` | ext/lua-5.3.5/src/lcode.c:1127-1140 | with the exits of the first operand linked after those of the second, the pending expression stands for the `and` or `or` of both |
| `CodeGen.FuncState.CodeJunction` | ext/lua-5.3.5/src/lcode.c:1127-1140 | the same for the code as it is emitted |
| `CodeGen.FuncState.Prefix` | ext/lua-5.3.5/src/lcode.c:1066-1079 | the result stands for the operator applied to the tree, folded or not |
| `CodeGen.FuncState.Infix` | ext/lua-5.3.5/src/lcode.c:1086-1115 | after the first operand of any operator the code is ready for the second, and what is known of the first survives it |
| `CodeGen.FuncState.Posfix` | ext/lua-5.3.5/src/lcode.c:1124-1171 | the result stands for the operator applied to both trees |
| `ExprCompiler.LexState.Operand` | ext/lua-5.3.5/src/lparser.c:1048-1062 | reads what an expression starts with, and compiles just what was parsed |
| `ExprCompiler.LexState.BinaryStep` | ext/lua-5.3.5/src/lparser.c:1063-1073 | reads one more operator and its operand, by the two priorities |
| `ExprCompiler.LexState.Subexpr` | ext/lua-5.3.5/src/lparser.c:1048-1075 | compiles the tree the parser gives for the tokens, by `ExprGrammar.ParsesGrammar` that of the grammar; fails only when there is none or a limit has been reached |
| `ExprCompiler.LexState.LocalStat` | ext/lua-5.3.5/src/lparser.c:1442-1459 | adds one local that holds the value of its expression, which is the tree the grammar gives its tokens, evaluated with the locals before it |
| `ExprCompiler.LexState.Block` | ext/lua-5.3.5/src/lparser.c:1093-1100 | each declaration being an expression of the grammar, the machine runs the code from any registers to its final return with every local holding the value of its tree; fails only when some declaration is not an expression or a limit has been reached |
| `ExprCompiler.CompilePrinted` | ext/lua-5.3.5/src/lparser.c:1048-1100 | printing trees, parsing and compiling them and running the code evaluates them, with every instruction (`LuaVm.Encodable`) and constant index fitting its word; compilation fails only at the limit of a jump, of the registers or of the constants |
| `GcRun.Run` | ext/lua-5.3.5/src/lgc.c:1045-1097 | after every sequence of collector steps, full collections, finalizer calls, stores of every kind, new metatables, changed modes, allocations, root and cache changes the invariant holds, and whatever a chain of references, weak ones included, leads to from a root is allocated and not dead; left out are only an unmarked metatable for a table waiting in `allweak` and a finalizer call that leaves unswept objects behind |
| `GcRun.RunNew` | ext/lua-5.3.5/src/lstate.c:295-338 | the same from a new state on, with any number of fixed strings |
| `GcRun.NewValid` | ext/lua-5.3.5/src/lstate.c:184-214 | what `lua_newstate` leaves (main thread, registry, globals, fixed strings, a cache full of the memory error message) satisfies the invariant |
| `GcRun.MainInvariant` | ext/lua-5.3.5/src/lgc.h:15-25 | while the collector marks, a black object refers to marked objects only, and each gray object that is not fixed is in exactly one gray list |
| `GcRun.OneOwner` | ext/lua-5.3.5/src/lstate.h:19-28 | every object but the main thread is in exactly one of the four owning lists, and has the finalized bit exactly when it is in `finobj` or `tobefnz` |
| `GcState.AccessibleAlive` | ext/lua-5.3.5/src/lgc.c:1001-1026 | what `Sealed`, which every step and every action of a run keeps, means for the program: the end of any chain of references from a root is there and not dead |
| `GcState.ReachedAlive` | ext/lua-5.3.5/src/lgc.c:1001-1026 | in a sealed state nothing strongly reachable is dead |
| `Collector.GlobalState.MarkValue` | ext/lua-5.3.5/src/lgc.c:83-86 | the value is marked, and the marking invariant kept |
| `Collector.GlobalState.ReallyMarkObject` | ext/lua-5.3.5/src/lgc.c:235-283 | the object is marked, and the chain of user values behind it, and the invariant kept: nothing black refers to anything white but what is being visited |
| `Collector.GlobalState.IsCleared` | ext/lua-5.3.5/src/lgc.c:139-146 | an entry is cleared only for an unmarked object that is no string; a string is marked instead |
| `Collector.GlobalState.TraverseStrongTable` | ext/lua-5.3.5/src/lgc.c:433-448 | all array slots, keys and values of the table are marked, and dead keys of empty entries removed |
| `Collector.GlobalState.TraverseWeakValue` | ext/lua-5.3.5/src/lgc.c:361-381 | the table goes back to a list exactly as its entries may still have to be cleared, with its keys marked |
| `Collector.GlobalState.TraverseEphemeron` | ext/lua-5.3.5/src/lgc.c:394-430 | a value is marked when its key is, and the table goes to the list that says what may still change; when nothing was marked, every entry is settled |
| `Collector.GlobalState.TraverseTable` | ext/lua-5.3.5/src/lgc.c:451-471 | a visited table leaves the invariant intact whatever the mode of its metatable |
| `Collector.GlobalState.TraverseProto` | ext/lua-5.3.5/src/lgc.c:479-498 | all that a prototype refers to is marked, and an unmarked closure leaves its cache |
| `Collector.GlobalState.TraverseLclosure` | ext/lua-5.3.5/src/lgc.c:514-527 | the prototype and the values of all upvalues are marked |
| `Collector.GlobalState.TraverseCclosure` | ext/lua-5.3.5/src/lgc.c:501-506 | all upvalues are marked |
| `Collector.GlobalState.TraverseThread` | ext/lua-5.3.5/src/lgc.c:530-552 | the stack is marked, and the thread stays gray |
| `Collector.GlobalState.PropagateMark` | ext/lua-5.3.5/src/lgc.c:559-600 | one gray object is visited, the invariant kept, and the work that is left gets less |
| `Collector.GlobalState.PropagateAll` | ext/lua-5.3.5/src/lgc.c:603-605 | propagation ends, with no gray object left to visit |
| `Collector.GlobalState.ConvergeEphemerons` | ext/lua-5.3.5/src/lgc.c:608-623 | the loop ends, and then with the key of an ephemeron entry its value is marked, in every table and across tables: the marked objects are closed |
| `GcVisit.MarkedClosed` | ext/lua-5.3.5/src/lgc.c:608-623 | once nothing is left to visit and the ephemerons are settled, the marked objects are closed under strong references and ephemeron entries |
| `GcAtomic.ReachedMarked` | ext/lua-5.3.5/src/lgc.c:982-1003 | when the first convergence is over, everything strongly reachable at the start of the atomic step is marked |
| `Collector.GlobalState.ClearKeys` | ext/lua-5.3.5/src/lgc.c:639-651 | in the listed tables no entry with an unmarked key is left |
| `Collector.GlobalState.ClearValues` | ext/lua-5.3.5/src/lgc.c:658-675 | in the listed tables no entry or slot with an unmarked value is left |
| `GcAtomic.NothingDangles` | ext/lua-5.3.5/src/lgc.c:1004-1022 | after the tables have been cleared no marked object refers to an unmarked one in any way |
| `Collector.GlobalState.SeparateToBeFnz` | ext/lua-5.3.5/src/lgc.c:880-895 | exactly the unmarked objects with finalizers (or all) move, to the end of `tobefnz` and in their order |
| `GcAtomic.MarksSpared` | ext/lua-5.3.5/src/lgc.c:982-1026 | what the atomic step leaves marked, strings apart, is what marking must come to and nothing else |
| `Collector.GlobalState.AtomicStep` | ext/lua-5.3.5/src/lgc.c:982-1026 | everything strongly reachable is marked, nothing outside a given closed set is, no marked object refers to an unmarked one, entries were emptied only for unreachable objects, the objects with finalizers stay exactly when the program can get at them (`Drawn`) and the others go to the end of `tobefnz` in their order, no weak value of a table the program can get at is an object to be finalized, and the whites are exchanged |
| `Collector.GlobalState.ClearCache` | ext/lua-5.3.5/src/lstring.c:103-110 | every string of the cache that is about to be freed is replaced by the memory error message |
| `Collector.GlobalState.SweepList` | ext/lua-5.3.5/src/lgc.c:735-752 | of the swept part the dead are freed and the others have the current white; nothing else changes, and the cursor stays in the list |
| `Collector.GlobalState.SweepToLive` | ext/lua-5.3.5/src/lgc.c:758-764 | the sweep goes on at least to the next survivor |
| `Collector.GlobalState.EnterSweep` | ext/lua-5.3.5/src/lgc.c:959-964 | the sweep starts with the invariant kept |
| `Collector.GlobalState.SweepStep` | ext/lua-5.3.5/src/lgc.c:1029-1042 | one stretch of a list is swept, and the next phase entered exactly at its end |
| `Collector.GlobalState.CheckFinalizer` | ext/lua-5.3.5/src/lgc.c:902-921 | an object whose metatable has a finalizer moves to `finobj` once, also in the middle of a sweep that stands behind it |
| `Collector.GlobalState.Udata2Finalize` | ext/lua-5.3.5/src/lgc.c:788-798 | the first object of `tobefnz` becomes an ordinary one; the invariant survives exactly when the sweep does not stand behind it with something unswept left |
| `GcSteps.TakenValid` | ext/lua-5.3.5/src/lgc.c:788-798 | the exact condition for that |
| `Collector.GlobalState.RunFewFinalizers` | ext/lua-5.3.5/src/lgc.c:844-853 | as many finalizers as are due, and for any number of them exactly which objects a strayed sweep has missed |
| `Collector.GlobalState.SingleStep` | ext/lua-5.3.5/src/lgc.c:1045-1097 | every step of the collector in every phase keeps the invariant, frees nothing reachable, and empties only entries of weak tables whose key or value is unreachable; after the sweep a step calls the next finalizers that are due as long as objects wait and this is no emergency, and else ends the collection |
| `Collector.GlobalState.RunTilState` | ext/lua-5.3.5/src/lgc.c:1104-1108 | the steps end in a phase asked for, and together keep what each keeps; coming from the sweep to the pause no object waits to be finalized any more, but for an emergency |
| `Collector.GlobalState.WholeCycle` | ext/lua-5.3.5/src/lgc.c:1159-1175 | a collection that starts from the roots keeps everything strongly reachable and nothing outside any closed bound; of the objects with finalizers exactly those stay so that the program can get at, and the finalizers of the others have been called, or wait in an emergency |
| `Collector.GlobalState.ExactCycle` | ext/lua-5.3.5/src/lgc.c:1159-1175 | an object that is no string survives such a collection if and only if it is in the least set that contains the roots and the objects with finalizers and is closed under strong references and ephemeron entries; its finalizer is still to be called if and only if it is in the least such set without the objects with finalizers |
| `Collector.GlobalState.FullGc` | ext/lua-5.3.5/src/lgc.c:1159-1175 | a full collection from any phase ends in the pause with all survivors white; all that was strongly reachable survives and, whatever closed set bounds the roots, nothing outside it; no object waits to be finalized, and an object that had a finalizer has it still if and only if it was not waiting and is in the least closed set that holds the roots (`Held`); an emergency calls no finalizer |
| `GcAtomic.DrawnMarked` | ext/lua-5.3.5/src/lgc.c:982-1004 | before the objects with finalizers are separated an object that is no string is marked if and only if the program can get at it |
| `GcAtomic.PurgedNow` | ext/lua-5.3.5/src/lgc.c:1004-1008 | when the objects to be finalized are separated, the tables with weak values that the program can get at hold no value any more that it cannot get at (section 2.5.4 of the Lua 5.3 manual) |
| `GcAtomic.StayingWithin` | ext/lua-5.3.5/src/lgc.c:880-895 | separating a list by colour is separating it by a set, when that set holds its marked objects |
| `GcAtomic.DrawnSame` | ext/lua-5.3.5/src/lgc.c:603-605 | marking on does not change what the program can get at |
| `GcFinalizers.HeldDrawn` | ext/lua-5.3.5/src/lgc.c:1159-1171 | finishing the collection under way, from any phase, does not change it either |
| `GcFinalizers.CalledNow` | ext/lua-5.3.5/src/lgc.c:1159-1175 | which objects have a finalizer still to be called after a full collection |
| `GcLimits.DrawnDraws` | ext/lua-5.3.5/src/lgc.c:982-1003 | what all sets have in common that hold the roots and what their objects keep is such a set |
| `GcLimits.HeldGrips` | ext/lua-5.3.5/src/lgc.c:337-344 | the same whatever is marked |
| `GcSteps.ReachedThinned` | ext/lua-5.3.5/src/lgc.c:1159-1175 | finishing the collection under way loses nothing reachable that the new collection would keep |
| `GcSteps.KeptThinned` | ext/lua-5.3.5/src/lgc.c:1159-1175 | nor does it bring anything back into reach |
| `Collector.GlobalState.Barrier` | ext/lua-5.3.5/src/lgc.c:155-164 | after a black object was given a white one the invariant holds again: the object is marked, or in the sweep the holder turns white |
| `Collector.GlobalState.BarrierBack` | ext/lua-5.3.5/src/lgc.c:171-176 | a black table that was given a white object waits to be visited again |
| `Collector.GlobalState.UpvalBarrier` | ext/lua-5.3.5/src/lgc.c:185-191 | while the collector marks, the value of a closed upvalue is marked whoever shares it |
| `Collector.GlobalState.SetUpvalue` | ext/lua-5.3.5/src/lgc.h:130-132 | storing in an upvalue keeps the invariant |
| `Collector.GlobalState.UpvalueJoin` | ext/lua-5.3.5/src/lapi.c:1287-1297 | a closure that takes the upvalue of another keeps the invariant |
| `Collector.GlobalState.SetSlotOf` | ext/lua-5.3.5/src/lgc.h:118-120 | a store to a userdata, closure or prototype, with its barrier, keeps the invariant in every phase |
| `Collector.GlobalState.SetArray` | ext/lua-5.3.5/src/lapi.c:817-828 | a store to the array part of a table keeps it |
| `Collector.GlobalState.SetField` | ext/lua-5.3.5/src/lapi.c:801-814 | a store to the hash part, new key or old, keeps the invariant and changes this entry only; a nil key is refused |
| `GcMutator.PutLookup` | ext/lua-5.3.5/src/lapi.c:801-814 | the value stored is found under its key, and what is found under other keys does not change |
| `Collector.GlobalState.SetStack` | ext/lua-5.3.5/src/lgc.c:530-552 | a thread may change its stack without any barrier, for it is never black |
| `Collector.GlobalState.SetMetatable` | ext/lua-5.3.5/src/lapi.c:846-883 | any metatable, or none, becomes the metatable of the object, every other live object keeps what it holds, also when the sweep goes on, the invariant is kept, and an object that now has a finalizer moves to the front of `finobj`; left out is an unmarked one for a table that waits in `allweak` |
| `Collector.GlobalState.SetMode` | ext/lua-5.3.5/src/lgc.c:451-471 | the weak mode of a table may change at any time; a table already in `allweak` may then lose entries, but nothing dangles |
| `Collector.GlobalState.CacheClosure` | ext/lua-5.3.5/src/lvm.c:648-650 | a prototype that is black does not cache the closure, and one that is not may without a barrier |
| `Collector.GlobalState.SetRoots` | ext/lua-5.3.5/src/lgc.c:337-344 | roots may change at any time without a barrier, since the atomic step marks them again |
| `Collector.GlobalState.CacheString` | ext/lua-5.3.5/src/lstring.c:219-233 | the string cache may hold any string that is not dead |
| `Collector.GlobalState.NewObj` | ext/lua-5.3.5/src/lgc.c:208-216 | a new object is white, first in `allgc`, and keeps the invariant in every phase, also before the cursor of a sweep |
| `Collector.GlobalState.ReuseString` | ext/lua-5.3.5/src/lstring.c:177-178 | a dead string that is wanted again comes back to life |
| `Collector.GlobalState.LateMetatable` | ext/lua-5.3.5/src/lapi.c:846-883 | see Findings: with a metatable set too late, at any time while the collector marks, it is alive after the atomic step if and only if marking comes to it otherwise |
| `GcLate.LateOutcome` | ext/lua-5.3.5/src/lgc.c:982-1026 | the same of the states before and after the atomic step |
| `GcLimits.MarksLimit` | ext/lua-5.3.5/src/lgc.c:982-1003 | what all bounds of the marking have in common is itself one, so that there is a least |
| `GcLate.PauseLimits` | ext/lua-5.3.5/src/lgc.c:337-344 | between collections the bounds of the marking are the closed sets with the roots |
| `Collector.GlobalState.Strand` | ext/lua-5.3.5/src/lgc.c:788-798 | see Findings: after a finalizer call that leads the sweep astray the objects left behind stay unswept, and the next collection frees what only they refer to, and only that |
| `Collector.GlobalState.EmergencyAstray` | ext/lua-5.3.5/src/lgc.c:1159-1175 | an emergency collection that comes when a sweep has gone astray: of the objects that are no strings exactly those in `Keeps` survive, and what was missed still refers to what it did |
| `Collector.GlobalState.MissedCollection` | ext/lua-5.3.5/src/lgc.c:1045-1097 | a collection that starts with missed objects visits none of them and does not free them |
| `GcMissed.AllgcSwept` | ext/lua-5.3.5/src/lgc.c:1029-1042 | when `allgc` has been swept nothing dead is left in it |
| `GcMissed.AstrayEnded` | ext/lua-5.3.5/src/lgc.c:1029-1042 | ending the strayed sweep changes nothing that the next collection starts from |
| `GcMissed.OrphansExact` | ext/lua-5.3.5/src/lgc.c:788-798 | some object left behind has lost what it refers to exactly when that is not kept otherwise |
| `GcExamples.LateMetatableExample` | ext/lua-5.3.5/src/lapi.c:846-883 | a state of five objects in which the metatable of a live table dies |
| `GcExamples.StrandExample` | ext/lua-5.3.5/src/lgc.c:844-853 | a state with 129 objects to be finalized, 85 swept and 128 finalizers due, after which an emergency collection frees a table that an object still to be finalized refers to |
| `RefCounts.Keeps` | src/libshit/ref_counted.hpp:30-65 | every atomic access and every pointer operation of every thread keeps the invariant: the strong count is the number of strong pointers and of operations about to add or drop one, the weak count likewise with one for the strong pointers together |
| `RefCounts.CountsAt` | src/libshit/ref_counted.hpp:30-65 | what the invariant says of one object |
| `RefCounts.QuietCounts` | src/libshit/ref_counted.hpp:25-28 | when no operation is under way the counts are the numbers of pointers, and an object is disposed exactly when no strong pointer is left |
| `RefCounts.ZeroForGood` | src/libshit/ref_counted.hpp:35-65 | a strong count that is zero stays zero, and what is disposed stays so |
| `RefCounts.LockFromLiving` | src/libshit/ref_counted.hpp:56-65 | a weak pointer is locked only to an object that is not disposed, and the count goes up by one |
| `RefCounts.LockOutcome` | src/libshit/ref_counted.hpp:56-65 | a step of a lock gives up if and only if the object has no owner left, makes the pointer if and only if it has one and the count is the one seen before, and else goes on with the count it saw |
| `RefCounts.LockWhileOwned` | src/libshit/ref_counted.hpp:56-65 | in every run a lock during which the object always has an owner does not give null: it goes on until it has made the pointer |
| `RefCounts.PointerMade` | src/libshit/shared_ptr.hpp:148-155 | a copied pointer is the one it was copied from, a weakened or locked one refers to the same object, and no other pointer is touched |
| `RefCounts.PointerStays` | src/libshit/shared_ptr.hpp:148-199 | a pointer stays as it is through every step of every thread until the program moves, swaps or destroys it |
| `RefCounts.OperationGives` | src/libshit/shared_ptr.hpp:148-199 | which pointers there are after a move, a swap, a destruction or the beginning of a copy or a lock |
| `RefCounts.SourceCounts` | src/libshit/ref_counted.hpp:30-50 | an object that is being copied from or released has the count that operation relies on |
| `RefCounts.DisposeOnce` | src/libshit/ref_counted.hpp:35-44 | `Dispose` runs with no strong reference left and the object still there, as the two assertions around it say |
| `RefCounts.NothingRefers` | src/libshit/ref_counted.hpp:51-55 | when an object is deleted no pointer and no other operation refers to it |
| `RefCounts.NoLeak` | src/libshit/ref_counted.hpp:51-55 | when all pointers are gone so are all objects |
| `RefCounts.InitialOk` | src/libshit/shared_ptr.hpp:172-183 | the empty state satisfies the invariant |
| `RefCounts.RunKeeps` | src/libshit/ref_counted.hpp:30-65 | so does every state of every interleaved run |
| `RefCounts.DisposedStays` | src/libshit/ref_counted.hpp:35-44 | in a run a disposed object stays disposed as long as it is there |
| `RefCounts.DisposedOnce` | src/libshit/ref_counted.hpp:35-44 | in no run is an object disposed twice |
| `RefCounts.Memory.CopyingStep` | src/libshit/ref_counted.hpp:30-50 | the step of the model is what `AddRef` and `AddWeakRef` do |
| `RefCounts.Memory.LockingStep` | src/libshit/ref_counted.hpp:56-65 | likewise the load and the compare-exchange of `LockWeak`, which may fail spuriously; what they come to is `LockOutcome` |
| `RefCounts.Memory.ReleasingStep` | src/libshit/ref_counted.hpp:35-55 | likewise the decrements, `Dispose` and the deletion |
| `RefCounts.Memory.PointerStep` | src/libshit/shared_ptr.hpp:148-199 | likewise the beginning of a pointer operation, and moves, which touch no count |
| `RefCounts.Memory.Schedule` | src/libshit/shared_ptr.hpp:356-371 | any schedule of enabled steps keeps the invariant |
| `Wtf8.PairRoundTrip` | src/libshit/wtf8.cpp:24-29 | a surrogate pair is the pair of its code point |
| `Wtf8.PointRoundTrip` | src/libshit/wtf8.cpp:24-29 | a code point beyond 16 bits is the code point of its pair |
| `Wtf8.PairOrder` | src/libshit/wtf8.cpp:24-25 | surrogate pairs are joined to code points in lexicographic order, the lead surrogate counting first |
| `Wtf8.PairsOnto` | src/libshit/wtf8.cpp:24-25 | the code points of the pairs are exactly those from 10000 to 10FFFF (hexadecimal), which with their order leaves one mapping |
| `Wtf8.Utf16Parse.PutUnit` | src/libshit/wtf8.cpp:64-77 | what has been passed on and what is held back are the code points of the units so far |
| `Wtf8.Utf8Producer.Put` | src/libshit/wtf8.cpp:99-127 | appends the encoding of the code point |
| `Wtf8.Utf8Parse` | src/libshit/wtf8.cpp:164-202 | the loop over bytes decodes what the recursive definition does, and fails when that does |
| `Wtf8.DecodedAll` | src/libshit/wtf8.cpp:164-202 | decoding the encoding of any code points, surrogates included and with either form of zero, gives them back |
| `Wtf8.DecodingFails` | src/libshit/wtf8.cpp:164-202 | a stray continuation byte, a byte that starts nothing and a code point cut short by the end are errors, and what was decoded before stays |
| `Wtf8.WellFormedDecodes` | src/libshit/wtf8.cpp:164-202 | all well-formed UTF-8 in the sense of RFC 3629 decodes, to code points that encode to it |
| `Wtf8.SortsAlike` | src/libshit/wtf8.cpp:99-127 | sorting encoded text byte by byte sorts it by code points, which with the syntax of RFC 3629 leaves one encoding |
| `Wtf8.UnitsOfPoints` | src/libshit/wtf8.cpp:64-77 | joining the surrogate pairs of any units and splitting them again gives the units back |
| `Wtf8.PointsCanonical` | src/libshit/wtf8.cpp:64-77 | no pair of surrogates is left after joining |
| `Wtf8.PointsOfUnits` | src/libshit/wtf8.cpp:217-227 | splitting and joining gives back any code points that have no such pair |
| `Wtf8.GenWtf16ToWtf8` | src/libshit/wtf8.cpp:129-136 | computes the WTF-8 of the units, or the UTF-8 with lone surrogates replaced; which code points and bytes these are is fixed by `PairOrder`, `PairsOnto`, `SortsAlike` and `WellFormedDecodes` |
| `Wtf8.GenWtf16ToCesu8` | src/libshit/wtf8.cpp:150-156 | computes the CESU-8 |
| `Wtf8.GenWtf8ToWtf16` | src/libshit/wtf8.cpp:229-234 | computes the units of what the bytes decode to |
| `Wtf8.Wtf8ToCesu8` | src/libshit/wtf8.cpp:247-251 | transcodes without an intermediate string |
| `Wtf8.Cesu8ToWtf8` | src/libshit/wtf8.cpp:253-259 | likewise back |
| `Wtf8.Wtf8RoundTrip` | src/libshit/wtf8.cpp:129-136 | units, to WTF-8 and back, are the same units, also ill-formed ones |
| `Wtf8.Cesu8RoundTrip` | src/libshit/wtf8.cpp:150-156 | likewise through CESU-8 |
| `Wtf8.PointsRoundTrip` | src/libshit/wtf8.cpp:229-234 | canonical WTF-8, to units and back, is the same WTF-8 |
| `Wtf8.Commutes` | src/libshit/wtf8.cpp:247-259 | the direct ways between WTF-8 and CESU-8 agree with the ways through units, and undo each other |
| `Wtf8.Injective` | src/libshit/wtf8.cpp:129-156 | different units have different encodings |
| `Wtf8.Utf8WellFormed` | src/libshit/wtf8.cpp:145-146 | the replacing conversion always gives well-formed UTF-8, and differs from WTF-8 exactly when there are lone surrogates |
| `StringTable.Table.Resize` | ext/lua-5.3.5/src/lstring.c:71-96 | rehashing in place, growing or shrinking, keeps every string exactly once and puts it in its bucket |
| `StringTable.Table.RehashBucket` | ext/lua-5.3.5/src/lstring.c:77-87 | one bucket is emptied and its strings are where the new size wants them |
| `StringTable.VanishingEmpty` | ext/lua-5.3.5/src/lstring.c:88-92 | before the table shrinks the buckets that vanish are empty |
| `StringTable.InBucket` | ext/lua-5.3.5/src/lstring.c:167-181 | a string of the table is in the bucket of its hash |
| `StringTable.Table.Find` | ext/lua-5.3.5/src/lstring.c:171-181 | finds a string equal to the given one exactly when there is one |
| `StringTable.Table.Intern` | ext/lua-5.3.5/src/lstring.c:167-193 | gives the one object there is for the string, bringing it back from the dead, or a new one; the table doubles exactly when it holds as many strings as buckets, so that there are never more |
| `StringTable.Table.Remove` | ext/lua-5.3.5/src/lstring.c:154-161 | takes out that string and no other |
| `StringTable.Table.ClearCache` | ext/lua-5.3.5/src/lstring.c:103-110 | no string of the cache is about to be freed |
| `StringTable.Table.New` | ext/lua-5.3.5/src/lstring.c:219-233 | a short string from the cache is the very object that interning would give |
| `StringTable.Table.Cache` | ext/lua-5.3.5/src/lstring.c:229-232 | puts the string first in its slot and drops the last |
| `StringTable.Run` | ext/lua-5.3.5/src/lstring.c:167-233 | in every run two equal short strings are one object, also with collections in between |
| `Upvalues.LuaState.Run` | ext/lua-5.3.5/src/lfunc.c:57-96 | for every sequence of pushes, assignments, closures made and freed, upvalues joined and frames left: each closure reads what was last assigned to the variables it captured, as in a semantics where every local is a new variable and closures simply hold variables, and two closures share an upvalue exactly when they share a variable |
| `Upvalues.LuaState.FindUpval` | ext/lua-5.3.5/src/lfunc.c:57-80 | the open upvalue of a level is found if there is one, and otherwise a new one is linked where the list stays ordered |
| `Upvalues.OnePerLevel` | ext/lua-5.3.5/src/lfunc.c:57-80 | there is at most one open upvalue for a level |
| `Upvalues.OneVariable` | ext/lua-5.3.5/src/lfunc.c:57-80 | assigning to an upvalue changes what that one holds and no other |
| `Upvalues.LuaState.CloseFirst` | ext/lua-5.3.5/src/lfunc.c:85-95 | the first open upvalue takes its value with it, or goes when nothing refers to it |
| `Upvalues.LuaState.Close` | ext/lua-5.3.5/src/lfunc.c:83-96 | exactly the upvalues from a level up are closed, the counts stay right, and what closures read does not change |
| `Upvalues.LuaState.Leave` | ext/lua-5.3.5/src/lfunc.c:83-96 | leaving a frame means forgetting its variables, not what closures hold |
| `Upvalues.LuaState.PushClosure` | ext/lua-5.3.5/src/lvm.c:632-650 | a new closure holds the variables its description names, each counted once more |
| `Upvalues.LuaState.GetCached` | ext/lua-5.3.5/src/lvm.c:610-623 | the cached closure is taken exactly when it holds the variables that a new one would |
| `Upvalues.LuaState.InitUpvals` | ext/lua-5.3.5/src/lfunc.c:45-54 | each upvalue is a new variable that holds nil |
| `Upvalues.LuaState.FreeClosure` | ext/lua-5.3.5/src/lgc.c:686-694 | every upvalue of the closure is counted down, and a closed one goes with its last user |
| `Upvalues.LuaState.UpvalueJoin` | ext/lua-5.3.5/src/lapi.c:1287-1297 | the closure holds the other variable from now on; see Findings for the exact condition |
| `Upvalues.JoinExample` | ext/lua-5.3.5/src/lapi.c:1287-1297 | a closure with one closed upvalue loses it when it is joined to itself |
| `References.Table.Ref` | ext/lua-5.3.5/src/lauxlib.c:595-613 | the reference is positive and not in use, and holds the value; it is the one dropped last if there is one, and only else the next new number |
| `References.Table.Unref` | ext/lua-5.3.5/src/lauxlib.c:616-624 | the reference is free again and all others keep their values; a negative one changes nothing |
| `References.SlotCount` | ext/lua-5.3.5/src/lauxlib.c:595-624 | each number up to the largest is in use or free, so that a new one is taken only when all are in use |
| `References.SingleBorder` | ext/lua-5.3.5/src/lauxlib.c:609-610 | while the free list is empty the table has only one border, so that the new reference is the next number whatever border the length finds |
| `References.Taken` | ext/lua-5.3.5/src/lauxlib.c:605-608 | the head of the free list, threaded through the table itself, is not in use |
| `References.Dropped` | ext/lua-5.3.5/src/lauxlib.c:617-623 | a dropped reference heads the free list |
| `References.Run` | ext/lua-5.3.5/src/lauxlib.c:595-624 | in every run the references in use hold what was stored |
| `StringLiterals.Stream.DumpByte` | src/libshit/string_utils.cpp:17-44 | appends the text of the byte and says whether it was a hexadecimal escape |
| `StringLiterals.Stream.DumpBytes` | src/libshit/string_utils.cpp:81-88 | appends the literal |
| `StringLiterals.BodyPrintable` | src/libshit/string_utils.cpp:17-44 | what is written is printable ASCII |
| `StringLiterals.BodyOfText` | src/libshit/string_utils.cpp:32-33 | text without quotes and backslashes is written as it is |
| `StringLiterals.HexDigits` | src/libshit/string_utils.cpp:35-39 | the hexadecimal digits in their order, in either case |
| `StringLiterals.LexState.ReadString` | ext/lua-5.3.5/src/llex.c:366-426 | reads the literal that the grammar says, or fails with its error |
| `StringLiterals.LexState.ReadEscape` | ext/lua-5.3.5/src/llex.c:381-420 | every escape, `\z` and a line break included |
| `StringLiterals.LexState.ReadHexaEsc` | ext/lua-5.3.5/src/llex.c:319-324 | two hexadecimal digits |
| `StringLiterals.LexState.ReadUtf8Esc` | ext/lua-5.3.5/src/llex.c:327-350 | a code point up to 10FFFF, encoded |
| `StringLiterals.LexState.ReadDecEsc` | ext/lua-5.3.5/src/llex.c:353-363 | up to three decimal digits, at most 255 |
| `StringLiterals.LetterEscapes` | ext/lua-5.3.5/src/llex.c:381-393 | the character that each letter behind a backslash stands for |
| `StringLiterals.Utf8Chars` | ext/lua-5.3.5/src/lobject.c:346-361 | filling the buffer from its end gives the encoding of the code point, the same that libshit produces |
| `StringLiterals.DecimalEscape` | ext/lua-5.3.5/src/llex.c:353-363 | three decimal digits stand for their number, whatever follows, and are an error from 256 on |
| `StringLiterals.ShortDecimal` | ext/lua-5.3.5/src/llex.c:353-363 | so do one or two where no digit follows |
| `StringLiterals.BracedEscape` | ext/lua-5.3.5/src/llex.c:327-350 | a number in hexadecimal between braces stands for the UTF-8 of that code point, and is an error beyond 10FFFF |
| `StringLiterals.SkippedSpaces` | ext/lua-5.3.5/src/llex.c:395-403 | `\z` skips all the white space that follows |
| `StringLiterals.LuaRoundTrip` | ext/lua-5.3.5/src/llex.c:366-426 | Lua reads any bytes that libshit has dumped back as those bytes, whatever follows |
| `StringLiterals.WriteThenRead` | src/libshit/string_utils.cpp:81-88 | the same of the two programs one after the other |
| `StringLiterals.CRoundTrip` | src/libshit/string_utils.cpp:81-88 | so does a C compiler, whose hexadecimal escapes have no maximal length |
| `StringLiterals.FlagNeeded` | src/libshit/string_utils.cpp:31-33 | without the flag that remembers a hexadecimal escape a C compiler reads the bytes back if and only if no such escape is followed by a byte that prints as a hexadecimal digit |
| `StringLiterals.PlainLength` | src/libshit/string_utils.cpp:31-33 | without the flag a C compiler never reads more bytes, and as many only then |
| `Random.DivIsFloor` | src/libshit/random.hpp:88 | the divisor, computed without overflow, is the number of blocks divided by the bound |
| `Random.RejectedAt` | src/libshit/random.hpp:89-92 | rejected are exactly the blocks from the last full multiple on |
| `Random.Unbiased` | src/libshit/random.hpp:83-95 | every result below the bound has equally many blocks, and fewer than half of all blocks are rejected |
| `Random.DrawInRange` | src/libshit/random.hpp:83-95 | the result is below the bound |
| `Random.ExchangedDraw` | src/libshit/random.hpp:83-95 | sequences of blocks with two results exchanged correspond one to one, so that all results are equally likely whatever the number of rejections |
| `Random.HighBits` | src/libshit/random.hpp:49-54 | for a power of two nothing is rejected and the result is the high bits of the block |
| `Random.Xoshirop.GenBlock` | src/libshit/random.hpp:186-202 | the four assignments in place are one step of the generator |
| `Random.RotateValue` | src/libshit/random.hpp:205-206 | a rotation is a shift to the left with what is lost put at the lower end |
| `Random.ShiftValue` | src/libshit/random.hpp:190 | a shift to the left multiplies by a power of two and loses what does not fit |
| `Random.Xoshirop.Gen` | src/libshit/random.hpp:83-95 | the loop computes the draw from the blocks that the generator gives |
| `Random.Injective` | src/libshit/random.hpp:186-202 | the step can be undone: different states have different successors |
| `Random.ZeroOnlyFromZero` | src/libshit/random.hpp:186-202 | only the zero state leads to the zero state |
| `Random.NeverZero` | src/libshit/random.hpp:175-181 | a generator seeded as required never gets there |
| `Random.RunsInjective` | src/libshit/random.hpp:186-202 | two generators that agree at some time agreed all the time |

## Left out

- Expression compiler: statements other than `local name = expr` and the final return, calls, indexing, table constructors, functions, varargs, `storevar` and `self`; a `local` has one name and one value; names are resolved to registers and upvalues (fewer than 255) before parsing; line information; the limits on nesting (200 C levels) and on local variables (200).
- Compilation may fail whenever the code, the registers or the constants have reached a limit; that small programs stay below them is not stated.
- Values and the operators on them are parameters of the machine, with numbers as opaque constants; metamethods do not change registers other than the result.
- GcRun.Run: leaves out the two operations named in its row, for which Findings give the exact outcome; the run after a strayed sweep is followed to the end of sweeping `allgc` only.
- Collector.GlobalState.SingleStep: a step that goes on sweeping `finobj` behind objects that an earlier sweep has missed is not covered.
- Collector: open upvalues, `twups` and `remarkupvals` (all upvalues of the collector's model are closed; `Upvalues` has open ones); `luaC_fix` after the start; `luaC_freeallobjects`; memory accounting, debt, pause and the size of a step; shrinking of stacks and of the string table; the wrap of `gcfinnum`.
- Collector: `__mode` and `__gc` are two fields of a table instead of entries of its hash part; a hash part grows without rehashing; what finalizers do is left to the actions of a run, between the steps.
- Collector: the two assertions of the atomic step that `ephemeron` and `weak` are empty are proved where needed, not modelled.
- RefCounts: `unsafe_lock`, `RefCountedStackHolder`, failing dynamic casts, pointers made from raw pointers; memory orderings, for atomic accesses are interleaved; counts do not wrap at 32 bits.
- Wtf8: the little-endian variants; lengths reserved; `GenWtf8ToWtf16`, `Wtf8ToCesu8` and `Cesu8ToWtf8` are stated for input that decodes to code points of Unicode, the last one to 16-bit units.
- StringTable: the hash function is a parameter; the size is not bounded by MAX_INT; `lmod` is taken as the remainder.
- Upvalues: threads, `twups`, the `touched` flag, and barriers; values are numbers; what happens after an upvalue that was joined to itself is gone.
- References: a nil value, which gets the constant LUA_REFNIL, and `t[0]` used by others.
- StringLiterals: line counting, the limits on the length of a token, octal and universal character names of C and its trigraphs.
- Random: draws of floats, enumerations and from ranges; the seed is a parameter; the endless retry is modelled by a number of tries.
- options.cpp: option lookup and the compaction of the argument vector.
