# Jankscripten, verified

Jankscripten compiles JavaScript to WebAssembly and runs it on its own garbage-collected runtime.
This project models the parts of it that are hardest to get right and proves what they promise.
`dafny verify dfyconfig.toml` checks everything.

Three areas are covered.

**Control flow** (`javascript`, `desugar_*`, `control_desugaring`, `patches`, `notwasm*`, `insert_returns`).
`javascript.dfy` gives statements a big-step meaning after ECMA-262 5.1: an expression is whatever it
does to the store, and a store is an arbitrary world beside the variables that the compiler invents.
The desugaring passes are written twice: as functions, and as the visitors of the compiler, which
update their stacks, maps and name generator in place and are proved equal to the functions.  The
functions are then proved to preserve meaning.  `notwasm.dfy` has NotWasm's labelled statements, a
WebAssembly machine with locals, an operand stack and shadow frames, and the translation with its
de Bruijn branch depths, and calls of other functions, direct, indirect and through closures.  Runs
carry fuel that only loops and calls spend; a program and its translation spend the same, so a run of
one ends exactly when the run of the other does.

**The managed heap** (`class_list`, `heap_values`, `collection`, `mutator`, `heap`,
`objects`, `object_insert`, `runs`, `run_uses`, `prototypes`).
`Heap` is a class with the runtime's fields: the allocation list, the byte account, the shadow stack,
the two float spaces.  Memory is a map from addresses to blocks.  Its methods mark with two worklists,
evacuate floats, sweep with a cursor, and retry allocations after a collection.  What a collection is
(`Collection.Collected`) and what a good heap is (`Collection.Valid`) are stated on values.  On top are
hidden classes, objects that move their data to a larger block when a field is added, the inline
cache, and prototype chains.  `runs.dfy` has one step for each thing a program can do to the heap, and
what holds in every run of such steps; `run_uses.dfy` says that a program may take these steps with
whatever it has at hand.

**Closures, coercions, data** (`free_vars`, `collect_assigns`, `box_assigns`, `closure_convert`,
`closures`, `janky_meaning`, `boxing_correct`, `conversion_correct`, `declared_in_time`,
`lifted_programs`, `closures_correct`, `closure_limits`, `any_programs`, `coercions`,
`coercion_meaning`, `intern`).  Lifting declarations, free variables, which variables need boxes,
boxing, environments; `janky_meaning.dfy` gives one meaning to programs at all these stages, with
variables shared by reference, boxes, and environments that hold copies, and the passes are proved to
keep it.  The coercion calculus and its smart constructors, first by types and then by what coercions
do to values and to calls; the data segment.

`None`, `ok == false` or an error outcome stands for a panic of the original, wherever it has one.

## Results worth reading first

- `ControlDesugaring.PreservesMeaning`, `NotWasmCorrectness.ProgramCorrect`: the compiler's control flow
  is right, and every compiled function, through all the calls it makes, returns what it should and
  leaves the shadow stack as it found it.
- `ClosuresCorrect.TimelyKeepMeaning`: boxes and copied environments do what shared variables do, in every
  accepted program that declares its variables in time, as lifting the declarations makes it do;
  `AnyPrograms.AnyProgramsKeepMeaning`: and all that a parsed program needs for it are names.
- `ManagedHeap.Heap.Gc`, `Runs.RunsAreSafe`: a collection keeps exactly what is reachable, and no run
  ever meets a dangling pointer or an unbalanced byte account.
- `ObjectInsertion.Insert`, `Runs.ObjectsAreMaps`, `Runs.CellsAreKept`: objects are maps, through aliases
  and collections, and every other block holds what was written last.
- `CoercionMeaning.NewMeans`, `CoercionMeaning.NewCallMeans`, `Interning.LiteralsAreSound`.

## Where the code and its intent differ

Each is proved with the exact condition or with the input that shows it.

- A `continue` in a `do..while` loop skips the test.  A round is kept if and only if, after a
  `continue` to its loop, the test would have changed nothing and been true
  (`LoopCorrectness.SkippedRoundIff`), so a loop with this test may be continued in every program if and
  only if the test is always true (`ContinuedTestsExactly`); with a false test the loop goes on that
  JavaScript leaves (`ContinueSkipsTheTest`, and `DoContinueDiverges` for a whole program).
  `LoopsKeepMeaning` says what the desugared program does in every case.
- Falling into a case evaluates its test again.  At a given store that is invisible if and only if the
  test neither throws nor changes anything there (`SwitchCorrectness.ImpureTestRunsAgain`), so a test may
  stand after the first in every program if and only if it is pure (`PureTestsExactly`).
- A value that is being stored while memory is collected is not moved if it is a float: the new block
  is good if and only if it holds no float (`Mutator.StaleFloats`, used by `Heap.AllocOrGc` and `ObjectInsertion.Insert`).
- Class tags wrap at 65536: a transition leads to a class with the new field if and only if the
  transition exists already or a tag is left (`ClassLists.TransitionRightIff`, `TagsWrap`).
- The cached offset is used without looking at the class: it is right if and only if the class holds
  the name at that offset (`ClassLists.CacheRightIffFits`), which classes that do not descend from the
  cached one need not (`CacheWrongElsewhere`).
- The type checker reads argument coercions the other way round than they are documented.  It gives a
  coercion its documented type if and only if every argument is, at every depth, read the other way
  round once more: a plain argument coercion needs equal ends, one between functions its own
  arguments read rightly, and a sequence has to fit together as it is written with its outer ends in
  each other's place, so misreadings one inside the other cancel (`Coercions.CheckerRightIff`;
  `CheckerMisreads` has an input).  The model follows the documentation and the constructors.
- Lifting a declaration of a parameter sets the parameter to `undefined` before the function's code
  begins: it has its argument then if and only if the body does not declare it, or the argument is
  `undefined` (`LiftedPrograms.ParametersKeptIff`).  JavaScript keeps the argument (section 10.5 of
  ECMA-262 5.1).
- A typed declaration without a value makes no box, so the first assignment to such a variable finds
  none if the variable is captured: in a program of this shape the passes keep the meaning if and
  only if the declaration is not of this kind (`ClosureLimits.TypedDeclarationMakesNoBox`).
- Whether a variable is boxed is decided by name, so a runtime name that some function uses is read
  through a box that it does not have as soon as any function assigns a variable of its own of that
  name, and then only (`ClosureLimits.NamesGetBoxes`).
- `ClosuresCorrect.Accepted` is what a program needs so that neither happens.  A form of declaration and
  a set of runtime names may be let off in every program if and only if the form is not typed and
  `undefined` and no program can use the names (`ClosureLimits.ExemptExactly`).

## Model

| member | source | states |
|---|---|---|
| Ids.FreshIsNew | libjankscripten/src/shared/id.rs:69-86 | a generated name was never known before and is known afterwards |
| LoopCorrectness.ExplicitBreaksCorrect | libjankscripten/src/javascript/desugar_loops.rs:199-235 | moving each loop test into the body as a break gives the same run, where a `continue` of a do..while skips the test |
| LoopCorrectness.LabelLoopsSim | libjankscripten/src/javascript/desugar_loops.rs:74-189 | labelling loops and bodies and turning every jump into a labelled break gives the same run with breaks and continues renamed by the visitor's stack and map |
| LoopCorrectness.LabelLoopsRestores | libjankscripten/src/javascript/desugar_loops.rs:165-189 | the visitor's stack and map are as before after each statement, names only grow, and no continue is left |
| LoopCorrectness.ForToWhileCorrect | libjankscripten/src/javascript/desugar_loops.rs:24-48 | a continue-free for loop and the block with a while loop that replaces it run alike |
| LoopCorrectness.LoopsKeepMeaning | libjankscripten/src/javascript/desugar_loops.rs:14-18 | for every well-formed program, store and fuel the three passes together give the same store and completion, do..while with `continue` meaning what the code makes of it, and leave no continue |
| LoopCorrectness.LoopsPreserveMeaning | libjankscripten/src/javascript/desugar_loops.rs:14-18 | the same against JavaScript's own meaning when no `continue` targets a do..while loop, or only loops whose test is true in every store (sections 12.6 to 12.8 and 12.12 of ECMA-262 5.1) |
| LoopCorrectness.SkippedTestIff | libjankscripten/src/javascript/desugar_loops.rs:219-228 | the rest of a round is kept if and only if after a `continue` to the loop the test would have changed nothing and been true |
| LoopCorrectness.SkippedRoundIff | libjankscripten/src/javascript/desugar_loops.rs:219-228 | the same for a whole round of a body that is kept itself |
| LoopCorrectness.ContinueSkipsTheTest | libjankscripten/src/javascript/desugar_loops.rs:219-228 | in any store, a round that ends by a `continue` to the loop with a false test ends the loop in JavaScript, in the store the test gives, and the desugared loop goes round again without it |
| LoopCorrectness.ContinuedTestsExactly | libjankscripten/src/javascript/desugar_loops.rs:219-228 | a test is true in every store and changes none if and only if every accepted program keeps its meaning, at every store and fuel, in which all continued do..while loops have this test |
| LoopCorrectness.DoContinueDiverges | libjankscripten/src/javascript/desugar_loops.rs:219-228 | `do { continue; } while (false)` ends in JavaScript, its translation runs out of any fuel |
| LoopCorrectness.AcceptsExactlyScoped | libjankscripten/src/javascript/desugar_loops.rs:96-178 | the passes accept a program if and only if every unlabelled jump is in a loop and every labelled continue names a label directly on an enclosing loop |
| DesugarLoops.LabelLoopsVisitor.WalkStmt | libjankscripten/src/javascript/desugar_loops.rs:74-179 | entering, walking and leaving a statement in place computes the labelling function and its final state, panics included |
| DesugarLoops.LabelLoopsVisitor.LabelLoopState | libjankscripten/src/javascript/desugar_loops.rs:180-189 | pushes the break label and maps it to a fresh continue label |
| DesugarLoops.DesugarInPlace | libjankscripten/src/javascript/desugar_loops.rs:14-18 | the three passes in place compute the function that the theorems are about |
| SwitchCorrectness.SwitchSim | libjankscripten/src/javascript/desugar_switch.rs:41-121 | at any place in any nesting of switches and loops a statement and its translation end alike, a break that would leave the switch becoming a break to the switch's label, and only new variables are touched |
| SwitchCorrectness.SwitchPreservesMeaning | libjankscripten/src/javascript/desugar_switch.rs:41-129 | for every program whose tests after the first are pure, the fall-through chain has the switch's completion and store (section 12.11 of ECMA-262 5.1) |
| SwitchCorrectness.ImpureTestRunsAgain | libjankscripten/src/javascript/desugar_switch.rs:72-95 | for any test and store, falling into the test keeps the run if and only if evaluating it there neither throws nor changes anything |
| SwitchCorrectness.PureTestsExactly | libjankscripten/src/javascript/desugar_switch.rs:72-95 | a test is pure if and only if every accepted program with it after a first test keeps its meaning at every store |
| SwitchCorrectness.AcceptsExactlyBlockDefaults | libjankscripten/src/javascript/desugar_switch.rs:97-110 | the pass accepts a program if and only if every default clause is a block or empty |
| SwitchCorrectness.OutputWellFormed | libjankscripten/src/javascript/desugar_switch.rs:112-113 | the result has no switch and no label inside itself, so the loop passes may follow |
| SwitchCorrectness.NamesGrow | libjankscripten/src/javascript/desugar_switch.rs:63-64 | the generator only moves forward, so names of different switches differ |
| DesugarSwitch.SwitchVisitor.WalkStmt | libjankscripten/src/javascript/desugar_switch.rs:41-121 | the visitor with its name stack computes the translation and restores the stack |
| DesugarSwitch.SwitchVisitor.WalkSwitch | libjankscripten/src/javascript/desugar_switch.rs:42-115 | the same for a switch: label pushed on the way in, popped on the way out |
| DesugarSwitch.DesugarInPlace | libjankscripten/src/javascript/desugar_switch.rs:123-129 | the pass in place computes the translation function |
| ControlDesugaring.DesugarInPlace | libjankscripten/src/javascript/desugar.rs:6-8 | switches first, then loops, with one name generator |
| ControlDesugaring.PreservesMeaning | libjankscripten/src/javascript/desugar.rs:6-8 | both desugarings together: same completion, same world and variables, no continue left |
| Patches.StableSort | libjankscripten/src/javascript/walk.rs:72 | the result is ascending, and at every index the patches are the same in the same order |
| Patches.OneInserted | libjankscripten/src/javascript/walk.rs:74-78 | inserting a patch in front of all patches at its index or above is one `Vec::insert` |
| Patches.BlockContext.Insert | libjankscripten/src/javascript/walk.rs:61-64 | a patch is added if and only if its index is in the block |
| Patches.BlockContext.ApplyPatches | libjankscripten/src/javascript/walk.rs:66-79 | for every block and every list of patches: at each index the patches in the order added, then the statement, and the rest at the end |
| NotWasmCorrectness.AtomRuns | libjankscripten/src/notwasm/translation.rs:775-799 | the code of a literal, `undefined`, a name or a primitive application leaves its value on the stack in the world that evaluating it gives, or traps with it |
| NotWasmCorrectness.ExprRuns | libjankscripten/src/notwasm/translation.rs:638-740 | so does the code of an expression, calls by name, through a variable and of closures included, or it runs out of fuel with it |
| NotWasmCorrectness.CallSim | libjankscripten/src/notwasm/translation.rs:684-740 | a call, by whatever index, does what the function does and leaves the caller its stack, locals and shadow frames |
| NotWasmCorrectness.WriteRuns | libjankscripten/src/notwasm/translation.rs:487-503 | writing a variable sets its local and, where its type can hold a heap address, makes its own slot of the current shadow frame the address in the value, and touches no other variable's |
| NotWasm.RootsExact | libjankscripten/src/notwasm/syntax.rs:96-113 | a type is a root if and only if some value of it holds a heap address: a pointer, the environment of a closure, or either in a value of any type |
| NotWasm.AsWasmExact | libjankscripten/src/notwasm/translation.rs:1328-1349 | a type is represented in as many bits as its values take, whatever the words |
| NotWasmCorrectness.AcceptsExact | libjankscripten/src/notwasm/translation.rs:684-740 | the machine lets a call through, by its signatures, if and only if the source does, by its types: as many arguments, each as wide, and a result |
| NotWasmCorrectness.WellNamedIff | libjankscripten/src/notwasm/translation.rs:473-482 | what the theorems ask of a function's names is that its parameters and declarations, in order, repeat none |
| NotWasmCorrectness.StmtSim | libjankscripten/src/notwasm/translation.rs:436-577 | from matching locals, label stack and shadow frame, a statement's code ends in the matching state with the matching exit: falling through, the branch depth of the innermost block with the label, a return with the frame popped, or a trap |
| NotWasm.FindLabel | libjankscripten/src/notwasm/translation.rs:559-566 | the depth found is the least one at which the label stands, or the label is unbound |
| NotWasmCorrectness.NoBreakToLoop | libjankscripten/src/notwasm/translation.rs:540-548 | a loop's own depth is never the target of a break |
| NotWasmCorrectness.ScopeGrows | libjankscripten/src/notwasm/translation.rs:473-482 | every declaration takes the next index, no two variables share one, and indices count parameters and locals together |
| NotWasmCorrectness.BodyCorrect | libjankscripten/src/notwasm/translation.rs:258-302 | a body in its frame of as many slots as there are parameters and locals behaves as the source says |
| NotWasmCorrectness.FunctionCorrect | libjankscripten/src/notwasm/translation.rs:258-302 | for every accepted function, arguments, world and callers' frames the code returns what the function returns in the same world, through all calls it makes, and leaves the shadow stack as it was, at any return and at the end; no slot write is out of range |
| NotWasmCorrectness.ProgramCorrect | libjankscripten/src/notwasm/translation.rs:204-240 | the same for every function of the module that is read back from the emitted instructions of a whole program |
| NotWasmCorrectness.BracketsBalance | libjankscripten/src/notwasm/translation.rs:528-557 | reading the emitted instructions back gives the structured code they came from |
| NotWasm.Translate.TranslateRec | libjankscripten/src/notwasm/translation.rs:422-577 | the translator, appending to its output and bumping its counters, computes the code function, panics included |
| NotWasm.Translate.TranslateVar | libjankscripten/src/notwasm/translation.rs:456-504 | a declaration evaluates first and binds afterwards, and a typed `undefined` writes nothing |
| NotWasm.Translate.TranslateExpr | libjankscripten/src/notwasm/translation.rs:638-740 | a call emits its arguments, then the index of the callee or the closure's function, and panics on a name of the wrong kind or a type without an index |
| NotWasm.Translate.TranslateArgs | libjankscripten/src/notwasm/translation.rs:666-669 | arguments are emitted left to right |
| NotWasm.TranslateFunc | libjankscripten/src/notwasm/translation.rs:258-302 | enter-frame, body, exit-frame, end, with the types of the locals |
| NotWasm.TranslateProgram | libjankscripten/src/notwasm/translation.rs:134-240 | indexes the function types and then translates every function with them, or panics if and only if one function does |
| InsertReturns.SureNeverFallsThrough | libjankscripten/src/jankyscript/insert_returns.rs:14-42 | a statement that the check calls sure never completes normally, in any store, with catch and finally |
| InsertReturns.BreaksStayInside | libjankscripten/src/jankyscript/insert_returns.rs:14-42 | a break of a scoped statement goes to a label around it |
| InsertReturns.Func.Exit | libjankscripten/src/jankyscript/insert_returns.rs:46-57 | appends `return undefined` when the body is not sure, panics on a body that is no block |
| InsertReturns.PassMakesReturnsExplicit | libjankscripten/src/jankyscript/insert_returns.rs:46-63 | after the pass every ending body returns or throws, and each call gives what it gave |
| InsertReturns.ExitTwice | libjankscripten/src/jankyscript/insert_returns.rs:46-57 | after the pass the check calls every body sure, and a second pass changes nothing |
| ClassLists.TransitionAddsField | runtime/src/allocator/class_list.rs:38-49 | a transition that exists or has a tag left gives a valid table that keeps every class, and a class with exactly one field more at the next slot |
| ClassLists.TransitionRightIff | runtime/src/allocator/class_list.rs:38-49 | it leads to a class with the field at the next slot if and only if it exists or has a tag left |
| ClassLists.ClassesAreCanonical | runtime/src/allocator/class_list.rs:38-49 | two classes with the same names in the same order are the same class |
| ClassLists.TagsWrap | runtime/src/allocator/class_list.rs:25-29 | the class after the last is tagged 0 and does not have the new field |
| ClassLists.CacheRightIffFits | runtime/src/allocator/class_list.rs:67-81 | a cached lookup agrees with the scan if and only if the cache is empty or names the slot of the name, and it stays so |
| ClassLists.CacheGoodBelow | runtime/src/allocator/class_list.rs:67-81 | an offset cached at a class agrees with the scan at every class reachable from it by transitions, in every later table |
| ClassLists.CacheWrongElsewhere | runtime/src/allocator/class_list.rs:67-81 | at a sibling class it does not |
| ClassLists.DescendantsExtend | runtime/src/allocator/class_list.rs:93-101 | a descendant's layout starts with its ancestor's |
| ClassLists.ClassList.Transition | runtime/src/allocator/class_list.rs:38-49 | pushes and reuses classes as the table function says |
| ClassLists.ClassList.LookupCached | runtime/src/allocator/class_list.rs:67-81 | answer and new cache of a lookup |
| ClassLists.FindEntry | runtime/src/allocator/class_list.rs:67-92 | the first entry with an equal text, or none has it |
| HeapValues.CellTagsExact | runtime/src/allocator/heap_types.rs:68-78 | the tags collected are exactly the addresses in pointer cells and the environments in closure cells |
| HeapValues.TagsExact | runtime/src/allocator/env.rs:123-134 | the collector follows every address that a block holds, in a pointer or closure cell, as object data, function object or field name, and no other |
| HeapValues.FloatCellsExact | runtime/src/allocator/heap_types.rs:68-78 | the float slots collected are exactly the float cells, each once, ascending |
| HeapValues.IterToPtrs | runtime/src/allocator/heap_types.rs:80-91 | one loop collects both |
| HeapValues.F64Allocator.Alloc | runtime/src/allocator/f64_allocator.rs:28-40 | the next cell of the current space, or none once LEN-1 are handed out, after which only a swap helps |
| HeapValues.F64Allocator.SemispaceSwap | runtime/src/allocator/f64_allocator.rs:42-45 | the other space becomes current and empty; both keep their contents |
| HeapValues.AllocKeepsFloats | runtime/src/allocator/f64_allocator.rs:28-40 | the new cell reads the number, every older cell reads as before |
| HeapValues.ReachInside | runtime/src/allocator/mod.rs:374-407 | whatever holds of the roots and is handed on by every pointer holds of all that is reachable |
| Collection.SkipKeepsMarking | runtime/src/allocator/mod.rs:388-390 | skipping a marked tag, listed or an interned string with a stale mark, keeps the marking invariant |
| Collection.VisitKeepsMarking | runtime/src/allocator/mod.rs:391-403 | marking a tag, queueing its pointers and moving its floats keeps the marking invariant |
| Collection.MarkingEnds | runtime/src/allocator/mod.rs:374-407 | with the worklists empty a listed block is marked if and only if it is reachable from the shadow stack |
| Collection.TooManyFloats | runtime/src/allocator/mod.rs:401 | the evacuation only fails when the reachable floats do not fit |
| Collection.SweepKeeps | runtime/src/allocator/mod.rs:415-417 | passing a marked block clears its mark and keeps it linked |
| Collection.SweepFrees | runtime/src/allocator/mod.rs:418-431 | unlinking an unmarked block takes off exactly the bytes it was charged |
| Collection.SweptIsCollected | runtime/src/allocator/mod.rs:339-349 | mark and sweep together are a collection |
| Collection.CollectedIsValid | runtime/src/allocator/mod.rs:339-349 | after a collection the heap is good again: no dangling pointer, marks clear, bytes equal to the sum over the list and within the size, floats in the current space |
| Collection.FloatsSurvive | runtime/src/allocator/mod.rs:400-402 | every reachable float slot reads the same number from a used cell of the other space that no other reachable slot has |
| Collection.SameReach | runtime/src/allocator/mod.rs:339-349 | collecting neither loses nor gains anything reachable |
| Collection.HeldIsReached | runtime/src/allocator/mod.rs:374-407 | what a cell of a reachable block points to, or the environment of its closure, is reachable |
| Collection.GoodIsPresent | runtime/src/allocator/mod.rs:374-407 | in a good heap every pointer, closure and float in a cell, every object's data and every environment's function object is there |
| Collection.CollectingTwice | runtime/src/allocator/mod.rs:339-349 | a second collection frees nothing |
| Mutator.AllocIsValid | runtime/src/allocator/mod.rs:136-145 | a fresh block of live contents that fits keeps the heap good, its bytes charged |
| Mutator.StaleFloats | runtime/src/allocator/mod.rs:172-181 | a block allocated after a collection, of contents from before, is good if and only if it holds no float |
| Mutator.CollectionIsInvisible | runtime/src/allocator/mod.rs:339-349 | every cell of every reachable block reads as before a collection |
| Runs.StepFollows | runtime/src/allocator/mod.rs:172-349 | each step (a block, an object, a float, a write, a field put in place, grown or moved, a new class, a root, a frame, a collection) keeps the heap good and every object's fields, but for the one it puts |
| Runs.RunsAreSafe | runtime/src/allocator/mod.rs:172-349 | over any run from a fresh heap nothing in memory dangles (pointers, environments of closures, floats, data, function objects), objects share no data, and the byte account stays right |
| Runs.CellsAreKept | runtime/src/allocator/mod.rs:172-349 | over any run from a fresh heap every cell of an array, a box or an environment reads as what was written there last, or appended, or made with it, numbers that collections moved included |
| RunUses.BlockMayBeMade | runtime/src/allocator/mod.rs:172-181 | a well-formed block of what the program has at hand (reachable, made since the last collection, or static) may be allocated: nothing more is asked |
| RunUses.CellMayBeWritten | runtime/src/array.rs:17-20 | and any value at hand be written into a block at hand |
| RunUses.ArrayMayGrow | runtime/src/array.rs:35-38 | or appended to an array at hand |
| RunUses.RootMayBeSet | runtime/src/allocator/mod.rs:326-333 | and any block at hand be rooted in any slot |
| RunUses.FieldMayBePut | runtime/src/allocator/object_ptr.rs:88-112 | and any name put into a reachable object as long as there are tags left |
| RunUses.YoungIsAtHand | runtime/src/allocator/mod.rs:172-235 | what an operation makes stays at hand until the next collection, rooted or not |
| RunUses.EnvsFilledInTime | runtime/src/allocator/mod.rs:270-283 | over any run that fills its environments before the next collection, no collection meets an empty entry |
| ManagedHeap.Heap.GetGcPtrs | runtime/src/allocator/object_ptr.rs:43-52 | exactly the addresses in the pointer and closure cells, then the class's keys, the data, or the function object |
| ManagedHeap.Heap.EvacuateFloats | runtime/src/allocator/mod.rs:400-402 | moves a block's floats in order to consecutive cells, each reading what it read, or runs out of cells |
| ManagedHeap.Heap.MarkPhase | runtime/src/allocator/mod.rs:374-407 | terminates for any heap, cyclic or not; succeeds if and only if the reachable floats fit; then marks exactly what is reachable |
| ManagedHeap.Heap.Drain | runtime/src/allocator/mod.rs:374-407 | the two-worklist loop empties both lists with every visited block's pointers visited |
| ManagedHeap.Heap.SweepPhase | runtime/src/allocator/mod.rs:409-441 | one pass of the cursor keeps the marked sublist in its order and frees the rest |
| ManagedHeap.Heap.Gc | runtime/src/allocator/mod.rs:339-349 | succeeds if and only if the reachable floats fit one space; leaves exactly the reachable sublist in its old order, marks clear, account right, and no pointer or closure in a reachable block without its target |
| ManagedHeap.Heap.AllocRaw | runtime/src/allocator/mod.rs:136-145 | charges and links exactly when the bytes are there |
| ManagedHeap.Heap.AllocSlice | runtime/src/allocator/mod.rs:294-299 | one attempt: the block allocated in a good heap, or nothing changed |
| ManagedHeap.Heap.AllocStr | runtime/src/allocator/mod.rs:236-248 | a string is charged its bytes, four for its length and four for its tag, or nothing changes |
| ManagedHeap.Heap.AllocEnv | runtime/src/allocator/mod.rs:262-269 | an environment is charged eight bytes an entry and twelve more, and its entries are empty |
| ManagedHeap.Heap.AllocOrGc | runtime/src/allocator/mod.rs:172-181 | try, collect, try again: whether it succeeds, runs out of floats or of memory is known from the reachable bytes and floats beforehand, and so is the state it leaves |
| ManagedHeap.RoomIsKnown | runtime/src/allocator/mod.rs:172-181 | after a collection a block fits if and only if it fits beside the reachable bytes |
| ManagedHeap.Heap.AllocF64OrGc | runtime/src/allocator/mod.rs:151-161 | fails if and only if the space is spent and LEN-1 floats are reachable; otherwise the pointer is live and reads the number |
| ManagedHeap.Heap.AllocObject | runtime/src/allocator/mod.rs:195-202 | two allocations; when only the first fits, its block stays as garbage |
| ManagedHeap.Heap.AllocObjectOrGc | runtime/src/allocator/mod.rs:203-214 | the second try starts from a heap in which that garbage has been collected |
| ManagedHeap.GarbageUnreached | runtime/src/allocator/mod.rs:203-214 | a fresh block nothing points to makes nothing reachable |
| ManagedHeap.Heap.AllocObjectData | runtime/src/allocator/mod.rs:226-235 | a block with every slot of the class empty |
| ManagedHeap.Heap.PushShadowFrame | runtime/src/allocator/mod.rs:311-314 | the shadow stack with a frame of empty slots on top |
| ManagedHeap.Heap.PopShadowFrame | runtime/src/allocator/mod.rs:321-324 | the shadow stack without its last frame, unchanged when there is none |
| ManagedHeap.Heap.SetInCurrentShadowFrameSlot | runtime/src/allocator/mod.rs:330-333 | the shadow stack with that slot of its last frame set, and a root that is set is reachable |
| Mutator.FrameComesAndGoes | runtime/src/allocator/mod.rs:311-324 | a frame pushed has no roots, and popping it gives back the heap as it was |
| ObjectInsertion.Insert | runtime/src/allocator/object_ptr.rs:88-112 | in every heap, with a fitting cache, the object then maps the name to the value and every other name to what it had, no other reachable object changes, and the outcome is known beforehand; a float caught by a collection is the one exception |
| ObjectInsertion.RelayOut | runtime/src/allocator/object_ptr.rs:99-110 | copies all slots to the larger block, adds the value and redirects the object |
| ObjectInsertion.PrepareBlock | runtime/src/allocator/object_ptr.rs:99-104 | after the transition and the allocation every reachable object reads as before, and the new block is empty and unshared |
| Objects.OverwriteInserts | runtime/src/allocator/object_ptr.rs:93-98 | writing a slot in place changes that field of that object only |
| ObjectInsertion.RelaidInserts | runtime/src/allocator/object_ptr.rs:195-207 | moving to a larger block does the same, seen through any alias of the object |
| Objects.CollectedKeepsObjects | runtime/src/allocator/mod.rs:339-349 | a collection changes no field of any reachable object |
| Objects.ClassesGrow | runtime/src/allocator/class_list.rs:38-49 | adding classes changes no object and nothing reachable |
| Runs.ObjectsAreMaps | runtime/src/allocator/object_ptr.rs:88-148 | over any run from a fresh heap each field of each object reads as the value put there last, or as absent since the object was made |
| Runs.InsertIsRun | runtime/src/allocator/object_ptr.rs:88-112 | a finished insert is a run of one to three such steps, unless it stores a float that a collection left behind |
| Runs.BlockIsRun | runtime/src/allocator/mod.rs:172-181 | allocating with a retry is a run of one or two steps and ends where the allocator leaves the heap, unless it stores a float that a collection left behind |
| Runs.FloatIsRun | runtime/src/allocator/mod.rs:151-161 | so is allocating a number, the collection starting from a spent space |
| Runs.ObjectIsRun | runtime/src/allocator/mod.rs:203-214 | so is allocating an object, in up to three steps: a first try that only makes the data, a collection, and a second try |
| Prototypes.Get | runtime/src/allocator/object_ptr.rs:119-170 | on an acyclic chain the read ends with the value of the nearest object that owns the name, or undefined, and updates the cache for the first object only (section 8.12.2 of ECMA-262 5.1) |
| Prototypes.ChainIff | runtime/src/allocator/object_ptr.rs:119-170 | the chain meant is the list in which each object has the next one under `__proto__`, and the last none |
| Prototypes.MatchObject | runtime/src/coercions.rs:48-60 | exactly the pointers to object blocks are objects |
| Prototypes.ProtoIsOwn | runtime/src/ops.rs:168-175 | reading `__proto__` along the chain gives the object's own prototype whenever it gives an object |
| Prototypes.InclusiveInstanceOf | runtime/src/ops.rs:142-177 | true if and only if the target is on the chain, its start included |
| Prototypes.InstanceOf | runtime/src/ops.rs:113-140 | true if and only if the constructor's `prototype` is on the chain above its start; panics on a non-function and on a non-object prototype (section 15.3.5.3 of ECMA-262 5.1) |
| FreeVariables.FreeVarsExact | libjankscripten/src/jankyscript/fv.rs:20-117 | the free variables are exactly what has to be in scope |
| FreeVariables.AnnotateAnnotates | libjankscripten/src/jankyscript/fv.rs:104-112 | every function is annotated with its free variables, nothing else changes |
| AssignAnalysis.CollectCollects | libjankscripten/src/jankyscript/collect_assigns.rs:35-70 | every function is annotated with what its children capture and anything inside assigns |
| AssignAnalysis.BoxingComplete | libjankscripten/src/jankyscript/collect_assigns.rs:36-70 | a variable that some nested function captures, at any depth, and that is assigned anywhere in its scope is in the set |
| AssignAnalysis.CollectAssigns.ExitFn | libjankscripten/src/jankyscript/collect_assigns.rs:40-55 | the child's sets leave the stacks, its free variables and its assignments count in the function around |
| AssignAnalysis.CollectAssigns.Walk | libjankscripten/src/jankyscript/collect_assigns.rs:35-70 | the visitor with its two stacks computes the annotation |
| AssignAnalysis.CollectAssignsIn | libjankscripten/src/jankyscript/collect_assigns.rs:19-27 | and the globals to box |
| Boxing.RenameKeeps | libjankscripten/src/jankyscript/box_assigns.rs:28-66 | receiving boxed parameters under fresh names changes neither what a function needs from outside nor what it holds, and no parameter is boxed any more |
| Boxing.BoxCorrect | libjankscripten/src/jankyscript/box_assigns.rs:27-122 | after boxing every use of a boxed variable goes through its box and no other does, its declaration makes the box unless it is typed and set to `undefined`, a captured variable is boxed inside a function if and only if it is outside, and no function assigns a free variable directly |
| Boxing.BoxVisitor.EnterFn | libjankscripten/src/jankyscript/box_assigns.rs:28-66 | parameters renamed in order, one declaration each in front of the body |
| Boxing.BoxedDeclaration | libjankscripten/src/jankyscript/box_assigns.rs:92-108 | a declaration of a boxed variable makes its box, of type Any always, of another type unless it is set to `undefined` |
| Boxing.BoxVisitor.Walk | libjankscripten/src/jankyscript/box_assigns.rs:27-122 | the visitor with its stack computes the boxing and restores the stack |
| BoxingCorrect.BoxSim | libjankscripten/src/jankyscript/box_assigns.rs:16-20 | at any place, a boxed run ends like the run it comes from, every variable reading the same, directly or through a box that no other variable has, however functions share them |
| Environments.ConvertWellScoped | libjankscripten/src/jankyscript/closure_convert.rs:49-114 | afterwards each body mentions only its parameters, its declarations and entries its environment has |
| Environments.ConvertRoundTrip | libjankscripten/src/jankyscript/closure_convert.rs:49-114 | reading the bodies back gives the program before conversion; what the environments hold is the next row |
| Environments.ConvertFaithful | libjankscripten/src/jankyscript/closure_convert.rs:80-95 | at every closure, at any depth, entry i of the environment denotes, where it is built, the variable that `EnvGet(i)` stands for inside |
| ConversionCorrect.ConvertSim | libjankscripten/src/jankyscript/closure_convert.rs:1-13 | at any place, a run with environments that hold copies ends like the run with shared variables, with the same variables, boxes and world |
| Environments.ClosureConversion.Walk | libjankscripten/src/jankyscript/closure_convert.rs:49-96 | the visitor with its stack of index maps computes the conversion |
| Closures.Prepare | libjankscripten/src/jankyscript/closure_convert.rs:40-43 | the passes together, from a scoped source program: boxing disciplined, no free variable assigned, all names scoped, every environment faithful, and the program the theorems below are about |
| DeclaredInTime.NeverEarly | libjankscripten/src/javascript/desugar.rs:13-28 | code in which on every path each variable is declared before it is used or captured, and none is declared that a function has got hold of, uses, captures and declares none too early, through all calls, whatever order operators run their parts in |
| LiftedPrograms.LiftVarsLifts | libjankscripten/src/javascript/lift_vars.rs:13-20 | what lifting makes of a parsed program begins with its declarations, as its functions do, has the same declarations and needs the same names from outside, and so declares in time |
| LiftedPrograms.ParametersKeptIff | libjankscripten/src/javascript/lift_vars.rs:16-20 | a lifted function runs as its code does once its variables are `undefined`; a parameter has its argument then if and only if the body does not declare it or the argument is `undefined` |
| LiftedPrograms.AllInFront | libjankscripten/src/javascript/walk.rs:61-79 | declarations added at index 0 come first, in the order they were added |
| LiftedPrograms.Walk | libjankscripten/src/javascript/lift_vars.rs:13-20 | the visitor, adding declarations to the block of the function or program around, computes the lifting function |
| LiftedPrograms.WalkBody | libjankscripten/src/javascript/walk.rs:142-191 | a body gets its own patches, and no other, when it is left |
| LiftedPrograms.LiftVarsInPlace | libjankscripten/src/javascript/lift_vars.rs:5-8 | the pass in place, with the panic of a program that is no block |
| ClosuresCorrect.NotesSim | libjankscripten/src/jankyscript/collect_assigns.rs:35-70 | writing free variables and variables to box into a program changes no run |
| ClosuresCorrect.ClosuresKeepMeaning | libjankscripten/src/jankyscript/closure_convert.rs:1-13 | for every accepted program, world and fuel: unless a variable is used too early, the program with boxes and environments ends as the source does in the same world |
| ClosuresCorrect.TimelyKeepMeaning | libjankscripten/src/jankyscript/closure_convert.rs:1-13 | the same on every run of every accepted program that declares its variables in time, temporaries of later passes included |
| ClosuresCorrect.LiftedKeepMeaning | libjankscripten/src/javascript/lift_vars.rs:13-20 | so for every accepted program whose functions begin with their declarations, whatever follows them |
| ClosuresCorrect.LiftVarsKeepMeaning | libjankscripten/src/javascript/lift_vars.rs:13-20 | and for what lifting makes of any parsed program that assigns only what it declares |
| AnyPrograms.LiftedAccepted | libjankscripten/src/javascript/lift_vars.rs:13-20 | what lifting makes of a parsed program whose declarations have type Any is accepted when parameters of a function differ, no name is one boxing makes, and no name of the runtime is captured and also assigned or declared |
| AnyPrograms.AnyProgramsKeepMeaning | libjankscripten/src/jankyscript/closure_convert.rs:1-13 | so boxes and environments keep the meaning of every such program that assigns only what it declares, whatever variables it captures and assigns |
| ClosureLimits.TypedDeclarationMakesNoBox | libjankscripten/src/jankyscript/box_assigns.rs:92-108 | in a program that captures and assigns a variable it declares without computing a value, the passes keep the meaning if and only if the declaration is not typed and `undefined` |
| ClosureLimits.NamesGetBoxes | libjankscripten/src/jankyscript/collect_assigns.rs:40-55 | in a program with a function that uses a runtime name and one that assigns a variable of its own, the passes keep the meaning if and only if the two names differ |
| ClosureLimits.ExemptExactly | libjankscripten/src/jankyscript/box_assigns.rs:92-108 | over all programs, runtimes, worlds and fuel: a form of declaration and a set of runtime names may be let off what `Accepted` asks if and only if the form makes boxes and no program can use the names |
| Coercions.SequenceTyped | libjankscripten/src/shared/coercions.rs:96-110 | the simplified sequence has the type of the plain one, function coercions fused with their arguments in reverse order |
| Coercions.MakeFunTyped | libjankscripten/src/shared/coercions.rs:112-128 | the simplified function coercion has the type of the plain one |
| Coercions.NewTyped | libjankscripten/src/shared/coercions.rs:39-84 | a coercion that is made goes from the first type to the second, with arguments the other way round; the construction terminates |
| Coercions.NewIffConverts | libjankscripten/src/shared/coercions.rs:39-84 | it is made if and only if arities agree and what passes through Any is ground |
| Coercions.GroundIsShallow | libjankscripten/src/shared/types.rs:86-88 | the ground function is ground and of depth one |
| Coercions.NotGroundIsDeep | libjankscripten/src/shared/types.rs:65-84 | a function that is not ground is deeper, which is why the ground-function step ends |
| Coercions.CheckerReadsAsWritten | libjankscripten/src/jankyscript/type_checking.rs:523-565 | the checker accepts a coercion if and only if every sequence in it fits together as written, and reads the types in front and behind |
| Coercions.CheckerRightIff | libjankscripten/src/jankyscript/type_checking.rs:530-556 | for every typed coercion the checker's type is the documented one if and only if every argument is read the other way round once more, and it is the documented one turned round if and only if the whole is |
| Coercions.CheckerMisreads | libjankscripten/src/jankyscript/type_checking.rs:530-556 | a coercion from int arguments to any arguments whose ends the checker swaps |
| CoercionMeaning.SequenceMeans | libjankscripten/src/shared/coercions.rs:96-110 | the simplified sequence does to every value what one coercion does after the other, fused function coercions included |
| CoercionMeaning.MakeFunMeans | libjankscripten/src/shared/coercions.rs:112-128 | the simplified function coercion does to every value what the plain one does |
| CoercionMeaning.CallMeans | libjankscripten/src/shared/coercions.rs:23-29 | calling a coerced function coerces the arguments, calls it, and coerces what it returns |
| CoercionMeaning.NewMeans | libjankscripten/src/shared/coercions.rs:39-84 | a value stays what it is into Any and its own type; an int becomes the float of that number, a float the int without its fraction or a trap; out of Any only values of the type come |
| CoercionMeaning.NewTraps | libjankscripten/src/shared/coercions.rs:68-82 | between other types, through Any, every value traps |
| CoercionMeaning.NewCallMeans | libjankscripten/src/shared/coercions.rs:46-66 | between function types, and out of Any, the result called coerces each argument to what the given function takes and what it returns to what is asked |
| CoercionMeaning.CoerceTyped | libjankscripten/src/shared/coercions.rs:6-33 | what comes out of a coercion with a type is a value of its second type |
| Interning.LittleEndianDecodes | libjankscripten/src/notwasm/intern.rs:62-66 | the four length bytes decode to the length |
| Interning.LittleEndianWeighs | libjankscripten/src/notwasm/intern.rs:62-66 | the first byte counts ones, the last 2^24 |
| Interning.PaddingFormula | libjankscripten/src/notwasm/intern.rs:70-76 | the bytes added bring the entry to a multiple of four |
| Interning.EntryDecodes | libjankscripten/src/notwasm/intern.rs:50-82 | wherever an entry lies, tag, length and bytes decode to its string |
| Interning.InternVisitor.InternString | libjankscripten/src/notwasm/intern.rs:50-82 | an unknown string is appended and recorded, a known one changes nothing |
| Interning.InternVisitor.DataCache | libjankscripten/src/notwasm/translation.rs:1242-1250 | one cache cell appended, which read as a signed number is minus one |
| Interning.LayOut | libjankscripten/src/notwasm/intern.rs:19-25 | all literals and then the cells: the offsets and the segment, every cell minus one |
| Interning.LiteralsAreSound | libjankscripten/src/notwasm/intern.rs:50-82 | every recorded offset is aligned and decodes to its string, offsets are equal if and only if the strings are, and different entries do not overlap |
| Interning.CacheCellIsSound | libjankscripten/src/notwasm/translation.rs:1242-1250 | every cache cell is aligned, in the segment, and read as a signed number minus one |
| Interning.FreshCacheScans | libjankscripten/src/notwasm/translation.rs:1242-1250 | so the first lookup through it answers what the class says |
| Interning.CachesTouchNoString | libjankscripten/src/notwasm/translation.rs:1242-1250 | no cache cell overlaps a string |

## Left out

- LoopsPreserveMeaning: one direction only for a single program; it may end alike although a round is not kept, when what it then does makes up for it. `SkippedRoundIff` has the exact condition for a round, `ContinuedTestsExactly` for a test over all programs, `LoopsKeepMeaning` what the code does on all programs.
- PreservesMeaning: as LoopsPreserveMeaning.
- AtomRuns: of the atoms only literals, `undefined`, names and primitive applications; conversions, operators, field reads and entries of environments count as primitive applications.
- FreeVarsExact: a catch clause and for..in bind names in `fv.rs` and are not among the constructs; the next stage compiles for..in not at all and of a catch clause only the `try` (`notwasm/from_jankyscript.rs:543-557`).
- LiftVarsLifts: the variable of a for..in, which is declared in front of its loop; and that a program and its lifted form run alike, which for parameters is false.
- ClosuresKeepMeaning: a variable used or captured before its declaration, or declared again after a function has captured it, ends the comparison; `TimelyKeepMeaning` is for the programs in which that cannot happen.
- TimelyKeepMeaning: the program assigns no name of the runtime; the analysis is sufficient, not necessary.
- Insert: field names are interned strings; names allocated at run time, which the class table does not keep alive, are not modelled.
- Get: needs an acyclic chain; on a cyclic one the original does not end.
- Heap: raw memory layout, bit packing and alignment of addresses; an address is a number, a block a value, and the system allocator's answer a parameter.
- Heap: hash tables, `Ref` of a float (kept under a pointer tag) and null environments.
- Heap: values that are only in WebAssembly locals or on the operand stack; the theorems are about shadow slots and the heap, and about blocks allocated since the last collection.
- Control flow: for..in, try/catch/finally, and functions inside expressions (an expression is what it does). InsertReturns has catch and finally.
- Switches whose default clause is not last: the syntax tree has lost its position.
- NotWasm: globals, making closures, method dispatch, the cached field instructions and block result types; all operations but reading a name and calling a function are opaque runtime calls, and numbers are opaque.
- NotWasm: the runtime's answers do not depend on the shadow frames.  A return leaves the frame before it evaluates its atom (`translation.rs:571-577`), on the promise that atoms never collect (`notwasm/syntax.rs:252-255`); an atom that breaks it is not noticed.
- NotWasm: a call of a function that has no result, or that falls off its end, would not validate and traps.
- ProgramCorrect: a function declares each name once, parameters included; a second declaration would be a variable of its own. It may have the name of a function, which the name then means from there on.
- NotWasm: how a word holds an address is a parameter (`Words`): the theorems hold however closures and values of any type are packed.
- NotWasm: a declaration without a value keeps what the local held, as the code has it.
- NewMeans: floats are real numbers without rounding, infinities and NaN; the code to wrap a function is still to be written in the original (`notwasm/from_jankyscript.rs:226`), so what a function coercion does is what its type and its documentation say.
- NewCallMeans: as NewMeans; of a function only its number of arguments can be told.
- Closures: types, except whether a declaration's type is Any.
- Closures: functions that list a parameter twice.
- Interning: segments of 2^32 bytes or more.
- Type inference, parsing, pretty printing, A-normalisation, `elim_gotos`, the command line and module assembly are not part of this model.
