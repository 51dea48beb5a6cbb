# Proofs about neo-armcpu's kernel, compiler and flow solver

The repository builds a small MIPS computer and what runs on it: a kernel (ucore), a compiler
for the Decaf language, and slides made with a colour quantizer around a flow solver. Its algorithms are modelled here,
one module or a few for each, and the laws they depend on are proved for all inputs and all runs.
`dafny verify dfyconfig.toml` checks everything.

| part | modules |
|---|---|
| maximum flow (Dinic) | `FlowNetwork` is the theory of flows and cuts; `LevelGraph` the breadth-first search; `ResidualArcs` the arcs in pairs; `Phases` why each phase progresses; `Dinic` the class |
| red-black tree | `RbShapes` trees and contexts; `RbMemory` trees in memory and rotations; `RbInsertion`, `RbDeletion`, `RbSearching` what each step keeps; `RbTrees` (RbTree.dfy) the class |
| Decaf to three-address code | `Tac`, `TacRuns` the code and its runs; `DecafTree` the language and its meaning; `DecafTranslation` the code of a tree; `DecafOperations`, `DecafExpressions`, `DecafSimulation`, `DecafStatements`, `DecafControl`, `DecafMarks`, `DecafCorrectness` that the code does what the tree means; `DecafLaws`, `DecafPrograms` laws of the meaning and what some programs return; `DecafTranslater` and `DecafTransPass2` the visitors that emit it |
| basic blocks | `BasicBlocks` cutting code into blocks; `Simplification` leaving blocks out; `DecafJumps`, `DecafLoops`, `MiddleEnd` from a function to its flow graph; `DecafEntry`, `SimpleGraphs` where the simplified flow graph starts and what it does |
| liveness | `Liveness` the equations and what they are good for; `LivePaths` what instructions use and which paths make a temp live; `FlowGraph` the classes that solve them |
| page allocator | `Binary` indices in binary; `Buddies` free blocks; `BuddyPmm` the class |
| slab allocator | `SlabLayout` the state; `SlabCaches` sizes; `SlabSteps` what each step keeps; `Kmalloc` the class, on top of the page allocator |
| file system | `Bitmaps` the free map; `SfsLayout` how files lie on the disk; `SfsMarks` changes that have to be written; `SfsFiles` the class; `SfsContents` files as arrays of bytes |
| virtual memory areas | `VirtualMemory` |
| timers, process numbers | `TimerList`, `ProcessIds` |
| scheduler and semaphores | `Scheduling` the steps and all runs; `SchedulingRuns` what runs come to; `Kernel` the class |
| shared | `Lists` lists without duplicates, and an optional value |
| decimal numbers | `Decimal` dividing by 10 and 5 with shifts; `DecimalText` printing and reading |

## Main results

- Flow: `CalcMaxflow` ends on every network and its result is the value of a maximum flow; `GetMinimalCutMap` is a
  minimum cut. No phase is empty (`PhaseProgresses`), although vertices are marked dead and arcs are skipped, and
  every phase moves the sink further away (`PhaseLengthens`).
- Red-black tree: insertion, deletion (the successor node moves, keys are not copied), search and iteration on nodes
  in memory keep links, order and balance; the height is logarithmic.
- Compiler: a function's code ends exactly as its body does, and runs on exactly if the body does, for every statement
  and expression of the language, run-time errors included (`FunctionPreserved`, `FunctionReflected`). Nothing is
  promised where the arithmetic cannot represent an array, or tables of classes have no end. What bodies mean obeys
  the laws of arithmetic, arrays, fields, calls, classes and loops (`FormulaMeans`, `ArrayCreated`, `ElementAssigned`,
  `ClassesDescend`, `ForIsWhile`), and so compiled loops compute what they should (`SumCompiled`).
- Basic blocks: the flow graph of a function ends exactly as its body does (`GraphPreserves`, `GraphReflects`). The
  simplified one starts with the first block that stays (`SimplifyStarts`). For every function it ends exactly as the
  body `UpdateFirst(body)` does (`SimplePreserves`, `SimpleReflects`), which is the body itself exactly if the entry
  is kept (`EntryKeptIff`, `OthersStay`). Empty blocks never lead in a circle (`GraphAcyclic`).
- Liveness: the loop ends with the least solution of its equations, and two runs that agree on what is live cannot be
  told apart (`LivenessSound`). A temp is live exactly if there is a path to a use of it (`LiveIffPath`), and
  instructions use exactly the temps that decide what they do (`UsesAreLeast`). The solution is exact under one
  condition on the blocks that return (`ExactIff`).
- Buddies: the free pages alone determine the free blocks (`SamePagesSameBlocks`), so freeing what was allocated
  restores them; any run of pages can be freed at any alignment.
- Slabs: a request is served exactly if an object is free or the pages for a slab can be had (`Kmalloc`); blocks
  handed out never overlap each other or the control data (`Granted`); when all are given back the page allocator is
  exactly as it was (`NothingLost`).
- File system: over every run of writes and changes of length each file is a flat array of bytes (`RunIsFlat`), also
  where a call stops for lack of blocks, with one condition on cuts that leave bytes behind; inodes that differ from
  the disk are marked, with one exception; a call succeeds exactly if enough blocks are free; every block has one
  owner.
- Scheduler: in every run, with kills and interrupts anywhere, permits are conserved (`PermitsAdd`) and handed out in
  order (`GetsPermit`), time slices run out on time (`GivesWay`), no wakeup is lost, and no assertion fails
  (`EveryRun`, `GrantStays`, `GetsToRun`).
- Virtual memory: areas never overlap, the cache changes no answer, and `user_mem_check` of a range is its check of
  each address, although it looks at the guard page of a stack only where the range enters the area
  (`RangeIsAddresses`).
- Timers expire on the tick that was asked for; a new process number is the first free one behind the last; every
  32-bit number is printed right in bases 8, 10 and 16.

## How the code is modelled

- What the code updates in place is a class with the same fields. Lists, dictionaries and tables are fields of type
  `seq` and `map`; pointers are addresses or indices. Methods that would be too long for one proof are split along
  their branches and loops; the parts are methods of the same class.
- The tree in memory is a map from addresses to nodes. The macros that generate the mirror images of an operation are
  one method with a direction.
- Meanings of Decaf are given over a parameter `Machine<W>`, which says what loads, stores, allocations, calls and
  printing do to a world `W`; the proofs hold for all of them. A run that does not end is one that still runs after
  any number of rounds.
- Time, interrupts, kills and the choice of the next step are parameters of the steps, so results about runs cover
  every order of them. A step of the kernel between two places where interrupts are enabled is one step of the model.
- A failed assertion or a panic of the code is a result (`Panicked`, `Panic`, `false`) where a caller can cause it,
  and the contracts say exactly when; elsewhere it is proved not to fail.
- Words of 32 bits are numbers with their wrap-around written out where the code can reach it.

## Where the code does not do what one would expect

- `printnum` knows how to divide by 8, 10 and 16 only; for any other base from 2 to 16 it prints some number wrong
  (`PrintsNumeralsExactlyFor`).
- `_ReadInteger` has no sign: a number printed by `PrintInt` is read back exactly if it is not negative, or is
  -2115098112 (`RoundTrip`).
- The flow graph gives a block that returns the edges of a new block, both to block 0, so liveness can keep more than
  needed. It is still sound, and exact if and only if every temp that matters at the entry is touched by every block
  that returns (`ExactIff`, `ReturnsKeepTooMuch`).
- `FlowGraph.simplify` cancels the entry if it is an empty block, and the first block left becomes the entry. This is
  the block that the entry leads to exactly unless the first statement of the function that emits code is a for
  statement whose initialisation emits none and whose update emits some (`EntryKeptIff`). Then the simplified graph
  does the update once before the condition is tested for the first time (`SimplePreserves`), which for some updates
  makes no difference; for `for (; b; f(x)) ;` it is a call too many (`EntryLost`).
- `sfs_bmap_load_nolock` counts a block that goes into an index block without marking the inode. Transfers inside the
  blocks of a file and length changes that are done mark it all the same. A length change that stops for lack of
  blocks leaves the blocks it got unmarked exactly if the file has an index block for them (`Truncfile`,
  `StoppedUnmarked`), and so does a transfer in a file whose size is larger than its blocks (`IoNolock`).
- `mm_map` does not notice when the range goes past the last address: what it maps then does not hold the range
  (`PagesHold`, `PagesWrap`).
- `buddy_free_pages` fails its assertion for runs that reach 2^11 pages past the next multiple of 2^11; the contract
  of `FreePages` says so exactly.
- `sfs_io_nolock` raises the size to the start of a write even where nothing was written for lack of blocks. If the
  start lies inside a block that could not be had, the size is then larger than the blocks (`CoverLost`).
- `sfs_truncfile` does not clear the rest of the last block: what was cut off comes back (`CutComesBack`), and a file
  made longer has zeros there exactly if the bytes cut off in that block were zeros (`CutLeavesZeros`). When it runs
  out of blocks it keeps those it got without changing the size or the contents (`StoppedLeaves`); setting the size
  that the file has then fails the assertion exactly if it got any block (`TruncfileAgain`).

## Model

| member | source | states |
|---|---|---|
| `FlowNetwork.FlowAtMostCut` | slides/tc256/src/network_flow.cc:79-91 | Weak duality: no legal flow is worth more than any cut between source and sink. |
| `FlowNetwork.SaturatedCutIsOptimal` | slides/tc256/src/network_flow.cc:79-91 | A flow that fills a cut forwards and leaves it empty backwards is a maximum flow, the cut is a minimum cut, and their sizes agree. |
| `FlowNetwork.NetOutOfConservedSet` | slides/tc256/src/network_flow.cc:50-76 | A set of vertices that contains the source and not the sink sends out exactly what the source sends out. |
| `FlowNetwork.ShiftOnEdge` | slides/tc256/src/network_flow.cc:50-76 | More flow on one edge shifts the balance of its two ends and of no other vertex. |
| `LevelGraph.LevelBound` | slides/tc256/src/network_flow.cc:25-48 | A label of the search is smaller than the number of vertices, because every smaller label is in use. |
| `LevelGraph.Discover` | slides/tc256/src/network_flow.cc:31-44 | Labelling a new vertex keeps what the breadth-first search knows: reached vertices have a parent one level lower, and labels in the queue do not fall. |
| `LevelGraph.NotFoundIsClosed` | slides/tc256/src/network_flow.cc:25-48 | A search that ends without the sink has labelled everything residual arcs lead to. |
| `LevelGraph.FoundIsTight` | slides/tc256/src/network_flow.cc:38-40 | When the sink is found, every residual arc climbs at most one level and the sink is alone above its level. |
| `ResidualArcs.PairIndex` | slides/tc256/src/network_flow.cc:20-23 | `i ^ 1` pairs the two arcs of an edge: an involution without fixed points. |
| `ResidualArcs.PairIsXor` | slides/tc256/src/network_flow.cc:65-65 | The pair of an arc by parity is its number with the lowest bit flipped. |
| `ResidualArcs.PushKeepsCapacities` | slides/tc256/src/network_flow.cc:67-70 | Moving flow along an arc keeps both remaining capacities of the edge non-negative and their sum equal to its capacity. |
| `ResidualArcs.PushShiftsFlow` | slides/tc256/src/network_flow.cc:67-70 | It shifts flow on that edge from the start of the arc to its end. |
| `ResidualArcs.FlowWithinCapacity` | slides/tc256/src/network_flow.cc:20-23 | The flow that the remaining capacities stand for is within the capacities. |
| `ResidualArcs.ClosedCutIsSaturated` | slides/tc256/src/network_flow.cc:87-91 | A set of vertices closed under residual arcs is a cut full forwards and empty backwards. |
| `ResidualArcs.AppendKeepsShape` | slides/tc256/src/network_flow.cc:20-23 | A new arc at the front of its vertex’s list keeps all arc lists well linked. |
| `ResidualArcs.EdgeKeepsPairs` | slides/tc256/src/network_flow.cc:93-104 | A new edge keeps arcs paired and adds no flow. |
| `Phases.WalkSkip` | slides/tc256/src/network_flow.cc:60-74 | Skipping an arc that leads to no deeper useful vertex loses nothing. |
| `Phases.WalkEnd` | slides/tc256/src/network_flow.cc:73-75 | A vertex is marked only when no layered residual path from it reaches the sink. |
| `Phases.PhaseProgresses` | slides/tc256/src/network_flow.cc:50-85 | Every phase progresses: after a search that found the sink the depth-first search returns more than 0, although vertices are marked and arcs skipped. |
| `Phases.PhaseLengthens` | slides/tc256/src/network_flow.cc:79-85 | The next search labels the sink strictly higher: phases make paths longer. |
| `Dinic.NetworkFlow.constructor` | slides/tc256/src/network_flow.cc:13-18 | An empty network with zero flow. |
| `Dinic.NetworkFlow.DoAddArc` | slides/tc256/src/network_flow.cc:20-23 | The arc becomes the first of its vertex’s list; all other lists stay. |
| `Dinic.NetworkFlow.AddArc` | slides/tc256/src/network_flow.cc:93-104 | Adds one edge of the given capacity without flow; a capacity of 0 is ignored, and a legal flow stays legal. |
| `Dinic.NetworkFlow.DinicBfs` | slides/tc256/src/network_flow.cc:25-48 | True with exact breadth-first labels up to the sink, or false with the reachable vertices labelled; the capacities stay. |
| `Dinic.NetworkFlow.ScanArcs` | slides/tc256/src/network_flow.cc:33-44 | The inner loop: every residual arc of a vertex is looked at. |
| `Dinic.NetworkFlow.DinicDfs` | slides/tc256/src/network_flow.cc:50-76 | Returns an amount between 0 and what was asked for, and moves exactly that amount of flow from the vertex to the sink along rising levels. |
| `Dinic.NetworkFlow.WalkArcs` | slides/tc256/src/network_flow.cc:55-74 | The loop over the arcs of a vertex from its current arc. |
| `Dinic.NetworkFlow.PushThrough` | slides/tc256/src/network_flow.cc:62-71 | One arc: what the recursion delivers is moved on the arc and its pair. |
| `Dinic.NetworkFlow.RunPhase` | slides/tc256/src/network_flow.cc:79-85 | One phase raises the value of the flow by what it returns, which is more than 0. |
| `Dinic.NetworkFlow.FurtherAway` | slides/tc256/src/network_flow.cc:79-85 | Two searches with a phase between them: the sink gets further away. |
| `Dinic.NetworkFlow.SearchedIsOptimal` | slides/tc256/src/network_flow.cc:79-91 | Where the last search failed, the flow is maximum and the labelled vertices are a minimum cut. |
| `Dinic.NetworkFlow.CalcMaxflow` | slides/tc256/src/network_flow.cc:79-85 | Terminates on every network; the returned sum is the value added, the flow is legal and maximum, and with small capacities there are fewer phases than vertices. |
| `Dinic.NetworkFlow.GetMinimalCutMap` | slides/tc256/src/network_flow.cc:87-91 | 0 marks the source side and 1 the sink side of a minimum cut, whose capacity is the value of the flow. |
| `RbShapes.HeightLogarithmic` | ucore/kern/libs/rb_tree.c:379-404 | A red-black tree with n nodes is at most 2*log2(n+1) high. |
| `RbShapes.HeightFromBlackHeight` | ucore/kern/libs/rb_tree.c:379-404 | No path is longer than twice the black height. |
| `RbShapes.SizeFromBlackHeight` | ucore/kern/libs/rb_tree.c:379-404 | A tree of black height h has at least 2^h - 1 nodes. |
| `RbShapes.PlugInorder` | ucore/kern/libs/rb_tree.c:78-97 | Replacing a subtree replaces its stretch of the in-order sequence. |
| `RbMemory.RotatedKeepsOrder` | ucore/kern/libs/rb_tree.c:78-97 | A rotation keeps the in-order sequence. |
| `RbMemory.RotatedRep` | ucore/kern/libs/rb_tree.c:78-97 | The pointers after a rotation represent the rotated tree. |
| `RbMemory.RotateFocus` | ucore/kern/libs/rb_tree.c:78-97 | A rotation anywhere in the tree leaves the rest of it in memory as it was. |
| `RbInsertion.PushedUpClimbs` | ucore/kern/libs/rb_tree.c:139-148 | Recolouring with a red uncle moves the only possible red-red edge two levels up. |
| `RbInsertion.TurnedOverIsDone` | ucore/kern/libs/rb_tree.c:149-167 | A rotation below a black uncle leaves a red-black tree. |
| `RbInsertion.InsertedIsSorted` | ucore/kern/libs/rb_tree.c:112-129 | The in-order sequence stays sorted when the new node comes after all equal keys. |
| `RbDeletion.SiblingUpLacks` | ucore/kern/libs/rb_tree.c:252-262 | A black sibling with black children is painted red and the lack of a black node moves up. |
| `RbDeletion.SiblingRedLacks` | ucore/kern/libs/rb_tree.c:252-257 | A red sibling is rotated away first; the lack stays below. |
| `RbDeletion.FarTurnedIsDone` | ucore/kern/libs/rb_tree.c:263-276 | A rotation with a red far nephew repairs the black heights. |
| `RbDeletion.RemovedIsSorted` | ucore/kern/libs/rb_tree.c:295-327 | Without the node the sequence is still sorted. |
| `RbDeletion.SuccessorOrder` | ucore/kern/libs/rb_tree.c:295-327 | Moving the successor into the place of the node keeps the order of all others. |
| `RbSearching.SearchStep` | ucore/kern/libs/rb_tree.c:232-239 | A step of the search leaves out only nodes that cannot match. |
| `RbSearching.SearchEnds` | ucore/kern/libs/rb_tree.c:232-239 | A search that ends at nil has left out every node. |
| `RbTrees.RbTree.constructor` | ucore/kern/libs/rb_tree.c:29-64 | An empty tree with its two sentinels. |
| `RbTrees.RbTree.Rotate` | ucore/kern/libs/rb_tree.c:78-97 | Both rotations, as one method with a direction: the tree in memory is the rotated tree, nodes outside it are untouched. |
| `RbTrees.RbTree.InsertBinary` | ucore/kern/libs/rb_tree.c:112-129 | The node is linked as a red leaf after all keys that are not larger. |
| `RbTrees.RbTree.InsertSub` | ucore/kern/libs/rb_tree.c:99-110 | Both mirror images of a step of the climb: recolour and go up, or rotate and stop. |
| `RbTrees.RbTree.Climb` | ucore/kern/libs/rb_tree.c:136-169 | The climb terminates and leaves at most the red-black tree with a red root. |
| `RbTrees.RbTree.RbInsert` | ucore/kern/libs/rb_tree.c:132-171 | The node is in the tree after all equal keys, the order of the others is kept, and the tree is a valid red-black tree. |
| `RbTrees.RbTree.RbTreeSuccessor` | ucore/kern/libs/rb_tree.c:178-198 | The next node of the in-order sequence, or nil at its end. |
| `RbTrees.RbTree.RbNodeNext` | ucore/kern/libs/rb_tree.c:352-355 | Steps through the sorted order. |
| `RbTrees.RbTree.RbSearch` | ucore/kern/libs/rb_tree.c:232-239 | Returns a node that compares equal if and only if there is one. |
| `RbTrees.RbTree.FixupSub` | ucore/kern/libs/rb_tree.c:246-288 | A round of the repair after a deletion, for both mirror images. |
| `RbTrees.RbTree.RbDeleteFixup` | ucore/kern/libs/rb_tree.c:246-288 | The repair terminates with a valid red-black tree of the same sequence, also where the child is nil and where the root is rotated away. |
| `RbTrees.RbTree.RbDelete` | ucore/kern/libs/rb_tree.c:294-327 | Exactly the given node is gone; the sequence of all others, the parent links, colours and black heights are right. |
| `RbTrees.RbTree.DeleteHere` | ucore/kern/libs/rb_tree.c:295-327 | A node with at most one child is spliced out. |
| `RbTrees.RbTree.DeleteThroughSuccessor` | ucore/kern/libs/rb_tree.c:308-327 | A node with two children: its successor is spliced out and takes its place, pointers and colour. |
| `DecafTree.InBoundsMeans` | decaf/src/decaf/translate/Translater.java:347-361 | The emitted bounds test passes exactly the indices from 0 to the length. |
| `DecafLaws.FormulaMeans` | decaf/src/decaf/translate/TransPass2.java:62-179 | Formulas over variables and literals have the value that arithmetic gives them, on every machine that calculates. |
| `DecafLaws.ArrayCreated` | decaf/src/decaf/translate/Translater.java:374-393 | On every machine that remembers: a new array asks for room for its elements and one word more, writes nothing outside it, has the length asked for, and holds zeros. |
| `DecafLaws.ElementRead` | decaf/src/decaf/translate/TransPass2.java:234-243 | Exactly the indices from 0 to the length less one read an element. |
| `DecafLaws.ElementAssigned` | decaf/src/decaf/translate/TransPass2.java:125-147 | An element that is assigned is read back; the other elements and the length stay. |
| `DecafLaws.NoElement` | decaf/src/decaf/translate/TransPass2.java:125-147 | Where there is no such element the program ends before the right side is evaluated. |
| `DecafLaws.AddressesFit` | decaf/src/decaf/translate/Translater.java:347-361 | Addresses of elements come out right wherever arithmetic is exact on 31 bits, below the 2 GB line. |
| `DecafLaws.FieldAssigned` | decaf/src/decaf/translate/TransPass2.java:125-147 | A field that is assigned is read back; everything at other addresses stays. |
| `DecafLaws.CallSees` | decaf/src/decaf/translate/TransPass2.java:267-298 | A function is called with the values of its arguments in order. |
| `DecafLaws.InvokeSees` | decaf/src/decaf/translate/TransPass2.java:267-298 | A method sees its receiver first, and is found in the table that the receiver names. |
| `DecafLaws.CallVoidSees` | decaf/src/decaf/translate/TransPass2.java:267-298 | The same for a call without a result, which leaves the variables alone. |
| `DecafLaws.InvokeVoidSees` | decaf/src/decaf/translate/TransPass2.java:267-298 | The same for a method without a result. |
| `DecafLaws.StringEqSees` | decaf/src/decaf/translate/TransPass2.java:106-123 | Strings are compared left before right. |
| `DecafLaws.PrintSees` | decaf/src/decaf/translate/TransPass2.java:219-231 | What is printed is the value. |
| `DecafLaws.ClassesDescend` | decaf/src/decaf/translate/Translater.java:431-446 | instanceof tells whether the class is that of the object or above it, and a cast goes through exactly then. |
| `DecafLaws.ForIsWhile` | decaf/src/decaf/translate/TransPass2.java:300-323 | A for statement is its initialisation and a loop whose body ends with the update, breaks included. |
| `DecafLaws.MoreFuel` | decaf/src/decaf/translate/TransPass2.java:34-389 | The number of rounds that a meaning is given changes nothing once it ends. |
| `DecafPrograms.SumCompiled` | decaf/src/decaf/translate/TransPass2.java:34-389 | The code of a function with a for statement that adds the numbers below n returns n(n - 1)/2. |
| `DecafPrograms.CountCompiled` | decaf/src/decaf/translate/TransPass2.java:34-389 | The code of a function that counts up to n in an endless loop with a break returns n. |
| `DecafPrograms.LengthCompiled` | decaf/src/decaf/translate/TransPass2.java:268-271 | The code of `return (new int[n]).length();` returns n. |
| `DecafTree.ArraysBelowFit` | decaf/src/decaf/translate/Translater.java:374-393 | Arithmetic that is exact on 31 bits represents every array below the 2 GB line. |
| `DecafExpressions.ChecksIndex` | decaf/src/decaf/translate/Translater.java:347-361 | The check goes on for an index in bounds, and otherwise prints its message and halts. |
| `DecafExpressions.ChecksSize` | decaf/src/decaf/translate/Translater.java:363-372 | A negative size prints its message and halts; any other goes on. |
| `DecafExpressions.Clears` | decaf/src/decaf/translate/Translater.java:381-392 | The loop clears exactly the elements, from the last to the first, and leaves with the address of the first. |
| `DecafSimulation.CreatesArray` | decaf/src/decaf/translate/Translater.java:374-393 | An array creation allocates, stores the length, clears the elements and yields the address behind the length. |
| `DecafOperations.CodeShape` | decaf/src/decaf/translate/TransPass2.java:62-389 | The code of every expression is the code of its operands from left to right and then its own. |
| `DecafOperations.MeaningShape` | decaf/src/decaf/translate/TransPass2.java:62-389 | So is its meaning: operands from left to right, then the operation. |
| `DecafOperations.ExprTakes` | decaf/src/decaf/translate/TransPass2.java:62-389 | Fresh temps and labels: the counters move by what the tree takes, whatever came before. |
| `DecafSimulation.SimOwn` | decaf/src/decaf/translate/TransPass2.java:62-389 | Every single operation computes its value from those of its operands and clobbers only its own temps. |
| `DecafSimulation.SimExpr` | decaf/src/decaf/translate/TransPass2.java:62-389 | Running the code of an expression gives the value, the effects or the failure that the source semantics gives, and changes nothing but fresh temps. |
| `DecafStatements.SimAssignField` | decaf/src/decaf/translate/TransPass2.java:125-148 | An assignment to a member: the owner is evaluated before the right side, and the store goes to the owner. |
| `DecafStatements.SimAssignElement` | decaf/src/decaf/translate/TransPass2.java:125-148 | An assignment to an element: array, index and bounds check come before the right side, the store goes to the element. |
| `DecafStatements.StmtTakes` | decaf/src/decaf/translate/TransPass2.java:30-389 | The counters of the translator after a statement. |
| `DecafControl.SimWhile` | decaf/src/decaf/translate/TransPass2.java:359-373 | A while loop: rounds, breaks to its exit label, returns from inside, and running on when the source runs on. |
| `DecafControl.SimFor` | decaf/src/decaf/translate/TransPass2.java:300-323 | A for loop: initialisation, condition, body, update in this order. |
| `DecafControl.SimIfElse` | decaf/src/decaf/translate/TransPass2.java:325-337 | Exactly one branch is run. |
| `DecafControl.SimStmt` | decaf/src/decaf/translate/TransPass2.java:30-389 | For every statement the code ends behind it, at the exit label of the enclosing loop on a break, or with the return or failure of the source, in a state that matches. |
| `DecafMarks.StmtMarks` | decaf/src/decaf/translate/TransPass2.java:300-373 | No label is marked twice, so every jump has one target. |
| `DecafCorrectness.AllotGrows` | decaf/src/decaf/translate/TransPass2.java:53-59 | Variables get new temps where they are declared. |
| `DecafCorrectness.AllotLays` | decaf/src/decaf/translate/TransPass2.java:53-59 | The temps of variables are apart from the temps of every expression, declared before or after. |
| `DecafCorrectness.AllotDistinct` | decaf/src/decaf/translate/TransPass2.java:53-59 | Different variables have different temps. |
| `DecafCorrectness.FunctionPreserved` | decaf/src/decaf/translate/TransPass2.java:34-44 | A function’s code ends as its body does in the source, and runs on as long as its body does, for any number of rounds. |
| `DecafCorrectness.FunctionReflected` | decaf/src/decaf/translate/TransPass2.java:34-44 | Conversely, when the code ends, the source ends in the same way. |
| `DecafSimulation.TestsClass` | decaf/src/decaf/translate/TransPass2.java:375-379 | The loop up the tables ends with the answer whether the object is of the class or one below, if the tables come to an end. |
| `DecafSimulation.CastsClass` | decaf/src/decaf/translate/TransPass2.java:382-388 | A cast goes on with an object of the class; any other ends the program with both names. |
| `DecafExpressions.Climbs` | decaf/src/decaf/translate/Translater.java:431-446 | The loop climbs from table to parent as long as the search does. |
| `DecafTranslater.Translater.Append` | decaf/src/decaf/translate/Translater.java:154-162 | The instruction is the last of the current function. |
| `DecafTranslater.Translater.GenBinary` | decaf/src/decaf/translate/Translater.java:164-252 | genAdd to genLes: one instruction into a fresh temp. |
| `DecafTranslater.Translater.GenUnary` | decaf/src/decaf/translate/Translater.java:194-216 | genNeg and genLNot. |
| `DecafTranslater.Translater.GenLoad` | decaf/src/decaf/translate/Translater.java:313-317 | One load into a fresh temp. |
| `DecafTranslater.Translater.GenDirectCall` | decaf/src/decaf/translate/Translater.java:275-295 | A call has a destination unless its type is void. |
| `DecafTranslater.Translater.GenIndirectCall` | decaf/src/decaf/translate/Translater.java:264-273 | The same for a call through a table. |
| `DecafTranslater.Translater.GenCheckArrayIndex` | decaf/src/decaf/translate/Translater.java:347-361 | Emits the check that `ChecksIndex` is about, with five temps and two labels. |
| `DecafTranslater.Translater.GenCheckNewArraySize` | decaf/src/decaf/translate/Translater.java:363-372 | Emits the check that `ChecksSize` is about. |
| `DecafTranslater.Translater.GenNewArray` | decaf/src/decaf/translate/Translater.java:374-393 | Emits what `CreatesArray` is about and names the temp of the address. |
| `DecafTranslater.Translater.GenLoadVTable` | decaf/src/decaf/translate/Translater.java:258-262 | One load of a table into a fresh temp. |
| `DecafTranslater.Translater.GenInstanceof` | decaf/src/decaf/translate/Translater.java:431-446 | Emits what `TestsClass` is about. |
| `DecafTranslater.Translater.GenClassCast` | decaf/src/decaf/translate/Translater.java:447-475 | Emits what `CastsClass` is about. |
| `DecafTranslater.Translater.GenParms` | decaf/src/decaf/translate/Translater.java:343-345 | One parameter instruction for each argument, in order. |
| `DecafTransPass2.TransPass2.VisitBinary` | decaf/src/decaf/translate/TransPass2.java:62-104 | Emits the code of both operands and of the operation. |
| `DecafTransPass2.TransPass2.GenEquNeq` | decaf/src/decaf/translate/TransPass2.java:106-123 | Strings are compared by the runtime, and negated for !=. |
| `DecafTransPass2.TransPass2.VisitUnary` | decaf/src/decaf/translate/TransPass2.java:169-178 | Emits the operand and the operation. |
| `DecafTransPass2.TransPass2.VisitLiteral` | decaf/src/decaf/translate/TransPass2.java:150-183 | One instruction for a constant, null included. |
| `DecafTransPass2.TransPass2.VisitMember` | decaf/src/decaf/translate/TransPass2.java:246-259 | Emits the owner and the load, and remembers the owner. |
| `DecafTransPass2.TransPass2.VisitIndexed` | decaf/src/decaf/translate/TransPass2.java:234-243 | Emits array, index, check, address and load, and remembers both operands. |
| `DecafTransPass2.TransPass2.VisitNewArray` | decaf/src/decaf/translate/TransPass2.java:347-350 | Emits length and creation. |
| `DecafTransPass2.TransPass2.VisitTypeTest` | decaf/src/decaf/translate/TransPass2.java:375-379 | Emits the operand and the test. |
| `DecafTransPass2.TransPass2.VisitTypeCast` | decaf/src/decaf/translate/TransPass2.java:382-388 | Emits the operand, and the check unless its type is compatible; the value stays where it is. |
| `DecafTransPass2.TransPass2.VisitActuals` | decaf/src/decaf/translate/TransPass2.java:274-276 | The loop over the arguments emits their code in order. |
| `DecafTransPass2.TransPass2.VisitStaticCall` | decaf/src/decaf/translate/TransPass2.java:267-289 | Arguments, parameters, call. |
| `DecafTransPass2.TransPass2.VisitVirtualCall` | decaf/src/decaf/translate/TransPass2.java:267-297 | Receiver, arguments, parameters with the receiver first, table, call. |
| `DecafTransPass2.TransPass2.VisitExpr` | decaf/src/decaf/translate/TransPass2.java:62-389 | For every expression exactly the code that `SimExpr` is about is emitted. |
| `DecafTransPass2.TransPass2.VisitVarDef` | decaf/src/decaf/translate/TransPass2.java:53-59 | The variable gets the next temp; no code. |
| `DecafTransPass2.TransPass2.VisitAssignVar` | decaf/src/decaf/translate/TransPass2.java:125-148 | Assignment to a variable’s temp. |
| `DecafTransPass2.TransPass2.VisitAssignField` | decaf/src/decaf/translate/TransPass2.java:125-148 | Assignment to a member. |
| `DecafTransPass2.TransPass2.VisitAssignElement` | decaf/src/decaf/translate/TransPass2.java:125-148 | Assignment to an element. |
| `DecafTransPass2.TransPass2.VisitPrint` | decaf/src/decaf/translate/TransPass2.java:219-231 | The value is passed to the print intrinsic of its type. |
| `DecafTransPass2.TransPass2.VisitReturn` | decaf/src/decaf/translate/TransPass2.java:208-216 | A return with or without value. |
| `DecafTransPass2.TransPass2.VisitBreak` | decaf/src/decaf/translate/TransPass2.java:262-264 | A jump to the innermost exit label. |
| `DecafTransPass2.TransPass2.VisitIf` | decaf/src/decaf/translate/TransPass2.java:325-344 | One branch. |
| `DecafTransPass2.TransPass2.VisitIfElse` | decaf/src/decaf/translate/TransPass2.java:325-337 | Two branches. |
| `DecafTransPass2.TransPass2.VisitWhileLoop` | decaf/src/decaf/translate/TransPass2.java:359-373 | A while loop; the stack of exits is as before. |
| `DecafTransPass2.TransPass2.VisitForLoop` | decaf/src/decaf/translate/TransPass2.java:300-323 | A for loop; the stack of exits is as before. |
| `DecafTransPass2.TransPass2.VisitStmt` | decaf/src/decaf/translate/TransPass2.java:30-389 | For every statement exactly the code that `SimStmt` is about is emitted, and its variables have their temps. |
| `DecafTransPass2.TransPass2.VisitMethodDef` | decaf/src/decaf/translate/TransPass2.java:34-44 | The emitted function is the one of `FunctionPreserved`. |
| `TacRuns.TargetIs` | decaf/src/decaf/tac/Label.java:3-42 | A label that is marked once is found where it is marked. |
| `TacRuns.SameEnd` | decaf/src/decaf/translate/TransPass2.java:34-44 | A run of the code has one end at most. |
| `Liveness.TacsSound` | decaf/src/decaf/dataflow/BasicBlock.java:150-213 | Code that runs from two environments that agree on the temps live before it has the same effects and leaves them agreeing on the temps live behind it. |
| `Liveness.BlockSound` | decaf/src/decaf/dataflow/BasicBlock.java:62-148 | A block takes the same branch, returns the same value and has the same effects. |
| `Liveness.LivenessSound` | decaf/src/decaf/dataflow/BasicBlock.java:62-213 | On every run of the flow graph environments that agree on live temps cannot be told apart: parameters, stores, branches and results are the same. |
| `Liveness.TacLiveSound` | decaf/src/decaf/dataflow/BasicBlock.java:150-213 | The same from any instruction inside a block on. |
| `Liveness.SolvesSuffices` | decaf/src/decaf/dataflow/FlowGraph.java:172-191 | The compiler’s equations, in which a block that returns is followed by block 0, ask for no less than is needed. |
| `LivePaths.DefsAreWritten` | decaf/src/decaf/dataflow/BasicBlock.java:62-129 | The temps that an instruction defines are those it gives a value, on every machine. |
| `LivePaths.DefsCanChange` | decaf/src/decaf/dataflow/BasicBlock.java:62-129 | They are the temps whose value it can change, except where it assigns a temp to itself. |
| `LivePaths.UsesAreLeast` | decaf/src/decaf/dataflow/BasicBlock.java:62-129 | The temps that an instruction uses are the least set of temps whose values decide what it does to the world and to the temps it writes. |
| `LivePaths.LiveInMeans` | decaf/src/decaf/dataflow/BasicBlock.java:62-129 | A temp is live before a block exactly if the block uses it before writing it, or does not write it and it is live behind. |
| `LivePaths.LiveIffPath` | decaf/src/decaf/dataflow/FlowGraph.java:172-191 | In the least solution a temp is live before a block exactly if there is a path from the block to a use of its old value. |
| `LivePaths.ExactIffPath` | decaf/src/decaf/dataflow/FlowGraph.java:172-191 | In the exact solution, exactly if there is such a path that a run can take. |
| `Liveness.ExactIff` | decaf/src/decaf/dataflow/FlowGraph.java:172-191 | The least solution of the compiler’s equations is the exact one, the least set of temps that matter, if and only if every temp that matters at the entry is used or defined in every block that returns. |
| `Liveness.ExactWithoutInputs` | decaf/src/decaf/dataflow/FlowGraph.java:172-191 | So a function that needs nothing at its entry gets the exact solution. |
| `Liveness.NeededIsExact` | decaf/src/decaf/dataflow/FlowGraph.java:172-191 | There is an exact solution. |
| `Liveness.ExactAtReturn` | decaf/src/decaf/dataflow/FlowGraph.java:172-191 | In the exact solution only what a returning block needs itself is live before it. |
| `Liveness.ReturnsKeepTooMuch` | decaf/src/decaf/dataflow/FlowGraph.java:172-191 | For `if (b) return 1; else return 2;` the compiler’s solution is not exact: b is live in both branches. |
| `Liveness.StepKeeps` | decaf/src/decaf/dataflow/FlowGraph.java:177-189 | A step of the iteration stays below every solution, only grows, and if it changes nothing the block meets its equations. |
| `Liveness.LeastSolves` | decaf/src/decaf/dataflow/FlowGraph.java:172-191 | Where all blocks meet their equations the result is a solution. |
| `FlowGraph.SummaryStep` | decaf/src/decaf/dataflow/BasicBlock.java:63-137 | First uses and first definitions after one more instruction. |
| `FlowGraph.BasicBlock.Touch` | decaf/src/decaf/dataflow/BasicBlock.java:65-136 | One instruction: operands count as used unless defined before, the result as defined unless touched before; lastVisitedBB tells. |
| `FlowGraph.BasicBlock.ComputeDefAndLiveUse` | decaf/src/decaf/dataflow/BasicBlock.java:62-148 | def and liveUse are disjoint, cover what the block touches, and liveUse + (out - def) is what is live before the block, for any set out live behind it. |
| `FlowGraph.BasicBlock.AnalyzeLiveness` | decaf/src/decaf/dataflow/BasicBlock.java:150-213 | Behind every instruction exactly the temps are live that the rest of the block and its followers need. |
| `FlowGraph.FlowGraph.Propagate` | decaf/src/decaf/dataflow/FlowGraph.java:179-187 | The body of the loop: the sets of one block after it, and whether liveIn has grown. |
| `FlowGraph.FlowGraph.Round` | decaf/src/decaf/dataflow/FlowGraph.java:178-188 | A round keeps the invariant, and one without change has met all equations. |
| `FlowGraph.FlowGraph.AnalyzeLiveness` | decaf/src/decaf/dataflow/FlowGraph.java:172-191 | The iteration terminates with the least solution of the liveness equations. |
| `FlowGraph.FlowGraph.Analyze` | decaf/src/decaf/dataflow/FlowGraph.java:27-30 | The analysis of a finished graph: least solution, sound, known behind every instruction, and exact under the condition of `ExactIff`. |
| `BasicBlocks.KeptPreserves` | decaf/src/decaf/dataflow/FlowGraph.java:33-87 | Code, and what stays of it without memos and marks that nothing jumps to, come to the same end or to none. |
| `BasicBlocks.MarkBasicBlocks` | decaf/src/decaf/dataflow/FlowGraph.java:33-87 | What stays of the code, and the number of the block of every instruction. |
| `BasicBlocks.GatherBasicBlocks` | decaf/src/decaf/dataflow/FlowGraph.java:90-157 | The blocks in the order of their numbers, with their ends and followers. |
| `BasicBlocks.GatheredWellBuilt` | decaf/src/decaf/dataflow/FlowGraph.java:90-157 | They are a flow graph in which blocks that return keep the numbers 0. |
| `BasicBlocks.BlockRuns` | decaf/src/decaf/dataflow/FlowGraph.java:90-157 | The code gets through a block as the flow graph does, to its start, one of its first marks, its return or its halt. |
| `BasicBlocks.GatherPreserves` | decaf/src/decaf/dataflow/FlowGraph.java:90-157 | Where the flow graph ends the code ends in the same way, and as long as the flow graph runs the code runs. |
| `BasicBlocks.GatherReflects` | decaf/src/decaf/dataflow/FlowGraph.java:90-157 | Conversely, where the code ends the flow graph ends in the same way. |
| `Simplification.Simplify` | decaf/src/decaf/dataflow/FlowGraph.java:193-258 | The blocks that stay, led past empty blocks and with new numbers. |
| `Simplification.CountEdges` | decaf/src/decaf/dataflow/FlowGraph.java:193-204 | A degree is not 0 exactly for the entry and blocks that another leads to. |
| `Simplification.SimplifiedWellBuilt` | decaf/src/decaf/dataflow/FlowGraph.java:193-258 | What is left is a flow graph in which blocks that return keep the numbers 0. |
| `Simplification.SimplifyStarts` | decaf/src/decaf/dataflow/FlowGraph.java:193-258 | Whether the entry is kept or not: the graph that is left ends as the old one does from the first block that stays, or runs on as it does from there. |
| `Simplification.SimplifyPreserves` | decaf/src/decaf/dataflow/FlowGraph.java:193-258 | So if the entry is kept, and empty blocks do not lead in a circle, the graph that is left ends as the old one does, or runs on as it does. |
| `Simplification.SimplifiedIsTidy` | decaf/src/decaf/dataflow/FlowGraph.java:193-258 | What is left are exactly the blocks that are led to and do something, with their code; no conditional jump with one target only; and no block that only leads on but a test without code whose two ways have become one. |
| `Simplification.EntryStays` | decaf/src/decaf/dataflow/FlowGraph.java:193-258 | The entry is kept exactly if every block before the one that it leads to through empty blocks is cancelled, in particular if it is not empty itself. |
| `DecafJumps.AllSealed` | decaf/src/decaf/translate/TransPass2.java:34-389 | Every jump in the code of a statement goes to a label marked in it, or out of the enclosing loop on a break. |
| `DecafJumps.StmtRounded` | decaf/src/decaf/translate/TransPass2.java:34-389 | The code never ends with a conditional jump, or with a mark that nothing jumps to. |
| `MiddleEnd.FunctionJumpable` | decaf/src/decaf/translate/TransPass2.java:34-44 | So the code of every function can be cut into blocks. |
| `MiddleEnd.GraphPreserves` | decaf/src/decaf/translate/TransPass2.java:34-44 | The flow graph of a function ends as its body does. |
| `MiddleEnd.GraphReflects` | decaf/src/decaf/translate/TransPass2.java:34-44 | When the flow graph ends the body has ended in the same way. |
| `DecafLoops.AllWork` | decaf/src/decaf/translate/TransPass2.java:34-389 | Wherever the code of a statement jumps back, something other than a jump follows. |
| `MiddleEnd.GraphAcyclic` | decaf/src/decaf/dataflow/FlowGraph.java:193-240 | So empty blocks of a function never lead in a circle, and simplifying its graph ends. |
| `MiddleEnd.BlocksStart` | decaf/src/decaf/dataflow/FlowGraph.java:51-87 | Behind code that is no mark a block starts exactly behind a jump or a return, or at a label that some jump goes to. |
| `MiddleEnd.KeptHas` | decaf/src/decaf/dataflow/FlowGraph.java:33-87 | What stays of the code are all instructions but memos, and marks of labels that are no targets. |
| `MiddleEnd.GraphEnds` | decaf/src/decaf/translate/TransPass2.java:34-44 | Where the code of a function ends from any place at which a block is entered, its flow graph ends in the same way from that block. |
| `MiddleEnd.CodeEnds` | decaf/src/decaf/translate/TransPass2.java:34-44 | And conversely. |
| `DecafEntry.QuietCode` | decaf/src/decaf/translate/TransPass2.java:34-389 | The statements that emit no code: empty ones, declarations, and the evaluation of variables, also through casts that need no check. |
| `DecafEntry.QuietMeans` | decaf/src/decaf/translate/TransPass2.java:34-389 | They have nothing to do. |
| `DecafEntry.OthersProceed` | decaf/src/decaf/translate/TransPass2.java:34-389 | Every function whose first statement that emits code is not a for statement without such an initialisation starts with something other than a jump. |
| `DecafEntry.Opens` | decaf/src/decaf/translate/TransPass2.java:300-323 | All others start with the jump over the update. |
| `DecafEntry.OthersStay` | decaf/src/decaf/translate/TransPass2.java:300-323 | Doing the update of that for statement as its initialisation gives another function exactly if the update emits code and the initialisation none. |
| `DecafEntry.SimBehindJump` | decaf/src/decaf/translate/TransPass2.java:300-323 | From behind the jump the code does what the function would do with the update as initialisation, in the rest of the function too. |
| `DecafEntry.StartPreserved` | decaf/src/decaf/translate/TransPass2.java:300-323 | So the code without the jump ends as that function does, and runs on as long as it does. |
| `DecafEntry.StartReflected` | decaf/src/decaf/translate/TransPass2.java:300-323 | And when it ends, that function has ended in the same way. |
| `SimpleGraphs.OpeningIsBlocks` | decaf/src/decaf/dataflow/FlowGraph.java:90-157 | The blocks of a function that starts with the jump: the entry is the jump alone, the update starts block 1, and the condition is in block 1 exactly if there is no update. |
| `SimpleGraphs.SecondIsFirst` | decaf/src/decaf/dataflow/FlowGraph.java:193-258 | Then block 1 is the first that stays. |
| `SimpleGraphs.EntryKeptIff` | decaf/src/decaf/dataflow/FlowGraph.java:193-258 | The entry of a function is kept exactly unless the first statement that emits code is a for statement whose initialisation emits none and whose update emits some. |
| `SimpleGraphs.SimplePreserves` | decaf/src/decaf/dataflow/FlowGraph.java:193-258 | The simplified graph of every function ends as its body does, but with the update of that for statement, if there is one, done first. |
| `SimpleGraphs.SimpleReflects` | decaf/src/decaf/dataflow/FlowGraph.java:193-258 | And when it ends, that body has ended in the same way. |
| `SimpleGraphs.EntryLost` | decaf/src/decaf/dataflow/FlowGraph.java:193-258 | The function of `for (; b; f(x)) ;`, where b does not hold: its graph ends without a call, the simplified graph calls f. |
| `Binary.XorIsBuddy` | ucore/kern/mm/buddy_pmm.c:170-178 | page_idx ^ (1 << order) is the neighbour block, and the conjunction of the two indices is the start of the merged block. |
| `Binary.MaskIsAligned` | ucore/kern/mm/buddy_pmm.c:161-161 | page_idx & ((1 << order) - 1) is zero exactly for aligned indices. |
| `Binary.BitIsUnaligned` | ucore/kern/mm/buddy_pmm.c:199-199 | idx & order_size of an aligned index is zero exactly if it is aligned to the next order. |
| `Binary.Nested` | ucore/kern/mm/buddy_pmm.c:159-186 | Aligned blocks that meet lie one inside the other. |
| `Buddies.FullIsInside` | ucore/kern/mm/buddy_pmm.c:159-186 | A block of free pages lies inside one free block. |
| `Buddies.HeadsAreMaximal` | ucore/kern/mm/buddy_pmm.c:159-186 | The free blocks are exactly the maximal aligned blocks of free pages. |
| `Buddies.SamePagesSameBlocks` | ucore/kern/mm/buddy_pmm.c:159-217 | So the set of free pages determines the free blocks, whatever happened before. |
| `Buddies.AddBlock` | ucore/kern/mm/buddy_pmm.c:180-185 | A block that comes keeps blocks aligned, inside their zone and disjoint, and adds exactly its pages. |
| `Buddies.DropBlock` | ucore/kern/mm/buddy_pmm.c:174-176 | A block that goes takes exactly its pages. |
| `BuddyPmm.AreaAdd` | ucore/kern/mm/buddy_pmm.c:180-185 | Lists, counters, flags and free pages agree after a block is put on its list. |
| `BuddyPmm.AreaDrop` | ucore/kern/mm/buddy_pmm.c:174-176 | And after one is taken off. |
| `BuddyPmm.NothingLarge` | ucore/kern/mm/buddy_pmm.c:94-118 | If no list from some order on has a block, there is no room for one. |
| `BuddyPmm.SamePagesSameState` | ucore/kern/mm/buddy_pmm.c:230-313 | The free pages determine counters and lists as well, up to the order on the lists. |
| `BuddyPmm.BuddyManager.constructor` | ucore/kern/mm/buddy_pmm.c:43-50 | Nothing is free. |
| `BuddyPmm.BuddyManager.InitMemmap` | ucore/kern/mm/buddy_pmm.c:53-77 | All pages of the new zone are free, cut into maximal blocks; other zones stay. |
| `BuddyPmm.BuddyManager.GetOrder` | ucore/kern/mm/buddy_pmm.c:80-89 | The least order with room for n pages; none exactly for more than 2^10. |
| `BuddyPmm.BuddyManager.AllocPagesSub` | ucore/kern/mm/buddy_pmm.c:93-118 | The first block of the smallest order that has one, split; exactly its pages stop being free. Nothing changes if there is none. |
| `BuddyPmm.BuddyManager.SplitTo` | ucore/kern/mm/buddy_pmm.c:103-112 | Splitting gives back all but a block of the order asked for. |
| `BuddyPmm.BuddyManager.AllocPages` | ucore/kern/mm/buddy_pmm.c:121-130 | n pages that were free and are free no more, and nothing else; refused only if no aligned block is free. |
| `BuddyPmm.BuddyManager.FreePagesSub` | ucore/kern/mm/buddy_pmm.c:158-186 | The pages of the block are free as well, merged with all free buddies. |
| `BuddyPmm.BuddyManager.FreePages` | ucore/kern/mm/buddy_pmm.c:189-217 | Any run in use, at any alignment, is freed completely; the assertion on the order fails exactly for runs that reach 2^11 pages past the next multiple of 2^11. |
| `BuddyPmm.BuddyManager.FreeFalling` | ucore/kern/mm/buddy_pmm.c:206-216 | The second half of the decomposition: blocks of falling orders. |
| `BuddyPmm.BuddyManager.AllocThenFree` | ucore/kern/mm/buddy_pmm.c:230-313 | Allocating and freeing again restores free blocks, counters and lists. |
| `BuddyPmm.BuddyManager.NrFreePages` | ucore/kern/mm/buddy_pmm.c:220-227 | The sum over the counters is the number of free pages. |
| `TimerList.InsertKeeps` | ucore/kern/schedule/sched.c:105-125 | A timer inserted between those due no later and those due later changes no other deadline. |
| `TimerList.RemoveKeeps` | ucore/kern/schedule/sched.c:127-144 | A timer that goes hands its distance on, so no other deadline changes. |
| `TimerList.TickEnds` | ucore/kern/schedule/sched.c:146-173 | A tick leaves a list whose first timer is not due, and has taken off exactly the timers with one tick left. |
| `TimerList.ExpiresOnTime` | ucore/kern/schedule/sched.c:105-173 | In every run a timer that is left alone is pending until, and expires with, the last of its ticks. |
| `TimerList.TimerQueue.AddTimer` | ucore/kern/schedule/sched.c:105-125 | The new deadline, all others unchanged. |
| `TimerList.TimerQueue.DelTimer` | ucore/kern/schedule/sched.c:127-144 | The timer is gone, all others unchanged; nothing happens if it is not linked. |
| `TimerList.TimerQueue.RunTimerList` | ucore/kern/schedule/sched.c:146-173 | Every deadline is one less; exactly those with one tick left expire, in the order of the list; the assertion on the first distance holds. |
| `ProcessIds.NextCandidate` | ucore/kern/process/proc.c:174-190 | Every refused candidate is followed by one not refused yet, across the wrap at MAX_PID: the repeated scan cannot go round. |
| `ProcessIds.ProcTable.GetPid` | ucore/kern/process/proc.c:162-194 | Terminates with the first number in [1, MAX_PID) behind last_pid, going round once, that no process has, and no process is between last_pid and next_safe. |
| `ProcessIds.ProcTable.Fork` | ucore/kern/process/proc.c:420-468 | A new process gets a number of its own unless MAX_PROCESS is reached or there is no memory for it. |
| `ProcessIds.ProcTable.Remove` | ucore/kern/process/proc.c:145-159 | A process that goes keeps the interval safe. |
| `Scheduling.UpKeeps` | ucore/kern/sync/sem.c:16-30 | up keeps the invariant, and its assertion on the waiter holds. |
| `Scheduling.UpGrants` | ucore/kern/sync/sem.c:16-30 | If somebody waits, the permit goes to the first in the queue and the value stays. |
| `Scheduling.WaitKeeps` | ucore/kern/sync/sem.c:32-41 | A process that starts to wait keeps the invariant although it still runs. |
| `Scheduling.LeaveKeeps` | ucore/kern/sync/sem.c:45-54 | A process that comes back in down was handed a permit: the assertion in down holds. |
| `Scheduling.WakeKeeps` | ucore/kern/schedule/sched.c:57-75 | Waking a process keeps the invariant. |
| `Scheduling.ScheduleKeeps` | ucore/kern/schedule/sched.c:77-103 | schedule keeps the invariant, whatever the state of the current process. |
| `Scheduling.NextKeeps` | ucore/kern/sync/sem.c:16-76 | Every step of a process and every interrupt keeps the invariant, and every assertion of the source that belongs to it holds. |
| `Scheduling.EveryRun` | ucore/kern/sync/sem.c:16-76 | In every run, with kills, timers and clock ticks anywhere, no assertion fails; on the run queue are exactly those who can run and do not; value > 0 implies no waiters; permits are conserved and handed out in order of arrival. |
| `Scheduling.BootGood` | ucore/kern/sync/sem.c:10-14 | The state after boot satisfies the invariant. |
| `Scheduling.GrantedRuns` | ucore/kern/sync/sem.c:16-54 | A process handed a permit is running or queued, also if the up came between wait_current_set and schedule. |
| `Scheduling.GrantStays` | ucore/kern/sync/sem.c:16-54 | Nothing takes the permit away before the process itself leaves down: no wakeup is lost. |
| `Scheduling.MovesUp` | ucore/kern/schedule/default_sched.c:13-38 | Round robin: a queued process moves up by one with every schedule and with nothing else. |
| `Scheduling.GetsToRun` | ucore/kern/schedule/sched.c:77-103 | In every run with enough calls of schedule a queued process gets to run. |
| `SchedulingRuns.PermitsAdd` | ucore/kern/sync/sem.c:16-76 | Over every run the value of a semaphore changes by the number of ups less the number of permits obtained, counted from events and states. |
| `SchedulingRuns.NeverTooMany` | ucore/kern/sync/sem.c:16-76 | So never more permits are obtained than there were at first and were made by ups, and all of them while anybody waits. |
| `SchedulingRuns.JoinsLast` | ucore/kern/sync/sem.c:32-41 | Who has to wait is last in the queue of the semaphore. |
| `SchedulingRuns.InTurn` | ucore/kern/sync/sem.c:16-30 | Every up moves the waiters on by one and grants the first his permit; nothing else changes their places. |
| `SchedulingRuns.GetsPermit` | ucore/kern/sync/sem.c:16-54 | In every run with enough ups a waiter is granted a permit. |
| `SchedulingRuns.PicksRunnable` | ucore/kern/schedule/sched.c:77-103 | schedule picks a process that can run. |
| `SchedulingRuns.StopsRunning` | ucore/kern/sync/sem.c:32-41 | A process that waits, sleeps or ends cannot run, and nobody else is touched. |
| `SchedulingRuns.SleepsUntilWoken` | ucore/kern/schedule/sched.c:57-75 | Exactly an up that grants it a permit, an interrupt or a timer wakes a sleeping process, and nothing wakes the dead. |
| `SchedulingRuns.JoinsQueue` | ucore/kern/schedule/sched.c:57-75 | Who is new or woken is last on the run queue, with time to run. |
| `SchedulingRuns.BackFromDown` | ucore/kern/sync/sem.c:45-65 | A process that is back from down is outside of it. |
| `SchedulingRuns.BootRested` | ucore/kern/sync/sem.c:10-14 | At boot nobody has been asked to give way. |
| `SchedulingRuns.EveryRunRested` | ucore/kern/schedule/default_sched.c:13-48 | In every run processes that do not run are not asked to give way, and those on the run queue have time left. |
| `SchedulingRuns.StartsRested` | ucore/kern/schedule/default_sched.c:13-48 | Whoever gets to run has a time slice, and is not asked to give way yet. |
| `SchedulingRuns.GivesWay` | ucore/kern/schedule/default_sched.c:40-48 | As long as it runs, a process is asked to give way exactly from the tick on that uses up its slice. |
| `Kernel.System.constructor` | ucore/kern/sync/sem.c:10-14 | The state after boot. |
| `Kernel.System.RREnqueue` | ucore/kern/schedule/default_sched.c:13-22 | The process is the last on the run queue, with a time slice. |
| `Kernel.System.WakeupProc` | ucore/kern/schedule/sched.c:57-75 | The process can run; it is queued unless it is current. |
| `Kernel.System.SemUp` | ucore/kern/sync/sem.c:16-30 | The step `DoUp` of every run. |
| `Kernel.System.TryDown` | ucore/kern/sync/sem.c:67-76 | The step `DoTryDown`; a permit is taken exactly if there is one. |
| `Kernel.System.DownBegin` | ucore/kern/sync/sem.c:32-41 | The step `DoDown`, up to the call of schedule. |
| `Kernel.System.DownEnd` | ucore/kern/sync/sem.c:45-65 | The step `DoLeave`, with its assertion. |
| `Kernel.System.ScheduleNext` | ucore/kern/schedule/sched.c:77-103 | The step `DoSchedule`. |
| `Kernel.System.ProcTick` | ucore/kern/schedule/default_sched.c:40-48 | The step `ClockTick`. |
| `Kernel.System.WakeInterruptible` | ucore/kern/process/proc.c:885-900 | Only a wait that can be interrupted is ended by a kill. |
| `Decimal.EstimateIsClose10` | ucore/kern/include/thumips.h:29-38 | The sum of shifted words falls short of the quotient by one at most, and nothing overflows. |
| `Decimal.DivU10IsDivision` | ucore/kern/include/thumips.h:29-38 | For every 32-bit word the result is n / 10. |
| `Decimal.DivU5IsDivision` | ucore/kern/include/thumips.h:40-48 | For every 32-bit word the result is n / 5. |
| `Decimal.MulSmall` | ucore/kern/include/thumips.h:22-25 | Ten times a number, where that fits a word. |
| `DecimalText.PrintedNumeral` | ucore/kern/libs/printfmt.c:90-117 | In bases 8, 10 and 16 the digits printed are the numeral of the number. |
| `DecimalText.PrintsNumeralsExactlyFor` | ucore/kern/libs/printfmt.c:82-117 | Of the bases 2 to 16 these are the only ones for which they always are. |
| `DecimalText.LastDigit` | ucore/kern/libs/printfmt.c:93-104 | The last digit and the rest, without a division. |
| `DecimalText.PrintNum` | ucore/kern/libs/printfmt.c:90-117 | max(0, width - digits) pads and then the digits, after what has been put out before. |
| `DecimalText.PrintInt` | ucore/ours/decaf/userlib.c:31-49 | The decimal text of every int, the least one included. |
| `DecimalText.ReadInteger` | ucore/ours/decaf/userlib.c:51-59 | The number that the characters of the line add up to, as a 32-bit int. |
| `DecimalText.RoundTrip` | ucore/ours/decaf/userlib.c:31-59 | What PrintInt prints is read back as the same number exactly if it is not negative, or is -2115098112. |
| `Bitmaps.OneBit` | ucore/kern/fs/sfs/bitmap.c:60-64 | `^= 1 << k` flips bit k of a 32-bit word and `|= 1 << k` sets it; no other bit changes and the word stays a word. |
| `Bitmaps.MaskTests` | ucore/kern/fs/sfs/bitmap.c:81-85 | `word & (1 << k)` is not zero exactly if bit k is set. |
| `Bitmaps.FlipInMap` | ucore/kern/fs/sfs/bitmap.c:73-93 | One bit of one word changed is one index of the whole map changed. |
| `Bitmaps.Bitmap.constructor` | ucore/kern/fs/sfs/bitmap.c:19-50 | Exactly the first nbits indices are free; the bits left over in the last word are not. |
| `Bitmaps.Bitmap.Alloc` | ucore/kern/fs/sfs/bitmap.c:53-70 | Takes the least free index, and fails exactly if none is free; the inner search always finds a bit. |
| `Bitmaps.Bitmap.Test` | ucore/kern/fs/sfs/bitmap.c:81-85 | Tells whether the index is free. |
| `Bitmaps.Bitmap.Release` | ucore/kern/fs/sfs/bitmap.c:88-93 | One more index is free. |
| `SfsLayout.SetEntry` | ucore/kern/fs/sfs/sfs_inode.c:173-175 | A block number written into an index block is read back, and all other entries stay. |
| `SfsLayout.StoreData` | ucore/kern/fs/sfs/sfs_inode.c:440-526 | A store to a data block of a file changes that block of that file, and no block of any other. |
| `SfsLayout.GrowDirect` | ucore/kern/fs/sfs/sfs_inode.c:203-211 | A free block becomes the next block of a file, filled with zeros; every block still has exactly one owner. |
| `SfsLayout.GrowIndirect` | ucore/kern/fs/sfs/sfs_inode.c:153-195 | The same through the index block. |
| `SfsLayout.GrowFirst` | ucore/kern/fs/sfs/sfs_inode.c:153-195 | The same with a new index block. |
| `SfsLayout.Shrunk` | ucore/kern/fs/sfs/sfs_inode.c:241-284 | The last block of a file leaves it and is free; nothing else changes. |
| `SfsLayout.Removed` | ucore/kern/fs/sfs/sfs_inode.c:725-730 | Inode and index block of a file without data become free; all other files stay. |
| `SfsLayout.FlatStore` | ucore/kern/fs/sfs/sfs_inode.c:440-526 | A store into part of a block is a store into the file at the right position. |
| `SfsLayout.NextPiece` | ucore/kern/fs/sfs/sfs_inode.c:475-518 | Writing piece by piece, block after block, is one write, with zeros up to the end of the last block. |
| `SfsLayout.NextTouch` | ucore/kern/fs/sfs/sfs_inode.c:475-518 | Reading piece by piece covers the same bytes. |
| `SfsLayout.WriteStores` | ucore/kern/fs/sfs/sfs_inode.c:440-526 | A write that starts inside the contents is a store to an array of bytes. |
| `SfsLayout.ReadBack` | ucore/kern/fs/sfs/sfs_inode.c:440-526 | What was written is read back. |
| `SfsFiles.SimpleFs.constructor` | ucore/kern/fs/sfs/sfs_fs.c:150-205 | A mounted disk whose free map and superblock agree. |
| `SfsFiles.SimpleFs.Rbuf` | ucore/kern/fs/sfs/sfs_io.c:44-55 | Part of a block, through the buffer. |
| `SfsFiles.SimpleFs.Wbuf` | ucore/kern/fs/sfs/sfs_io.c:58-70 | Part of a block is replaced, the rest of it stays. |
| `SfsFiles.SimpleFs.ClearBlock` | ucore/kern/fs/sfs/sfs_io.c:92-106 | The block is zero. |
| `SfsFiles.SimpleFs.BlockAlloc` | ucore/kern/fs/sfs/sfs_inode.c:66-75 | A free block is taken and filled with zeros, and the counter of unused blocks keeps equal to the free map; fails exactly if no block is free. |
| `SfsFiles.SimpleFs.BlockFree` | ucore/kern/fs/sfs/sfs_inode.c:78-82 | The block is free, counter and map agree. |
| `SfsFiles.SimpleFs.BmapGetSub` | ucore/kern/fs/sfs/sfs_inode.c:153-195 | An entry of the index block; with create a new block, also a new index block, and if only one of two blocks can be had it goes back. Succeeds exactly if there are enough free blocks. |
| `SfsFiles.SimpleFs.BmapGet` | ucore/kern/fs/sfs/sfs_inode.c:198-238 | The number of a block of the file, new if create says so; refused exactly if blocks are missing, and then nothing has changed. |
| `SfsFiles.SimpleFs.BmapLoad` | ucore/kern/fs/sfs/sfs_inode.c:287-304 | The block is there or is the next one, which is added; the assertion on the index fails exactly for blocks further on. |
| `SfsFiles.SimpleFs.BmapFree` | ucore/kern/fs/sfs/sfs_inode.c:259-284 | The last block is taken out of the map and freed. |
| `SfsFiles.SimpleFs.BmapTruncate` | ucore/kern/fs/sfs/sfs_inode.c:307-317 | The file has one block less, the free map one more. |
| `SfsFiles.SimpleFs.Pieces` | ucore/kern/fs/sfs/sfs_inode.c:475-518 | The first part, whole blocks and last part of a transfer: the bytes up to where it got are written or read, wherever it stops. |
| `SfsFiles.SimpleFs.WholeBlocks` | ucore/kern/fs/sfs/sfs_inode.c:499-508 | The loop over whole blocks. |
| `SfsFiles.SimpleFs.IoNolock` | ucore/kern/fs/sfs/sfs_inode.c:440-526 | Rejects positions out of range and 32-bit overflow; otherwise reads or writes exactly the bytes asked for, cut off at the size or the limit, or up to the first block that cannot be had; succeeds exactly if enough blocks are free; fails an assertion exactly if it starts behind the next block; other files are untouched. Leaves a change unmarked exactly if blocks went into the index block without raising the size. |
| `SfsFiles.SimpleFs.Truncfile` | ucore/kern/fs/sfs/sfs_inode.c:769-809 | Sets the length; blocks go or blocks of zeros come. Succeeds exactly if enough blocks are free; otherwise the blocks got so far stay, unmarked exactly if they went into the index block. The assertion fails exactly where size and block count disagree. |
| `SfsFiles.SimpleFs.Reclaim` | ucore/kern/fs/sfs/sfs_inode.c:701-738 | All blocks of a deleted file, its inode and its index block are free again, and no other file has changed. |
| `SfsFiles.Accounted` | ucore/kern/fs/sfs/sfs_inode.c:440-526 | A transfer goes through exactly if the blocks that it needs, index block included, are free. |
| `SfsMarks.AppendedTwice` | ucore/kern/fs/sfs/sfs_inode.c:287-304 | Appending blocks changes an inode in more than its block count exactly if one of the appended blocks does. |
| `SfsMarks.MarkedIff` | ucore/kern/fs/sfs/sfs_inode.c:198-238 | After a change of one inode all that differ from the disk are marked, unless its block count alone has changed and it was not marked before. |
| `SfsMarks.FourteenthBlock` | ucore/kern/fs/sfs/sfs_inode.c:287-304 | A file of 13 blocks that gets a fourteenth is not marked, and differs from the disk. |
| `SfsFiles.SimpleFs.Fsync` | ucore/kern/fs/sfs/sfs_inode.c:570-583 | An inode that is marked is written, and no longer marked. |
| `SfsFiles.SimpleFs.Sync` | ucore/kern/fs/sfs/sfs_fs.c:16-42 | Afterwards the disk has every inode that was marked, the counter and the free map. |
| `SfsFiles.SimpleFs.StoppedUnmarked` | ucore/kern/fs/sfs/sfs_inode.c:769-809 | A file with an index block that could not be made long enough: what is on the disk after writing the inode knows fewer blocks than the file has. |
| `SfsContents.WriteIsStore` | ucore/kern/fs/sfs/sfs_inode.c:440-526 | A write at a position inside the file is a store to an array of bytes, also where it stopped for lack of blocks, and size and block count still agree. |
| `SfsContents.ReadIsSlice` | ucore/kern/fs/sfs/sfs_inode.c:440-526 | A read returns a slice of the contents. |
| `SfsContents.CoverLost` | ucore/kern/fs/sfs/sfs_inode.c:440-526 | After a write the size lies behind the last block exactly if the write started inside a new block that could not be had: the size is raised to the start although nothing was written. |
| `SfsContents.GapIsSlack` | ucore/kern/fs/sfs/sfs_inode.c:440-526 | A write behind the end exposes what the last block holds there, and then zeros. |
| `SfsContents.CutLeavesZeros` | ucore/kern/fs/sfs/sfs_inode.c:769-809 | A truncation leaves zeros behind the end exactly if what it cuts off within the last block that stays was zeros, which a reader could see before. |
| `SfsContents.WriteKeepsZeros` | ucore/kern/fs/sfs/sfs_inode.c:440-526 | Where there are zeros behind the end a write at any position keeps them, and fills what it leaves out with zeros. |
| `SfsContents.LengthenKeepsZeros` | ucore/kern/fs/sfs/sfs_inode.c:769-809 | So does a file made longer. |
| `SfsContents.TruncateContents` | ucore/kern/fs/sfs/sfs_inode.c:769-809 | Shorter: a prefix. Longer: the contents, what the last block holds behind them, and zeros. |
| `SfsContents.StoppedLeaves` | ucore/kern/fs/sfs/sfs_inode.c:769-809 | Lengthening that stops for lack of blocks leaves the contents and zeros behind them as they were; size and block count disagree exactly if it got a block. |
| `SfsFiles.SimpleFs.TruncfileAgain` | ucore/kern/fs/sfs/sfs_inode.c:769-809 | After it the assertion fails for the size that the file has, exactly if it got a block. |
| `SfsContents.CutComesBack` | ucore/kern/fs/sfs/sfs_inode.c:769-809 | What was cut off inside the last block comes back when the file is made longer again. |
| `SfsContents.RunIsFlat` | ucore/kern/fs/sfs/sfs_inode.c:440-526 | Over every run of writes at any position, whole or cut short, and of changes of length, done or stopped for lack of blocks, all files behave as arrays of bytes, each on its own, with zeros in gaps, as long as none is written behind its end or made longer after a cut that left bytes behind. |
| `SlabLayout.ChainPop` | ucore/kern/mm/kmalloc.c:382-392 | Taking the first index off a free chain leaves a chain. |
| `SlabLayout.ChainPush` | ucore/kern/mm/kmalloc.c:457-461 | Putting an index in front of a free chain gives a chain. |
| `SlabLayout.ObjInside` | ucore/kern/mm/kmalloc.c:382-392 | Every object lies in the pages of its slab, behind the control area if that is there. |
| `SlabSteps.TakeOneSound` | ucore/kern/mm/kmalloc.c:382-392 | Handing out an object keeps the state sound: chains, counts, lists, pages and owners; the object was in nobody’s hands. |
| `SlabSteps.GiveOneSound` | ucore/kern/mm/kmalloc.c:457-473 | So does taking it back. |
| `SlabSteps.AddSlabSound` | ucore/kern/mm/kmalloc.c:338-378 | So does a new slab. |
| `SlabSteps.DropSlabSound` | ucore/kern/mm/kmalloc.c:436-452 | So does giving up an empty one. |
| `SlabSteps.ObjectsApart` | ucore/kern/mm/kmalloc.c:382-392 | Objects handed out do not overlap, in one slab or in two. |
| `SlabSteps.ControlApart` | ucore/kern/mm/kmalloc.c:304-319 | Nor do they overlap the control area of a slab, whether it lies in front of the objects or is an object itself. |
| `SlabSteps.ControlsApart` | ucore/kern/mm/kmalloc.c:304-319 | Control areas do not overlap. |
| `SlabSteps.NothingLeft` | ucore/kern/mm/kmalloc.c:436-473 | When callers hold nothing there is no slab and no page in use. |
| `SlabCaches.GetOrder` | ucore/kern/mm/kmalloc.c:253-261 | The least order from 5 on with room for n bytes; a panic exactly above 2^17. |
| `SlabCaches.CacheEstimate` | ucore/kern/mm/kmalloc.c:175-211 | The number of objects of a slab and what is left over, for the division table and for slabs with the control area elsewhere. |
| `SlabCaches.LargestFit` | ucore/kern/mm/kmalloc.c:196-199 | The largest number up to the estimate that fits. |
| `SlabCaches.CalculateSlabOrder` | ucore/kern/mm/kmalloc.c:221-249 | Always finds an order: objects and control area fit the pages. |
| `SlabCaches.InitKmemCache` | ucore/kern/mm/kmalloc.c:266-294 | Control areas kept elsewhere fit an object of the first two caches. |
| `SlabCaches.SlabInit` | ucore/kern/mm/kmalloc.c:115-123 | The thirteen caches fit together: control areas are never kept in a cache that keeps its own elsewhere. |
| `Kmalloc.SlabAllocator.constructor` | ucore/kern/mm/kmalloc.c:115-123 | Nothing is handed out. |
| `Kmalloc.SlabAllocator.FreeChain` | ucore/kern/mm/kmalloc.c:359-363 | The chain of a new slab visits every index once and ends at the end mark. |
| `Kmalloc.SlabAllocator.LinkSlab` | ucore/kern/mm/kmalloc.c:349-375 | A new empty slab, first on the list of slabs that are not full, and named by its pages. |
| `Kmalloc.SlabAllocator.KmemCacheGrow` | ucore/kern/mm/kmalloc.c:338-378 | One more slab exactly if there are pages for it and, where its control area is kept elsewhere, an object for that or a page for more; else all pages are free that were. |
| `Kmalloc.SlabAllocator.SetUpSlab` | ucore/kern/mm/kmalloc.c:338-378 | If the control area cannot be had, which is exactly if its cache has no free object and no page is left, the pages go back. |
| `Kmalloc.SlabAllocator.KmemCacheAllocOne` | ucore/kern/mm/kmalloc.c:382-392 | The first free object of the first slab that is not full. |
| `Kmalloc.SlabAllocator.KmemCacheAlloc` | ucore/kern/mm/kmalloc.c:397-418 | One object more, all others as before; refused exactly if no object is free and no slab can be made, and then nothing has changed. |
| `Kmalloc.SlabAllocator.Kmalloc` | ucore/kern/mm/kmalloc.c:423-430 | A block of at least the size asked for, which overlaps no other block and no control area; a panic exactly for 0 and above 2^17 bytes, and refused exactly if the cache for this size is. |
| `Kmalloc.SlabAllocator.KmemCacheFreeOne` | ucore/kern/mm/kmalloc.c:457-473 | The object is the first free one; an empty slab is given up, a full one changes lists. |
| `Kmalloc.SlabAllocator.KmemSlabDestroy` | ucore/kern/mm/kmalloc.c:436-452 | The pages are free again, and so is a control area that is an object. |
| `Kmalloc.SlabAllocator.Kfree` | ucore/kern/mm/kmalloc.c:499-501 | The block is gone, all others stay as they are, and free pages and pages of slabs are together the same as before. |
| `Kmalloc.SlabAllocator.AllFreed` | ucore/kern/mm/kmalloc.c:436-501 | When callers hold nothing all pages are free. |
| `Kmalloc.SlabAllocator.NothingLost` | ucore/kern/mm/kmalloc.c:514-668 | Whatever was allocated and freed in between, the free blocks of pages are the same again. |
| `VirtualMemory.HolderIsFirst` | ucore/kern/mm/vmm.c:78-101 | An area that holds an address is the first that ends above it: the cache cannot give a different answer. |
| `VirtualMemory.FreeInterval` | ucore/kern/mm/vmm.c:160-189 | An interval meets no area exactly if the first area above its start begins at its end or later. |
| `VirtualMemory.NeighboursDecide` | ucore/kern/mm/vmm.c:104-143 | Checking the two neighbours in the sorted list is checking all areas. |
| `VirtualMemory.AllowedBy` | ucore/kern/mm/vmm.c:438-462 | Only the first area above an address can allow an access to it. |
| `VirtualMemory.RangeIsAddresses` | ucore/kern/mm/vmm.c:438-462 | A range passes exactly if each of its addresses passes by itself, although the guard page of a stack is looked at only where the range enters the area. |
| `VirtualMemory.PagesHold` | ucore/kern/mm/vmm.c:160-164 | What is mapped are whole pages, none too many, and they hold the range asked for exactly if it does not go past the last address. |
| `VirtualMemory.PagesWrap` | ucore/kern/mm/vmm.c:160-164 | A range of four gigabytes less a byte that is mapped as one page. |
| `VirtualMemory.MmStruct.constructor` | ucore/kern/mm/vmm.c:45-60 | No areas. |
| `VirtualMemory.MmStruct.FindVma` | ucore/kern/mm/vmm.c:78-101 | With or without the cache: the first area that ends above the address. |
| `VirtualMemory.MmStruct.InsertVmaStruct` | ucore/kern/mm/vmm.c:115-143 | The assertions hold exactly if the area is not empty and meets no other; then the list is sorted with one area more. |
| `VirtualMemory.MmStruct.MmMap` | ucore/kern/mm/vmm.c:160-189 | Refused exactly if the pages are outside user space or meet an area; never fails the assertions of the insertion. |
| `VirtualMemory.UserMemCheck` | ucore/kern/mm/vmm.c:438-462 | True exactly if the range is in user space and every address of it lies in an area with the right needed, where a write keeps a page away from the start of a stack; without an address space, if it is in the kernel. With one, true exactly if the range is not empty and the check of each address is true. |
| `VirtualMemory.MmStruct.CheckAreas` | ucore/kern/mm/vmm.c:438-462 | The walk over the areas. |
| `VirtualMemory.OneArea` | ucore/kern/mm/vmm.c:438-462 | The tests of a round decide about one address and then about all up to the end of the area. |

## Left out

- Flow solver: 32-bit overflow of capacities and sums; they are whole numbers here. The colour quantizer that calls it.
- Red-black tree: `rb_tree_predecessor`, `rb_node_prev`, `rb_tree_destroy` and `check_tree`, which mirror or restate what is proved; the C heap is a map from addresses to nodes, so what `kmalloc` does to them is not seen.
- Decaf: the lexer, the parser and the type checker; trees are taken as checked. `genNewForClass`, `genVtable` and the layout of objects: `new` is a call whose effect is a parameter of the machine.
- Decaf: register allocation, MIPS code and the calling convention; calls, strings and printing are what the machine makes of them.
- Simplification.SimplifyPreserves: needs that the entry is kept; `SimplifyStarts` says what the graph does without that, and `SimplePreserves` what this means for every function. Both need a ranking of empty blocks, which the flow graph of every function has (`GraphAcyclic`).
- Liveness.ExactIff: is about the graph that the analysis is given; the source temp that `simplify` leaves on a block whose two followers became one counts as used.
- Interrupts between two instructions of a stretch that runs with interrupts off, `switch_to`, and processor state: such a stretch is one step.
- Page allocator: reserved flags, reference counts and physical addresses of zones; pages are counted from the base of their zone, and `page_is_buddy` never looks outside it.
- Slab allocator: `slab_allocated`, and the contents of objects; the control data is a value at its address, kept apart from all objects by `ControlApart`.
- SfsFiles.SimpleFs.constructor: takes a disk whose superblock and free map agree; `sfs_do_mount` only reports a difference, and the counter would stay wrong by it.
- SfsFiles.SimpleFs.BmapGet: takes indices up to the end of the single-indirect block, and creates only the block behind the last one, as `sfs_bmap_load_nolock` asks; for larger indices the code reads a variable that was never set.
- SfsFiles.SimpleFs.IoNolock: takes writes that end within the single-indirect range, for the same reason.
- SfsFiles.SimpleFs.Truncfile: takes lengths within the single-indirect range, for the same reason.
- File system: device errors, directories and names, links, the bytes of inodes and of the free map in their blocks (`saved` and `savedFree` stand for what is there), transfers of several blocks at once (`sfs_rwblock` is called with one), locks. Inodes are values in a map by their number.
- Virtual memory: `copy_string`, `dup_mmap`, `exit_mmap`, `do_pgfault` and page tables; flags of areas are truth values, not bits of a word.
- Processes: the hash of numbers, `set_links` to siblings, the reparenting in `do_exit`, `do_wait`.
- Scheduler: wait queues other than those of semaphores (`wakeup_queue`, `do_sleep`), and the memory of process structures.
- Timers: the width of `expires`.
- `vprintfmt` and its format strings; the static buffer that `PrintInt` fills.
