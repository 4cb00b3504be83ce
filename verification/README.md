# Three engines behind mockturtle, verified

The logic-network library mockturtle carries three engines whose answers rest on interlocking
invariants. This project models them in Dafny and proves what they are for.

- **The SAT solver** of `lib/abcsat/satSolver.cpp` (`Sat*.dfy`): a conflict-driven solver with two
  watched literals per clause, separate binary watches, first-UIP learning with recursive
  minimisation, backjumping, an activity heap, restarts, assumptions that are pushed and popped, the
  lexicographically least model, and the minimisation of assumptions. The class `Solver` holds the
  fields of the C structure; `State` is the same content as a value, about which the invariants are
  stated. The preprocessor of `lib/abcsat/SimpSolver.cpp` (`Simp*.dfy`) eliminates variables and
  extends models; `GlucoseMinimise.dfy` is the clause minimisation of `lib/abcsat/Glucose.cpp`, and
  `GlucoseAssumptions.dfy` the minimisation of assumptions of `lib/abcsat/AbcGlucose.cpp`.
- **The Hamiltonian search** of `lib/nauty/cubhamg.c` (`Cub*.dfy`): backtracking over edge classes with
  forced-edge propagation, ends of paths and an undo stack, and the tests for two- and
  three-connectedness by lowpoints. `PermGraph.dfy` is the closure of a graph under a permutation
  from `lib/nauty/genrang.c`.
- **The ESOP minimiser** of `lib/abcesop` (`Esop*.dfy`): it rewrites an exclusive or of product cubes by
  merging close cubes and by replacing pairs through the ExorLink tables, on linked lists, a free
  pool and queues of pairs, taking speculative changes back. `EsopBits.dfy` and `EsopWords.dfy` relate the
  packed words to the abstract cubes that the rest works on; `EsopFront.dfy` is the library's own entry.

How to read it: `Cnf`, `SatState`, `SatSteps`, `SatWatches`, `SatPropagation`, `SatCore`, `SatUip` and `SatSolver` in
this order; `CubGraph`, `CubState`, `CubSteps`, `CubTree`, `CubHam`; `EsopCube`, `EsopRules`, `EsopLink`, `EsopQueue`,
`EsopList`, `EsopGain`, `EsopApply`, `EsopTrace`, `EsopReduce`, `EsopMain`, `EsopFront`; `SimpRecords`, `SimpElim`,
`SimpReplace`, `SimpWorth`, `SimpSweep`, `SimpSolver`.
`dafny verify dfyconfig.toml` checks everything.

## Findings

- **Units that wait in the queue are lost when an assumption is popped.** `sat_solver_addclause` only
  enqueues a unit clause (`lib/abcsat/satSolver.cpp:1854`), and `sat_solver_canceluntil` sets `qhead` to the
  length of what remains of the trail (`lib/abcsat/satSolver.cpp:765`), as if all of it had been
  propagated. For the clauses `~a | ~b | c`, `a`, `b`, the push of `~a` fails at once, its pop leaves both units
  counted as propagated, and the next search decides `~c`, finds nothing to visit and stores the
  assignment 110 as a model, although it falsifies the first clause and 111 is a model.
  `SatPending.PendingUnitsLost` carries out this run on the solver. The exact condition is the one of
  `SatCalls.FailedPushes`: every failed push can be popped safely if and only if, before it, no clause has
  both its watched literals false under the literals of the trail; the negation of a literal of the
  trail is a push that always shows it. `Push`, `Pop` and `Solve` promise the same in terms of the state
  on entry: a solver with `NoneFalse(trail)` is ready again after every failed call, and without it the
  call that assumes the negation of a trail literal leaves a solver that is not. Safe and ready are the
  invariant here: a state that is not ready may still answer correctly, when a third literal of the false
  pair's clause is true; the run shows that it need not. A caller is safe with an empty queue, which
  `sat_solver_simplify` at level 0 provides.
- **A return to fewer assumptions need not be a return to a propagated state.** After a conflict the solver
  goes back no further than the root level (`lib/abcsat/satSolver.cpp:1930-1932`), so a learnt clause whose
  second literal is false below the root was unit there already, and nobody looks at it again when
  `sat_solver_pop` goes back to that level. `SatReturn.PoppedOpen` carries this out: with the four clauses
  `+-x | +-y | ~a` and `a` pushed twice, every search learns a pair with `~a` as its second literal, and after
  one pop the trail `a` is not closed under propagation. The exact condition can be looked up before the pop:
  what remains is closed if and only if no literal above it was forced by a clause whose second literal is
  false below (`State.Overdue`). `Pop` promises it (`Saturated` if and only if not `Overdue`),
  `SatTight.ClosedExactly` states it for every open level of every state that the solver reaches,
  `SatTight.RecordedTight` for each recording, and `SatTight.LearntExactly` in terms of the guard: a level
  below the root that was closed stays closed exactly when it is below the level of the second literal.
- **A clause added while assumptions are pushed may be lost.** `sat_solver_addclause` cleans the clause under
  the current assignment (`lib/abcsat/satSolver.cpp:1836-1845`), whatever the level. After a push of `a` the
  clause `a | b` is dropped as satisfied, and nothing of it is left for the time after the pop
  (`SatUnder.ClauseLost`). `AddClause` says exactly when it is kept (`SatAdd.KeptAs`): a dropped clause has to
  be represented otherwise, a unit has to come at level 0, and a shortened clause has to follow from the
  clauses given. `SatAdd.FixedKept` gives what can be looked up before the call: it is enough that the
  literals with a value have it from level 0, and that the clause is no unit above it.
- **The cost option does not reach the minimiser.** `Abc_ExorcismMain` sets `s_fDecreaseLiterals` for the quantum
  cost (`lib/abcesop/exor.cpp:968`), but `AllocateCubeSets` clears it again (`lib/abcesop/exorList.cpp:802`)
  before the first pass, so the early rounds never count literals. The model follows the code: an
  `Exorcism` starts with the flag clear, `EsopReduce.ReduceEsopCover` shows that the early rounds run with the
  flag it finds, and `EsopMain.Minimize` that this flag is clear, whatever was asked for.

## Model

| member | source | states |
|---|---|---|
| SatHeap.RootIsMaximum | lib/abcsat/satSolver.cpp:256-332 | the variable at the top of an ordered heap has the largest activity of all in the heap |
| SatSolver.Solver.OrderUpdate | lib/abcsat/satSolver.cpp:256-275 | moving a variable up restores the heap order and keeps `orderpos` the exact inverse of the heap, with the same members |
| SatSolver.Solver.OrderUnassigned | lib/abcsat/satSolver.cpp:281-290 | the variable is in the heap afterwards, and membership of all others is unchanged |
| SatSolver.Solver.OrderSelect | lib/abcsat/satSolver.cpp:292-332 | the choice is unassigned, and of largest activity unless it was random; `-1` only with an empty heap; whatever has left the heap is assigned |
| SatHeap.BumpKeepsOrder | lib/abcsat/satSolver.cpp:386-443 | raising an activity, with or without rescaling all of them, leaves the heap ordered except above that variable |
| SatSolver.Solver.Enqueue | lib/abcsat/satSolver.cpp:673-721 | an unassigned literal gets its value, the current level and its reason; otherwise nothing changes and the answer is its value |
| SatSolver.Solver.OpenDecision | lib/abcsat/satSolver.cpp:723-733 | a new level with the decided literal, of the saved polarity |
| SatSolver.Solver.CancelUntil | lib/abcsat/satSolver.cpp:735-767 | the trail is cut at the level, exactly the cut variables lose value and reason, each keeps the value it had as its polarity, the heap stays ordered and regains every variable without a value, although only those before `qhead` are put back |
| SatUndo.CancelInv | lib/abcsat/satSolver.cpp:735-767 | cutting at any open level keeps all invariants of trail, levels, reasons, clauses and watches, with no change to the watch lists |
| SatUndo.PoppedInv | lib/abcsat/satSolver.cpp:2109-2113 | removing the newest assumptions keeps the invariants and leaves the older ones in place |
| SatSolver.Solver.RecordLong | lib/abcsat/satSolver.cpp:789-815 | a learnt clause is stored and its first literal becomes true with it as reason; nothing that had been propagated is undone |
| SatSolver.Solver.RecordUnit | lib/abcsat/satSolver.cpp:789-815 | a learnt unit is asserted at the root level and marked as level 0, as the clauses imply it |
| SatTight.RecordedTight | lib/abcsat/satSolver.cpp:789-815 | recording keeps closed what was closed, now and after a return to any search level; any open level that was closed stays so if and only if the second literal is not false there |
| SatTight.LearntExactly | lib/abcsat/satSolver.cpp:1930-1933 | a closed level below the root stays closed after jump and recording if and only if it is below the level of the second literal |
| SatTight.ClosedExactly | lib/abcsat/satSolver.cpp:735-767 | what a return to any open level leaves is closed under propagation if and only if nothing above it is overdue there |
| SatTight.OverdueOpen | lib/abcsat/satSolver.cpp:1092-1205 | a literal that its clause already forced below leaves that level open: the entry in the list of the second literal has no true watched literal |
| SatSolver.Solver.LitRemovable | lib/abcsat/satSolver.cpp:842-883 | true if and only if going back from the variable through the reasons, not past tagged variables, one meets none without a reason and none of a level outside the clause; then all that has been met is tagged; otherwise the tags are as before |
| SatRedundant.RedundantSame | lib/abcsat/satSolver.cpp:1044-1050 | tags left by literals already dropped make no difference for the others, so the order does not matter |
| SatAnalysis.DropRedundant | lib/abcsat/satSolver.cpp:842-883 | dropping literals whose reasons are closed under the kept ones leaves an implied clause |
| SatSolver.Solver.AnalyzeFinal | lib/abcsat/satSolver.cpp:937-981 | the final clause explains the given literals, and names exactly the negated assumptions that one comes to from them through the reasons |
| SatCore.CoreEnd | lib/abcsat/satSolver.cpp:937-981 | the walk ends with the negation of every assumption reached through the reasons, and of no other |
| SatSolver.Solver.Analyze | lib/abcsat/satSolver.cpp:983-1088 | from a false clause: a learnt clause that the clauses imply, of distinct variables, whose first literal alone is of the current level and whose second has the next highest level; it has exactly the necessary literals of the clause derived at the first implication point; the tags are clear again |
| SatSolver.Solver.ResolveToFirstUip | lib/abcsat/satSolver.cpp:983-1033 | the clause derived holds the negation of the last literal on the trail that alone is left of the current level, and exactly those literals of lower levels that resolving up to there leaves; it follows from the clauses |
| SatSolver.Solver.Minimize | lib/abcsat/satSolver.cpp:1033-1054 | of a derived clause exactly the redundant literals go: the first one and every one from which an unforced variable or a foreign level is met stay, in their order |
| SatAnalysis.BinaryResolved | lib/abcsat/satSolver.cpp:1000-1010 | resolving with a binary reason keeps the clause implied; its other literal is at level 0 or at the level of the forced one, so it is never pushed |
| SatLevels.LearntAfterCut | lib/abcsat/satSolver.cpp:1930-1933 | after the return to the computed level the first literal is unassigned and all others are false |
| SatSolver.Solver.VisitList | lib/abcsat/satSolver.cpp:1092-1205 | visiting the list of a literal finds a clause that is false or leaves no clause with both watched literals false among the visited part; an empty list changes nothing |
| SatSolver.Solver.Propagate | lib/abcsat/satSolver.cpp:1092-1205 | without a conflict everything is visited and no clause is false; when the start was closed, the whole trail is closed and every clause with all literals but one false has that literal true; a conflict names a clause that is false |
| SatPropagation.ClosedPropagated | lib/abcsat/satSolver.cpp:1092-1205 | on a closed trail no stored or binary clause is unit without its literal being true |
| SatPropagation.MoveSettled | lib/abcsat/satSolver.cpp:1157-1180 | moving a watch never takes a clause from the list of a literal that had been settled |
| SatTight.CutTight | lib/abcsat/satSolver.cpp:735-767 | after a return the remaining trail is closed under propagation without any visit |
| SatSolver.Solver.constructor | lib/abcsat/satSolver.cpp:1210-1272 | an empty solver, ready and closed |
| SatSolver.Solver.SetNVars | lib/abcsat/satSolver.cpp:1344-1411 | exactly the missing variables are added, unassigned, with empty lists and negative polarity |
| SatSolver.Solver.SimplifyAgain | lib/abcsat/satSolver.cpp:1586-1592 | with an empty queue propagation changes nothing |
| SatSolver.Solver.ReduceDb | lib/abcsat/satSolver.cpp:1594-1706 | deleting any learnt clauses that are no reasons keeps all invariants and what has been propagated |
| SatInput.SortLits | lib/abcsat/satSolver.cpp:1816-1824 | the same literals in increasing order |
| SatInput.CleanClause | lib/abcsat/satSolver.cpp:1836-1845 | either the clause is satisfied or a tautology, or what is left are its unassigned literals, each once, and all others are false |
| SatSolver.Solver.AddClause | lib/abcsat/satSolver.cpp:1799-1857 | at any level, the new state exactly: nothing, one literal enqueued, or one clause with its watches; ready if and only if the clause is kept, always at level 0; false means that the clauses have no model under the assumptions |
| SatAdd.AddedExactly | lib/abcsat/satSolver.cpp:1836-1856 | adding keeps all invariants if and only if the dropped clause is represented otherwise, the unit comes at level 0, or the shortened clause follows |
| SatAdd.FixedKept | lib/abcsat/satSolver.cpp:1836-1856 | a clause whose literals have values from level 0 only, and that is no unit above it, is kept |
| SatUnder.ClauseLost | lib/abcsat/satSolver.cpp:1799-1857 | a run in which a clause satisfied by an assumption is dropped, with nothing of it stored |
| SatRestarts.Luby | lib/abcsat/satSolver.cpp:1861-1871 | the element of the Luby sequence, given by its recursive definition |
| SatRestarts.RestartLarge | lib/abcsat/satSolver.cpp:2039-2040 | the restart at the end of block m + 1 allows more than m conflicts |
| SatVerdict.TotalIsModel | lib/abcsat/satSolver.cpp:1972-1980 | a total assignment with no clause false is a model of all clauses and assumptions ever given |
| SatVerdict.RootConflictRefutes | lib/abcsat/satSolver.cpp:1911-1926 | a false clause above no decision shows that clauses and assumptions have no model |
| SatSolver.Solver.Search | lib/abcsat/satSolver.cpp:1881-2003 | True: the stored model satisfies clauses and assumptions; False: they have no model, and the final clause is the core that refutes them; of the searches that are not refuted exactly those end with Undef that pass a limit or reach the restart limit in conflicts of their own; every conflict stores a clause, records a unit or is the last; it always ends |
| SatCalls.BackjumpLowers | lib/abcsat/satSolver.cpp:1909-1942 | a conflict lowers the measure that bounds the number of conflicts of a search |
| SatSolver.Solver.SolveInternal | lib/abcsat/satSolver.cpp:2006-2063 | restarts end with a verdict, or with Undef when a limit has been passed; `conflicts` grows by the clauses stored, the units recorded and the refutation that ends it |
| SatCount.CutUnits | lib/abcsat/satSolver.cpp:735-767 | going back to a level keeps every literal recorded as a unit, so none is counted twice |
| SatSolver.Solver.Push | lib/abcsat/satSolver.cpp:2066-2107 | on success the solver is ready under one more assumption; on failure the assumptions are refuted by a final clause that is exactly the core of the false clause, or of the false assumption, and it can be popped safely when no clause was false on entry; a literal that is false on entry fails without a visit |
| SatSolver.Solver.Pop | lib/abcsat/satSolver.cpp:2109-2113 | the state is cut at the last root level; it is ready if and only if no clause is false in what remains, and what remains is closed under propagation if and only if nothing that goes is overdue there |
| SatReturn.PoppedOpen | lib/abcsat/satSolver.cpp:1930-2113 | a run with two assumptions, a conflict and a pop, after which the trail is not closed under propagation |
| SatCalls.FailedPushes | lib/abcsat/satSolver.cpp:2066-2113 | every failed push can be popped to a ready state if and only if no clause has both watched literals false under the trail before it |
| SatPending.PendingUnitsLost | lib/abcsat/satSolver.cpp:1799-2113 | a run of the solver that stores an assignment falsifying a clause, although the clauses have a model |
| SatSolver.Solver.SetResourceLimits | lib/abcsat/satSolver.cpp:2115-2130 | the conflict limit is the smaller of the two given, and 0 only when neither is |
| SatSolver.Solver.Solve | lib/abcsat/satSolver.cpp:2132-2190 | verdicts for the clauses under the assumptions, with the core when there is no model; Undef only when the conflicts pass the limit that is set or the time is up; the conflicts are counted one by one; the root is 0 again; ready after every failed call when no clause was false on entry, and exactly then when the first assumption is false on entry |
| SatLexsat.Compose | lib/abcsat/satSolver.cpp:2207-2267 | the least assignment under a prefix that nothing is below is the least of all |
| SatLexsat.Decompose | lib/abcsat/satSolver.cpp:2207-2267 | when nothing is below the literals, nothing is below a prefix, nor below the rest under it |
| SatLexsat.Lexsat | lib/abcsat/satSolver.cpp:2207-2267 | when no model is below the given literals, they become the least model, or there is none; the assumptions are restored |
| SatMinimize.Join | lib/abcsat/satSolver.cpp:2273-2342 | two parts that are irredundant under each other are irredundant together |
| SatMinimize.Minimize | lib/abcsat/satSolver.cpp:2273-2342 | the returned prefix still refutes the clauses, and without a limit dropping any one of its literals does not; the array is a permutation inside its range |
| SimpMerge.Merge | lib/abcsat/SimpSolver.cpp:223-252 | false if and only if the clauses clash outside v, otherwise the resolvent |
| SimpMerge.MergeSize | lib/abcsat/SimpSolver.cpp:256-283 | the same answer, and the length of the resolvent that the other version makes |
| SimpMerge.ResolventHolds | lib/abcsat/SimpSolver.cpp:223-252 | the resolvent holds if and only if another literal of one of the two clauses holds |
| SimpSolver.Simplifier.AddClause | lib/abcsat/SimpSolver.cpp:129-165 | both directions of the meaning are kept for the clauses with the new one; false means they have no model; no unit or false clause is left when there was none before; a stored clause is queued |
| SimpSolver.Simplifier.AddLits | lib/abcsat/Glucose.cpp:220-282 | what is stored and assigned afterwards means exactly what it did together with the clause |
| SimpSolver.Simplifier.StrengthenClause | lib/abcsat/SimpSolver.cpp:183-219 | exactly this literal goes, or the clause when only a unit is left, and it is queued; dropping an implied-superfluous literal keeps the meaning, or shows there is no model |
| SimpStore.Subsumes | lib/abcsat/abc/SolverTypes.h:395-424 | 1 if and only if all literals are in the other clause, 2 with the one literal that is there negated, 0 only when neither holds |
| SimpSolver.Simplifier.BackwardSubsumptionCheck | lib/abcsat/SimpSolver.cpp:335-399 | subsumption and strengthening keep the meaning exactly, only remove clauses and literals, and end; unless interrupted, no clause that was queued or has lost literals, and no literal newly true, subsumes or strengthens a stored clause that was short enough |
| SimpSweep.AllQuiet | lib/abcsat/SimpSolver.cpp:366-378 | to look through the shortest list of one of its variables is enough for a clause |
| SimpRecords.ExtendModel | lib/abcsat/SimpSolver.cpp:578-592 | the backward scan over the flat vector computes the extension by records, newest first, and defines every variable |
| SimpElim.Reversed | lib/abcsat/SimpSolver.cpp:453-541 | the default value, then the recorded side, turn an assignment that satisfies resolvents and the rest into one that satisfies all clauses |
| SimpReplace.EliminatedComplete | lib/abcsat/SimpSolver.cpp:479-541 | after an elimination every assignment that satisfies what is stored still extends to a model of all clauses given |
| SimpSolver.Simplifier.EliminateVar | lib/abcsat/SimpSolver.cpp:479-541 | models are kept in both directions over any run; the variable goes if and only if its resolvents are no more than the clauses with it plus `grow` and none is too long, all said of the clauses before; then what is stored is satisfied by exactly the assignments that can be changed at the variable to satisfy what was stored; otherwise nothing changes; false means no model |
| SimpWorth.GrowthWorth | lib/abcsat/SimpSolver.cpp:494-502 | counting over the split occurrence lists decides the condition on the stored clauses |
| SimpSolver.Simplifier.FewResolvents | lib/abcsat/SimpSolver.cpp:494-502 | exactly when the resolvents are no more and no longer than allowed |
| SimpSolver.Simplifier.Eliminate | lib/abcsat/SimpSolver.cpp:595-684 | the loop keeps both directions, never eliminates a frozen variable, and eliminates each variable of the order exactly when it is unassigned, unfrozen, not eliminated and worth it at its turn; nothing is left in the subsumption queue |
| SimpSolver.Simplifier.ExtendModel | lib/abcsat/SimpSolver.cpp:578-592 | a model of what is left becomes a model of all clauses given, and other variables keep their values |
| SimpSolver.Simplifier.NewVar | lib/abcsat/SimpSolver.cpp:70-83 | a new variable changes no meaning |
| GlucoseAssumptions.MinimizeAssumptions | lib/abcsat/AbcGlucose.cpp:251-293 | over exact verdicts: the literals before the pivot stay, those after it are permuted, and the first ret of them refute the clauses while dropping any one does not |
| GlucoseMinimise.MinimiseBinary | lib/abcsat/Glucose.cpp:425-463 | the in-place partition keeps position 0 and drops exactly the literals whose negation a binary clause of the first literal implies |
| GlucoseMinimise.MinimisedEntailed | lib/abcsat/Glucose.cpp:425-463 | the shortened clause is still implied |
| CubInit.CubInit | lib/nauty/cubhamg.c:279-312 | the numbering of the edges: each edge once, in both directions the same number, ends in order; half as many as filled slots |
| CubHam.Ham.Propagate | lib/nauty/cubhamg.c:313-366 | nothing is left to force, or the node is refused because no cycle agrees with it; YES exactly when the chosen edges form a Hamiltonian cycle |
| CubHam.Ham.ClassOut | lib/nauty/cubhamg.c:368-385 | the edge is out, both degrees go up, and the change is on the stack |
| CubHam.Ham.ClassIn | lib/nauty/cubhamg.c:387-443 | the edge joins two paths, the far ends of the joined path point at each other, no short cycle is closed, and no agreeing cycle is lost |
| CubUndo.PoppedOnce | lib/nauty/cubhamg.c:477-535 | one entry of the stack takes one change back exactly |
| CubSteps.AllTried | lib/nauty/cubhamg.c:445-541 | when the three edges of a vertex have been tried no agreeing cycle is left |
| CubHam.Ham.HamNode | lib/nauty/cubhamg.c:445-541 | NO: no Hamiltonian cycle agrees with the node; YES: one has been found; HABORT if and only if the node limit is passed; the counter grows by the distinct nodes of the tree searched; everything can be undone |
| CubTree.BelowDistinct | lib/nauty/cubhamg.c:445-541 | the nodes of a search are pairwise different sets of choices, so none is counted twice |
| CubTree.BelowFew | lib/nauty/cubhamg.c:445-541 | a search below k open edges has at most T(k) nodes, where T(k + 1) = 1 + 3 T(k) |
| CubStart.Answer | lib/nauty/cubhamg.c:621-639 | the walked cycle is Hamiltonian, agrees with the initial classes, and is what the final classes say |
| CubHam.Ham.Cubham | lib/nauty/cubhamg.c:544-641 | YES with a Hamiltonian cycle that uses all forced and no forbidden edges, NO exactly when there is none; the nodes are counted one by one and bounded by the number of edges, so a limit not below the bound never aborts |
| CubLowpoint.CutVertex | lib/nauty/cubhamg.c:1370-1381 | a child that does not reach above its parent shows that the parent is a cut vertex |
| CubLowpoint.SearchedConnected | lib/nauty/cubhamg.c:1370-1381 | a search that has visited everything and found no such child shows that there is no cut vertex |
| CubBiconnected.BiconnectedCub | lib/nauty/cubhamg.c:1328-1383 | true exactly when there are three vertices, the graph is connected and has no cut vertex |
| CubBiconnected.BiconnectedCubV | lib/nauty/cubhamg.c:1386-1443 | the same for the graph without one vertex |
| CubBiconnected.TriconnectedCub | lib/nauty/cubhamg.c:1516-1527 | true exactly when there are four vertices and taking away any two leaves the graph connected, although the last vertex is never taken away alone |
| PermGraph.PermInvar | lib/nauty/genrang.c:51-75 | the least edge set with the original edges that the permutation maps into itself, although rows grow while they are scanned |
| PermGraph.InvariantBoth | lib/nauty/genrang.c:51-75 | on such an edge set the permutation is an automorphism |
| EsopRules.Telescope | lib/abcesop/exorLink.cpp:114-294 | along a group the cubes are the differences of neighbouring products, from the first cube to the second |
| EsopRules.GroupIdentity | lib/abcesop/exorLink.cpp:114-294 | for all 2, 6 and 24 groups and any values the cubes of the group add up to the two cubes |
| EsopRules.EveryCubeInGroup | lib/abcesop/exorLink.cpp:236-294 | every cube of the tables is in some group |
| EsopLink.LinkIdentity | lib/abcesop/exorLink.cpp:376-680 | every group made of two cubes at distance 2, 3 or 4 has their function, for every output and input |
| EsopLink.MaskMatches | lib/abcesop/exorLink.cpp:114-226 | the literal masks select in each position the bit of the rule of that position |
| EsopLink.MaskedCount | lib/abcesop/exorLink.cpp:422-448 | counting the masked bits gives the literals that the rules put into the differing positions |
| EsopLink.CountPair | lib/abcesop/exorLink.cpp:422-448 | the base and the counts of all cubes, from the mask built position by position |
| EsopLink.CostIsLiterals | lib/abcesop/exorLink.cpp:450-456 | the cost of a group is, up to the common base, the number of literals of its cubes |
| EsopWords.FillWords | lib/abcesop/exorLink.cpp:405-418 | clearing and inserting fields in the words replaces exactly the given variables |
| EsopWords.FilledIsRule | lib/abcesop/exorLink.cpp:528-533 | filling in the codes of the rule gives the inputs of the cube of the table |
| EsopWords.CreateWords | lib/abcesop/exorLink.cpp:376-533 | words that hold two cubes are turned into words that hold the table cube, inputs and outputs, exactly when the distance is the expected one |
| EsopIter.LinkIterator.Start | lib/abcesop/exorLink.cpp:376-557 | at the expected distance the first group exists, the costliest of all, with exact literal counts, and the cover is unchanged; otherwise nothing happens |
| EsopIter.LinkIterator.Next | lib/abcesop/exorLink.cpp:560-680 | the costliest group not visited yet, its missing cubes created, or the end when all have been visited |
| EsopPass.CleanUp | lib/abcesop/exorLink.cpp:710-741 | created cubes that are not taken go back to the free list |
| EsopList.Exorcism.AddToFreeCubes | lib/abcesop/exorCubes.cpp:157-172 | the freed cube heads the free list, with ID zero |
| EsopList.Exorcism.GetFreeCube | lib/abcesop/exorCubes.cpp:174-183 | the cube freed last, with the contents it had then |
| EsopList.Exorcism.CubeInsert | lib/abcesop/exorList.cpp:824-841 | the cube heads the linked list of the cover |
| EsopList.Exorcism.CubeExtract | lib/abcesop/exorList.cpp:843-867 | exactly this cube leaves the list |
| EsopList.Exorcism.IterNext | lib/abcesop/exorList.cpp:1073-1107 | the first pair from the place read next on whose IDs still match, both cubes in the cover, or the end when there is none; every pair before it is skipped |
| EsopList.Exorcism.CheckForCloseCubes | lib/abcesop/exorList.cpp:643-748 | the function of the cover with the cube is kept; the gain is the number of cubes saved, 0 if and only if every cube is at distance two or more; other cubes keep contents, IDs and marks; with room the queues keep their pairs and get all pairs of the inserted cube at enabled distances |
| EsopCheck.UndoRestores | lib/abcesop/exorList.cpp:750-786 | with the changed part set back the cover has its old function and the pool its old cubes |
| EsopList.Exorcism.UndoRecentChanges | lib/abcesop/exorList.cpp:750-786 | the last merge is taken back: both cubes are restored, as the freed one still heads the free list |
| EsopApply.TryTwo | lib/abcesop/exorList.cpp:277-400 | the cover shrinks if and only if the pair has distance two and a cube of one of its two groups is within distance one of another cube; without that the last group is taken, or when literals count, exactly when some group has fewer literals; the function is kept and the free pool complete again |
| EsopApply.TryThree | lib/abcesop/exorList.cpp:405-519 | a group is taken if and only if the pair has distance three and a cube of one of its six groups is within distance one of another cube; when literals count every group that is left is far, or has more literals after its one merge; the function is kept and the cover does not grow |
| EsopFour.TryFour | lib/abcesop/exorList.cpp:524-625 | the 24 groups are tried, each once, until one gains two cubes; a group that is left has only far cubes, or one that can be merged once and nothing near afterwards; a cube is passed over if and only if an earlier group has tested it without a gain; the function is kept and the cover does not grow |
| EsopGain.TakenFour | lib/abcesop/exorList.cpp:543-612 | a pair at distance four is replaced only when some cube of its tables is close to another cube of the cover |
| EsopReduce.ApplyExorLink | lib/abcesop/exorList.cpp:277-625 | a whole pass keeps the function and never adds cubes, whatever the queue holds; the gain is exact; every pair from the place read next to the end of the queue is read, and tried if and only if its IDs match when it is read |
| EsopReduce.ReduceEsopCover | lib/abcesop/exor.cpp:206-334 | the rounds end, after 1 + quality of them in a row, passes in the order of the source, that gain nothing, then come the ten passes that count literals; the function is kept, the cover does not grow, and in the last rounds literals do not increase at equal size; the earlier rounds count literals only if the flag was set before |
| EsopTrace.IdleFound | lib/abcesop/exor.cpp:226-275 | no pair at distance two that the idle rounds read could be improved |
| EsopTrace.CoverShrinks | lib/abcesop/exor.cpp:226-275 | a cover with pairs at distance two, all queued and all improvable, gets smaller |
| EsopMain.AddCubesToStartingCover | lib/abcesop/exor.cpp:705-769 | for such terms, the starting cover has the function of the terms and no more cubes than terms; when no two terms could be merged its cubes are those of the terms; with places for all pairs every pair at distance two is queued with its IDs |
| EsopMain.Minimize | lib/abcesop/exor.cpp:782-957 | for terms as its only caller makes them, of distinct variables: the cubes have the function of the terms, there are no more of them, and no two could be merged; false exactly when there are too many terms; they are what the recorded reduction ends with, and fewer than at its start when there all pairs at distance two could be improved; the literal flag is clear in the early rounds |
| EsopExample.FewerCubes | lib/abcesop/exor.cpp:782-957 | for x0 x1, x0' x1' and x1 x2 every run ends with fewer than three cubes |
| EsopFront.ExorcismCubes | include/mockturtle/algorithms/exorcism.hpp:52-75 | any list of cubes of up to 32 variables, in and out as bits and masks: the same exclusive or, no more cubes, each two different at two variables, the result of a reduction of the starting cover, and smaller than it when all pairs at distance two could be improved |
| EsopFront.ToTerm | include/mockturtle/algorithms/exorcism.hpp:56-65 | the literals of the masked variables, each once and in order, mean the cube |
| EsopBits.GetDistance | lib/abcesop/exorBits.cpp:221-250 | the distance of the cubes in the words, capped at 5, for any number of words |
| EsopBits.GetDistancePlus | lib/abcesop/exorBits.cpp:253-309 | the same; at distance one in an input the differing variable, merged in place by exclusive or |
| EsopBits.FindDiffVars | lib/abcesop/exorBits.cpp:311-370 | the differing variables in order, the outputs first, when there are at most four, and their number |
| EsopBits.ExorVar | lib/abcesop/exorBits.cpp:204-209 | exactly this variable changes, by exclusive or of the codes |
| EsopBits.HeldDistance | lib/abcesop/exorBits.cpp:221-370 | words that hold two cubes have their distance and differing variables, whatever pads the last words |

## Left out

- Clause arena and vectors of `satSolver.cpp`: a map from handles to literals; handles are not renumbered by
  `sat_solver_reducedb`, and which unlocked learnt clauses go is left open.
- Activities are the integer kind (`VarActType` 0); clause activities, LBD, restart statistics, the random
  source and progress reports are choices left open.
- Limits on time, inspections and by callback are one flag that may be raised at any look.
- `sat_solver_rollback`, `sat_solver_minimize_assumptions2`, the clause store, proof output, `fSolved` and printing.
- SatSolver.Solver.AddClause: nothing more is promised of a solver that has lost a clause than its exact state.
- SatSolver.Solver.Solve: that a solver which is not ready answers wrongly is shown by a run only.
- SatSolver.Solver.Propagate: the statement of the watch invariant is that closed prefixes stay closed; times
  of assignment within a level are not compared.
- Glucose: propagation with blockers, its analysis and restarts, selectors and the incremental mode.
- GlucoseAssumptions.MinimizeAssumptions: the solver behind it is an exact oracle; a conflict budget that
  leaves a call undecided is not modelled.
- SimpSolver.Simplifier.Propagate: unit clauses are found by looking at all clauses in any order, not by
  watches; `n_occ`, the elimination heap and touched marks only steer the order and are a parameter.
- SimpStore.Subsumes: the tests of length and abstraction before the search, which only rule out clauses that
  would not match, are not modelled.
- SimpSolver.Simplifier.Eliminate: without asymmetric branching, the redundancy check of new clauses
  (both off by default) and `substitute`.
- SimpSolver.Simplifier.ExtendModel: that the solver defines every variable not eliminated is assumed of
  the caller; the search between `eliminate` and `extendModel` is not part of it.
- GlucoseMinimise.MinimiseBinary: for clauses below the LBD bound; others are left alone.
- CubHam.Ham.Cubham: stacks are sequences, edge numbers unbounded; relabelling, property tests other than the
  connectivity tests, and `main` of `cubhamg.c`.
- CubBiconnected.BiconnectedCub: local arrays are sequences in one record; `biconnected_v`, the same search on
  a bit matrix, and the unused part of the stack are not modelled.
- `genrang.c` apart from `perminvar`.
- EsopList.Exorcism.CheckForCloseCubes: cubes are abstract here; `EsopBits` shows that the word loops compute
  their distance and merge. The tables `SparseNumbers` and `GroupLiterals` are taken as the positions of set bits.
- EsopList.Exorcism.IterNext: `fEmpty` is always set, so a full queue may overwrite its oldest pairs; IDs wrap
  from 255 to 1. A match means that both cubes are in the cover, not that they are at the distance of the queue.
- EsopList.Exorcism.CheckForCloseCubes: what a check leaves in the queues is said for queues with room for as many
  pairs as the cover has cubes; without room the oldest pairs are overwritten.
- EsopMain.AddCubesToStartingCover: that all pairs are queued is said when the queue has places for them all.
- EsopFour.TryFour: which of several close cubes a merge takes depends on the order of the list and is left open.
- EsopMain.Minimize: terms have distinct variables, as `exorcism.hpp` makes them; for a term with a variable in
  both polarities the code would keep the last one. Statistics and the check of marks are left out. The
  constants 33 and 20 are those of `lib/abcesop/eabc/exor.h:68-71`.
- EsopFront.ExorcismCubes: a cube is its two words of 32 bits; `esop_from_optimum_pkrm` is not part of this model.
- Quantum cost (`GetQCost`, `ToffoliGateCount`): only compared, so its values are left open.
