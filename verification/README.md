# libpcap: the filter compiler and the BPF buffer reader, in Dafny

This project models two parts of libpcap 1.5.3 and proves what they are for.

**The filter compiler's back end.** Expressions over packets become conditions built from basic blocks by backpatching
(`gencode.c`); the graph of blocks is analysed and rewritten (`optimize.c`); the result is laid out as a flat array of
instructions with long jumps where a byte displacement does not reach. The machine (accumulator A, index X, 16 scratch
words, 32-bit wrap-around arithmetic, faults that reject the packet) is defined once, in `Machine.dfy`. A graph has its own
run function, which ends because branches go down in level, and a flat array has another, which ends because jumps go
forward. Every pass is a statement about these two.

**The BPF buffer reader** (`pcap-bpf.c`). Two buffers are shared with the kernel and change hands through generation
counters; the records of a buffer are walked over by calls that can stop and resume at any packet; together they deliver
the passing records of all buffers, once and in order.

## How the parts fit together

| module | contents |
|---|---|
| `Machine`, `Graph`, `Flat` | words, statements, tests, runs of graphs and of arrays, the validator |
| `Composition`, `Backpatching`, `FilterGraph` | conditions, exit lists threaded through blocks, gen_and / gen_or / gen_not, finish_parse |
| `Arithmetic`, `Relation` | the register allocator, compiled expressions, comparisons and protocol checks |
| `Wlan` | byte-string comparison and the 802.11 source-address filter |
| `Levels`, `Dominance` | levels, reachability, dominators, edge dominators, backward closure |
| `Liveness`, `DeadStores` | what is read later, and removal of what is not |
| `ValueTable`, `Numbering`, `NumberingPass` | the hashed value table, symbolic evaluation of statements and of whole filters |
| `Peephole`, `BlockPass`, `Sweep` | local rewriting of a block and of its comparison; opt_blk, on one block and on all; when a sweep with the liveness from before it keeps results |
| `Threading`, `Dependence`, `BranchPass` | jump threading, of one edge in any filter, and right after the sweep of the same round |
| `Pullup`, `Interning` | moving a test up its chain, merging equal blocks |
| `Layout`, `Lowering` | emission order, long-jump flags, the emitted array |
| `Optimizer`, `Rounds`, `Compiler` | the passes in turn; any number of rounds over the branches; from an expression to a program |
| `Limits`, `SweepLimits`, `PullLimits`, `ThreadLimits` | inputs on which a rewriting changes the result without its hypothesis |
| `Zbuf`, `ReadLoop`, `ZeroCopy` | the two-buffer protocol, the record walk, and the zero-copy reader made of both |

Blocks are *self-contained* if they write every atom (A, X or a scratch word) before they read it. This is proved of
everything `Arithmetic` and `FilterGraph` build, and kept by every step of the rounds in which branches are moved: by the
sweep without statement rewriting (`BlockPass.SweptAgain`), by threading and by pull-ups, which change only branches. The
source moves branches in no other rounds (`libpcap-1.5.3/optimize.c:1570-1575`). Rewriting may remove or move loads, so
optimizer theorems are about runs that do not fault (`Preserves`), and what pull-up does to faults is stated exactly.
Lowering, interning and composition hold for every packet, faults included.

Some promises of the code do not hold as they stand. Each has a member that gives an input on which it fails, or says
exactly when it does, and members that say when it holds.

| promise | fails | holds |
|---|---|---|
| dropping a move between atoms of equal number | number 0 | `Limits.DropMoveIff`, exactly otherwise |
| jset with all ones always branches | accumulator 0 | `Peephole.FoldJsetIff`, `BlockPass.OptPeep`, exactly otherwise |
| merging an indexed access | `Limits.GroupChangesX` | `Peephole.GroupSame`, `BlockPass.ProperSafe` |
| an accessor's protocol check is made | `Relation.RightCheckForgotten` | `Relation.AllChecksMade`, exactly |
| numbers and liveness of one sweep agree | `SweepLimits.StoreDeletedTwice` | `Sweep.SweepPreserves`, `Sweep.ClosedPreserves`, `Optimizer.SweepRound` |
| use_conflict finds every dependency | `Limits.SkipMissesStore`, for given numbers and liveness; block 2 is not self-contained, so no round hands such a graph to opt_j | `Dependence.StepPreserves`, `Threading.ThreadJumps` |
| edge dominators outlast the sweep | `ThreadLimits.MaskRejectsAll` | `BranchPass.SweptBasis`, `Rounds.ManyRounds` |
| value numbers outlast the sweep | `ThreadLimits.MergeConfusesTests` | `BranchPass.SweptBasis`, `BranchPass.PlainEndsAlike`, `Rounds.ManyRounds` |
| dominators outlast jump threading | `PullLimits.PullupWithStaleDominators` | `Pullup.PulledExact`, exactly; `Pullup.DominatedAtTop` |
| pull-up keeps faults | `PullLimits.PullupHidesFault` | `Pullup.PulledAtTopExact`, exactly |

`dafny verify dfyconfig.toml` checks the whole project.

## Model

| member | source | states |
|---|---|---|
| `Compiler.CompileProgram` | libpcap-1.5.3/gencode.c:425-490 | For every filter expression and snapshot length: compilation fails exactly when the snapshot length is 0, an access size is illegal or a comparison needs more than 16 registers; otherwise the validator accepts the emitted array, and on every packet and register file it returns the snapshot length if the expression holds, 0 if it does not, and faults exactly when the expression has no value |
| `Compiler.CompileOptimized` | libpcap-1.5.3/gencode.c:478-486 | Threading, statement rewriting, dead-store removal and interning, once each and each with fresh analyses, without the sweeps and the pull-ups. The program does on every packet and register file what the optimized graph does, which returns what the graph of the expression returns wherever that does not fault; so on every packet for which the expression has a value the program answers as it says. The validator accepts it exactly when no reachable block of the optimized graph divides by the constant 0. For an expression that fits it fails only if a reachable block of its graph, which is a comparison of the expression without a value on any packet or a protocol check, faults on every packet |
| `Compiler.CompileRounds` | libpcap-1.5.3/gencode.c:478-486 | Compilation with any number of rounds over the branches, each with the sweep and with threading by the analyses from before the sweep, up to the pull-ups: it succeeds exactly when the snapshot length is not 0 and the expression fits. The program does on every packet and register file what the optimized graph does, in which after one round nothing is left to merge, and which returns what the graph of the expression returns wherever that does not fault; so on every packet for which the expression has a value the program answers as it says. The protocol checks are asked to end as the generator's tests do |
| `Compiler.CompileGraph` | libpcap-1.5.3/gencode.c:472-477 | The graph built for an expression, or for none, is acyclic, has proper blocks, each of them a mere return, a comparison of the expression that decides as its values compare, or a test of one of its protocol checks, and runs on every packet as the expression evaluates |
| `Compiler.Build` | libpcap-1.5.3/grammar.y:325-328 | Boolean combinations of comparisons become one condition with the short-circuit meaning that makes the tests of these comparisons and of their checks and no others; every comparison gives its registers back |
| `Compiler.FaultFrom` | libpcap-1.5.3/gencode.c:6882-6926 | If the code of a test of the expression faults on every packet, a comparison of the expression has no value on any packet, or one of its protocol checks faults on every packet |
| `Compiler.GraphFit` | libpcap-1.5.3/gencode.c:6882-6926 | The graph of every expression whose protocol checks end as the generator's tests do is fit for a round over the branches |
| `Compiler.LoadCheckPlain` | libpcap-1.5.3/gencode.c:741-765 | A check that compares a loaded field with a constant, or tests bits of it other than all of them, computes what it reads and ends as asked |
| `Optimizer.Optimize` | libpcap-1.5.3/optimize.c:1676-1700 | Threading, statement rewriting, dead-store removal and interning one after another: the result returns what the original filter returns on every run that does not fault; it fails only if a reachable block faults on every packet |
| `Optimizer.BranchRound` | libpcap-1.5.3/optimize.c:1646-1670 | Jump threading with numbers and edge dominators computed for the same graph keeps the result of every non-faulting run and self-containedness |
| `Optimizer.SweepAndThread` | libpcap-1.5.3/optimize.c:1556-1582 | The round as the source makes it: analyses, sweep over all blocks, then jump threading with the numbers and edge dominators from before the sweep. Every edge leads exactly as far as these decide, every block stays self-contained, and every non-faulting result is kept if the filter is Threadable: every peephole rewriting is safe, no masked value is compared with 0, and blocks that compare the same value for equality all end in a subtraction or none does |
| `Rounds.Round` | libpcap-1.5.3/optimize.c:1644-1670 | A round over the branches up to the pull-ups, with its own analyses, on a filter whose tests all are as the generator makes them or all have nothing left to merge: every non-faulting result is kept, nothing is left to merge afterwards, and the swept and the threaded filter are what the analyses of this filter say |
| `Rounds.ManyRounds` | libpcap-1.5.3/optimize.c:1644-1670 | So any number of such rounds keeps every non-faulting result of such a filter |
| `Rounds.PlainMerges` | libpcap-1.5.3/optimize.c:783-851 | opt_peep and opt_deadstores leave of a test as the generator makes it one with which nothing can be merged: a subtraction from a scratch register is merged and the load before it stays |
| `Rounds.MergedStays` | libpcap-1.5.3/optimize.c:783-851 | A test with which nothing can be merged stays one |
| `Rounds.RestLocal` | libpcap-1.5.3/optimize.c:654-782 | If a block does not read X between an indexed access and the next statement that sets it, nor does its test, the rewritten block does not either |
| `Optimizer.ThreadAndPull` | libpcap-1.5.3/optimize.c:1556-1590 | The same up to a pull-up: the edges of the threaded graph are listed anew and one chain is examined with the dominators from before; the move made is the one the scans find, and the runs it changes are exactly the disturbed ones |
| `Optimizer.SweepRound` | libpcap-1.5.3/optimize.c:1556-1576 | One sweep of opt_blk over all blocks of any filter, with or without statement rewriting: the filter as opt_stmt leaves it (loads and moves statement by statement, the others by their effect), after the special case and at the end is described for every block. Every non-faulting result is kept if no block reads an unnumbered atom, which no self-contained one does, and every block is finished as it would be with the liveness of the rewritten filter; or if every block of the result is self-contained and the rewritings are safe. Without statement rewriting self-contained blocks stay so |
| `Optimizer.StmtRound` | libpcap-1.5.3/optimize.c:1556-1568 | On self-contained blocks no statement reads an unnumbered atom, so rewriting all statements keeps every non-faulting result; it fails only if a reachable block faults on every packet |
| `Optimizer.DeadRound` | libpcap-1.5.3/optimize.c:477-500 | Freshly computed liveness makes dead-store removal over the whole filter keep every non-faulting result |
| `Optimizer.OptInit` | libpcap-1.5.3/optimize.c:1961-1969 | The table size computed is three numbers per remaining statement and per block |
| `Machine.ExecAppend` | libpcap-1.5.3/bpf/net/bpf_filter.c:211-545 | Running two statement lists in a row is running their concatenation, faults included |
| `Flat.ValidatesIff` | libpcap-1.5.3/bpf/net/bpf_filter.c:547-686 | The validator accepts exactly the programs whose every jump and fall-through stays inside, that end in a return and do not divide by the constant 0 |
| `Graph.RunLevelIrrelevant` | libpcap-1.5.3/optimize.c:192-226 | What a filter returns does not depend on the levelling used to show that it ends |
| `Levels.Leveller.FindLevels` | libpcap-1.5.3/optimize.c:213-226 | Levels are the exact heights, and the level lists hold each reachable block once, at its level |
| `Levels.Leveller.FindLevelsR` | libpcap-1.5.3/optimize.c:192-207 | Exactly the blocks below the start become marked, each filed at its height |
| `Levels.HeightBound` | libpcap-1.5.3/optimize.c:192-207 | No level reaches the number of blocks, so the level table is large enough |
| `Dominance.FindDom` | libpcap-1.5.3/optimize.c:232-260 | After one top-down sweep the set of a reachable block is exactly the blocks on every path to it |
| `Dominance.FindEdom` | libpcap-1.5.3/optimize.c:262-296 | The set of a reachable edge is exactly the edges on every path that ends with it |
| `Dominance.FindClosure` | libpcap-1.5.3/optimize.c:305-327 | The set of a reachable block is exactly the reachable blocks that reach it |
| `Dominance.DomExact` | libpcap-1.5.3/optimize.c:237-259 | One sweep is a fixed point that is both sound and complete for all paths |
| `Dominance.EdomExact` | libpcap-1.5.3/optimize.c:262-296 | The same for edges |
| `Dominance.ClosureExact` | libpcap-1.5.3/optimize.c:305-327 | The same for backward reachability |
| `Liveness.ExecUsesAndDefs` | libpcap-1.5.3/optimize.c:335-403 | The atoms a statement is said to read and write determine its effect completely |
| `Liveness.LiveInSound` | libpcap-1.5.3/optimize.c:416-472 | States that agree on what is live before a list fault together and agree on what is live after it |
| `Liveness.InUseSound` | libpcap-1.5.3/optimize.c:477-500 | Two states that agree on the in_use of a block give the same final result from it |
| `DeadStores.ComputeLocalUd` | libpcap-1.5.3/optimize.c:416-472 | The local sets give backward liveness through the block for every set of atoms live after it |
| `DeadStores.FindUd` | libpcap-1.5.3/optimize.c:477-500 | in_use and out_use of every reachable block are exactly the atoms live on entry and on exit over all paths |
| `DeadStores.DeadStmt` | libpcap-1.5.3/optimize.c:1102-1124 | The pending definitions are exactly those not read since, and an overwritten pending one is deleted |
| `DeadStores.OptDeadstores` | libpcap-1.5.3/optimize.c:1126-1144 | Exactly the statements whose result is never read are deleted |
| `DeadStores.SweptSound` | libpcap-1.5.3/optimize.c:1102-1144 | A list without its dead statements leaves the live atoms as before whenever it did not fault |
| `DeadStores.SweptReads` | libpcap-1.5.3/optimize.c:1126-1144 | A list without its dead statements reads no atom that the list did not read |
| `DeadStores.DeadStoresPreserve` | libpcap-1.5.3/optimize.c:1126-1144 | From every reachable block the swept filter returns the same value, even from a state that agrees only on the live atoms |
| `DeadStores.OptDeadstoresAll` | libpcap-1.5.3/optimize.c:1126-1144 | The whole filter after dead-store removal returns the same value whenever the original did not fault |
| `ValueTable.KeyInjective` | libpcap-1.5.3/optimize.c:508-571 | Distinct values have distinct table keys, and exactly immediate loads look constant |
| `ValueTable.Table.F` | libpcap-1.5.3/optimize.c:542-571 | A value gets the number it already has, or else the next one: equal numbers exactly for equal values, every number within the table |
| `ValueTable.Table.Find` | libpcap-1.5.3/optimize.c:552-556 | The hash bucket finds a value exactly when the table holds it |
| `ValueTable.Table.ConstantOf` | libpcap-1.5.3/optimize.c:556-561 | A number is marked constant exactly when it stands for an immediate load, with that value |
| `ValueTable.DenStable` | libpcap-1.5.3/optimize.c:542-571 | Adding values never changes what an older number denotes |
| `NumberingPass.MaxvalSuffices` | libpcap-1.5.3/optimize.c:1961-1969 | The table size covers two numbers per statement and one per branch of a whole pass |
| `Numbering.OptStmt` | libpcap-1.5.3/optimize.c:917-1100 | Every statement: the new numbers denote what is written, the rewritten statement has the same effect on every state the numbers describe, at most two numbers are used; it fails only where every state with these operand values faults |
| `Numbering.FoldOp` | libpcap-1.5.3/optimize.c:586-635 | Folding a constant operation gives the machine result, and fails exactly for division by 0 |
| `Numbering.VStoreOk` | libpcap-1.5.3/optimize.c:573-580 | Dropping a statement whose target already has the new number keeps its effect |
| `Numbering.OptAluZeroA` | libpcap-1.5.3/optimize.c:1035-1055 | An operation on an accumulator known to be 0 becomes a move or a constant with the same effect |
| `NumberingPass.OptStmts` | libpcap-1.5.3/optimize.c:1194-1197 | A whole list after rewriting has the same effect on every state the entry numbers describe, unless it faults |
| `NumberingPass.FindInedges` | libpcap-1.5.3/optimize.c:1593-1619 | The list of each block holds every edge into it from a reachable block, once |
| `NumberingPass.Inherit` | libpcap-1.5.3/optimize.c:1162-1193 | At a join an atom keeps a number only if all predecessors agree on it, and does if they agree |
| `NumberingPass.NumberBlocks` | libpcap-1.5.3/optimize.c:1556-1568 | One top-down pass numbers all reachable blocks consistently without exceeding the table |
| `NumberingPass.NumberingSound` | libpcap-1.5.3/optimize.c:1162-1197 | On every run, at every block it reaches, each atom with a nonzero number holds the value that number denotes |
| `NumberingPass.RewritePreservesRoot` | libpcap-1.5.3/optimize.c:1556-1576 | The filter with all statements rewritten returns what the original returns on every run that does not fault |
| `Limits.DropMoveIff` | libpcap-1.5.3/optimize.c:573-580 | Dropping a move between atoms of equal number is right on all described states if and only if the number is not 0 |
| `Peephole.PeepStmts` | libpcap-1.5.3/optimize.c:654-782 | The loop over pairs of statements makes exactly the list that the three local rules give, one pair after another, and finds where it ends |
| `Peephole.PeepListRight` | libpcap-1.5.3/optimize.c:654-782 | The list rewritten by the three local rules leaves the same atoms and faults on the same runs, X being exempt only where nothing at or after the end reads it; it reads no more than before; the statement taken for the last one is the arithmetic that ends the list, exactly if there is one |
| `Peephole.GroupSame` | libpcap-1.5.3/optimize.c:703-781 | The indexed-access merge keeps everything but X, which is enough when X is not read before it is set again |
| `Peephole.MergeEnd` | libpcap-1.5.3/optimize.c:783-851 | A subtraction or mask merged into an equality test takes the same branch on every run; the test is turned round exactly for a mask |
| `Peephole.FoldJsetIff` | libpcap-1.5.3/optimize.c:853-862 | Treating jset #0 as never and jset #ffffffff as always is right if and only if it is not the all-ones test of a zero accumulator with two different targets |
| `Peephole.PeepBlock` | libpcap-1.5.3/optimize.c:654-908 | On every run on which the known constants hold, the rewritten block leaves what its successors read as it was, and goes to the same successor exactly if it is not the all-ones test of a zero accumulator with two targets; it ends exactly as the closing arithmetic and the constants say and reads no more than before |
| `BlockPass.AluNotConstant` | libpcap-1.5.3/optimize.c:556-561 | After arithmetic the accumulator never has the number of a constant, so a known accumulator is never merged with the arithmetic before the test |
| `BlockPass.OptPeep` | libpcap-1.5.3/optimize.c:654-908 | The peephole rules with the constants of the block's own exit numbers: on every run that leaves the numbered values the successor is the same exactly if the all-ones rule is not at fault |
| `BlockPass.ProperSafe` | libpcap-1.5.3/optimize.c:710-717 | Blocks that do not use the index of an access again, as the generator's do not, are safe for the indexed-access rule |
| `BlockPass.OptBlk` | libpcap-1.5.3/optimize.c:1146-1236 | opt_blk as a whole, opt_stmt, the special case, opt_peep and opt_deadstores on one block: in every state that its entry numbers describe and from which it does not fault, the block leaves what is used after it as before and goes to the same successor exactly if the all-ones rule is not at fault; it fails only where every such state faults |
| `BlockPass.OptBlkIn` | libpcap-1.5.3/optimize.c:1146-1236 | Replacing one block of a numbered filter by the block that opt_blk makes of it keeps every non-faulting result of the filter, if the rewriting of the block as opt_stmt leaves it is safe; that block is described by its effect and, for loads and moves, statement by statement |
| `BlockPass.OptBlks` | libpcap-1.5.3/optimize.c:1556-1568 | All reachable blocks are numbered consistently, each from its predecessors and statement by statement, each is finished exactly as opt_blk says, and the operands of the tests they then end with are numbered within the table |
| `Sweep.UnharmedPreserves` | libpcap-1.5.3/optimize.c:1194-1221 | A sweep keeps every non-faulting result if, with `used` covering what is read after each block of the result, every block is finished as it would be if `used` was known to be read after it |
| `Sweep.SweepPreserves` | libpcap-1.5.3/optimize.c:1556-1568 | The liveness of the filter after its statements were rewritten and trimmed covers the result; so it is enough that every block is finished with the liveness from before as it would be with that one |
| `Sweep.AtomsLeft` | libpcap-1.5.3/optimize.c:1194-1221 | A block is finished so if, for the atoms that have come to be read after it, no arithmetic is merged if A is among them, no indexed access if X is, and no statement that sets one of them is deleted as dead |
| `Sweep.ClosedPreserves` | libpcap-1.5.3/optimize.c:1556-1568 | If every block of the result is self-contained nothing is read after any block, so a sweep whose rewritings are safe keeps every non-faulting result |
| `BlockPass.SweptAgain` | libpcap-1.5.3/optimize.c:1644-1670 | Self-contained blocks stay self-contained under a sweep that rewrites no statements, and returns stay empty |
| `Limits.GroupChangesX` | libpcap-1.5.3/optimize.c:710-717 | In a self-contained list that reads X after an indexed access the merge changes the result, on every packet long enough for the access |
| `SweepLimits.StoreDeletedTwice` | libpcap-1.5.3/optimize.c:1556-1576 | The sweep with statement rewriting, applied to a filter of self-contained blocks, deletes both of two stores: one by the numbers, one by the liveness from before. The filter accepts packets whose first two bytes are equal and not 0; the result compares the second byte with whatever the word held before it ran, and rejects the packet [7, 7] |
| `SweepLimits.SecondFormed` | libpcap-1.5.3/optimize.c:573-580 | By the numbers that the first block leaves, the second neither loads the byte nor stores it again |
| `SweepLimits.FirstRest` | libpcap-1.5.3/optimize.c:1126-1144 | The store of the first block is removed as dead |
| `Threading.UseConflict` | libpcap-1.5.3/optimize.c:1250-1264 | A conflict is reported exactly when some atom the target leaves in use has different exit numbers |
| `Threading.FoldEdgeDecides` | libpcap-1.5.3/optimize.c:1266-1316 | The successor chosen for a block is the one it takes on every run that came along the deciding edge |
| `Threading.RedirectPreserves` | libpcap-1.5.3/optimize.c:1318-1370 | Redirecting an edge keeps every non-faulting result if, on every run that takes the edge, its target goes on to the new one |
| `Threading.EdomStaysExact` | libpcap-1.5.3/optimize.c:1577-1582 | Redirections at or below the level of an edge leave its edge dominators exactly as computed |
| `Threading.OptJ` | libpcap-1.5.3/optimize.c:1318-1370 | The edge is redirected exactly as far as the edges listed for it decide without a conflict, until a return or nothing decides further; no other edge changes; no result changes if what is listed is right for the runs of the filter |
| `Threading.ThreadJumps` | libpcap-1.5.3/optimize.c:1577-1582 | The whole pass from low levels to high, with numbers and edge sets of this graph or of an earlier form of it: every edge leads exactly as far as they decide, unreachable blocks are unchanged, nothing new becomes reachable; every non-faulting result and self-containedness are kept if they are right for the runs of the filter |
| `Limits.SkipAllowed` | libpcap-1.5.3/optimize.c:1250-1264 | use_conflict looks at what leaves the target, so it allows a block to be skipped whose store the target reads |
| `Limits.SkipMissesStore` | libpcap-1.5.3/optimize.c:1318-1370 | On that filter skipping the block changes the result: threading needs a target that computes what it reads |
| `Dependence.NoConflictCarries` | libpcap-1.5.3/optimize.c:1250-1264 | In any numbered filter, if use_conflict finds none, the target computes all it reads itself and what it passes on has known numbers, then every atom read from the target on leaves both blocks with the same known number |
| `Dependence.FoldGoes` | libpcap-1.5.3/optimize.c:1266-1316 | In any numbered filter a block whose numbers are known goes, on every run that takes the edge into it, where fold_edge says |
| `Dependence.PromotePreserves` | libpcap-1.5.3/optimize.c:1318-1370 | In any filter, also one whose blocks read what others have set, promoting an edge past its target keeps every non-faulting result if the target goes to the new one and every atom read from there on leaves both blocks with the same known number |
| `Dependence.StepPreserves` | libpcap-1.5.3/optimize.c:1318-1370 | One step of opt_j in any numbered filter, past a block with equal successors or past one that a dominating edge decides, keeps every non-faulting result if use_conflict finds nothing, the new target computes all it reads itself and the numbers relied on are known |
| `BranchPass.ReadTruth` | libpcap-1.5.3/optimize.c:783-851 | What the numbers found before the sweep say about a test, in terms of the test after the sweep: a comparison merged with a subtraction is read through the subtraction that the number names |
| `BranchPass.SweptPath` | libpcap-1.5.3/optimize.c:1556-1576 | The path a packet takes through the swept filter it takes, edge by edge, through the original, if no masked value is compared with 0 |
| `BranchPass.SweptFolds` | libpcap-1.5.3/optimize.c:1266-1316 | With the numbers from before the sweep fold_edge decides every block as its runs do, if also blocks that compare the same value for equality all end in a subtraction or none does |
| `BranchPass.SweptBasis` | libpcap-1.5.3/optimize.c:1556-1582 | Under these conditions everything jump threading relies on holds of the swept filter, though it was computed before the sweep |
| `BranchPass.PlainEndsAlike` | libpcap-1.5.3/optimize.c:783-851 | Filters whose equality tests compare with a constant what the last statement loads or computes, as the generator's do, meet the condition on subtractions |
| `ThreadLimits.MaskRejectsAll` | libpcap-1.5.3/optimize.c:837-851 | On a filter that compares the same masked byte with 0 twice, the round turns the tests round but not the edge dominators: the optimized filter rejects every packet, also one that the filter accepts |
| `ThreadLimits.MergeConfusesTests` | libpcap-1.5.3/optimize.c:826-835 | On a filter that compares the same difference in a block that ends in the subtraction and in one that ends in a move, the round skips the second block: a rejected packet is accepted |
| `Pullup.EnteredAlongChain` | libpcap-1.5.3/optimize.c:1396-1435 | A chain member dominated by the first block can be entered from reachable blocks only from the member before it |
| `Pullup.PulledExact` | libpcap-1.5.3/optimize.c:1441-1460 | For any chain and any edges redirected, whatever the dominators said: the result of a run changes exactly if it is disturbed, that is, it enters the rearranged part by an edge from which the tests it then meets end it differently |
| `Pullup.PulledAtTopExact` | libpcap-1.5.3/optimize.c:1441-1460 | If the rearranged part is entered at its top only, the result changes exactly if the run comes to it, the shared target returns, and one of the moved block and the blocks it passes faults while the other takes the shared side; if no block of the part faults, nothing changes |
| `Pullup.DominatedAtTop` | libpcap-1.5.3/optimize.c:1396-1435 | With dominators that are right for the graph every chain the scans find is entered at its top only |
| `Pullup.ScanChain` | libpcap-1.5.3/optimize.c:1391-1433 | The scan finds exactly the first chain block of the wanted kind, or that there is none |
| `Pullup.RedirectAll` | libpcap-1.5.3/optimize.c:1446-1458 | Exactly the listed edges into the block lead to the moved block afterwards |
| `Pullup.PullUp` | libpcap-1.5.3/optimize.c:1373-1554 | or_pullup and and_pullup with any dominators and numbers: the graph changes exactly when the predecessors agree and both scans succeed, then as the rewriting says; the result is acyclic, and exactly the disturbed runs end differently |
| `Pullup.SeriesKeeps` | libpcap-1.5.3/optimize.c:1584-1590 | A run that none of a series of pull-ups disturbs ends as it did before the first |
| `Pullup.ListsStay` | libpcap-1.5.3/optimize.c:1584-1590 | After a pull-up the lists of edges made before it are still exact for every block but those of the rearranged part and the one after it |
| `PullLimits.PullupHidesFault` | libpcap-1.5.3/optimize.c:1556-1590 | The round, with its own dominators and numbers, makes this move: a packet too short for a skipped test is rejected before and accepted after |
| `PullLimits.PullupWithStaleDominators` | libpcap-1.5.3/optimize.c:1556-1590 | The round, with the dominators from before threading, moves a test in front of a block that threading enters from elsewhere: on a packet with no load out of range the result goes from 1 to 0 |
| `Interning.EqSlist` | libpcap-1.5.3/optimize.c:1729-1746 | Two lists are equal exactly when they are the same up to deleted statements |
| `Interning.EqBlk` | libpcap-1.5.3/optimize.c:1748-1757 | Two blocks are equal exactly when list, comparison and targets are |
| `Interning.RelinkPreserves` | libpcap-1.5.3/optimize.c:1793-1797 | Sending branches to equal blocks keeps the result on every packet, faults included |
| `Interning.SlackDrops` | libpcap-1.5.3/optimize.c:1759-1800 | The sum of distances of branch targets from the last index falls with every changing round |
| `Interning.InternBlocks` | libpcap-1.5.3/optimize.c:1759-1800 | Interning ends, keeps every run from every block, and leaves no two equal reachable blocks that are still branched to |
| `Lowering.IcodeToFcode` | libpcap-1.5.3/optimize.c:2166-2194 | For every acyclic graph: the array is exactly filled and well formed, ends in a return, runs from index 0 as the graph runs from its root on every packet and register file; the validator accepts it exactly when no reachable block divides by the constant 0; long jumps stand exactly where a target is out of reach; at most 2n+1 attempts are made |
| `Lowering.Emitter.CountStmts` | libpcap-1.5.3/optimize.c:1879-1889 | The count is exactly the code size of the blocks newly marked |
| `Lowering.Emitter.ConvertCodeR` | libpcap-1.5.3/optimize.c:1994-2145 | On success exactly the blocks below are emitted, successors behind their block, at their offsets; on failure one new, needed flag is set |
| `Lowering.Emitter.EmitTerm` | libpcap-1.5.3/optimize.c:2106-2143 | A branch reaches its targets directly or through one or two inserted jumps, or sets the flag of a target out of reach |
| `Lowering.Emitter.Attempt` | libpcap-1.5.3/optimize.c:2176-2189 | An attempt fills its array exactly, or sets one more flag |
| `Lowering.FinishedPreserves` | libpcap-1.5.3/optimize.c:1994-2194 | The finished array runs as the graph does |
| `Lowering.FinishedJumps` | libpcap-1.5.3/optimize.c:2108-2143 | In the finished array a branch has a long jump exactly when its target is out of a byte reach |
| `Lowering.FinishedValidates` | libpcap-1.5.3/optimize.c:1994-2194 | The finished array holds exactly the statements of the reachable blocks, so the validator accepts it exactly when none of them divides by the constant 0 |
| `Layout.FarStays` | libpcap-1.5.3/optimize.c:2111-2117 | Setting more flags never brings a target back into reach |
| `Layout.FlagsStayNeeded` | libpcap-1.5.3/optimize.c:2114-2117 | Flags set by failed attempts stay needed |
| `Layout.OrderTopological` | libpcap-1.5.3/optimize.c:2004-2011 | Blocks are emitted after their successors, each once, and all reachable ones |
| `Flat.LayoutPreserves` | libpcap-1.5.3/optimize.c:2020-2143 | Any array in which every reachable block is placed and its branches are routed runs as the graph does |
| `Backpatching.Generator.NewTest` | libpcap-1.5.3/gencode.c:358-368 | A new test block is a fragment that means its test |
| `Backpatching.Generator.Backpatch` | libpcap-1.5.3/gencode.c:533-549 | Exactly the blocks of the exit list get the target on their open side |
| `Backpatching.Generator.Merge` | libpcap-1.5.3/gencode.c:555-567 | The second list is appended to the first and nothing else changes |
| `Backpatching.Generator.GenAnd` | libpcap-1.5.3/gencode.c:610-620 | Two disjoint fragments become one that means the short-circuit conjunction; blocks outside are unchanged |
| `Backpatching.Generator.GenOr` | libpcap-1.5.3/gencode.c:622-631 | Two disjoint fragments become one that means the short-circuit disjunction; blocks outside are unchanged |
| `Backpatching.Generator.GenNot` | libpcap-1.5.3/gencode.c:633-638 | The fragment means the negation |
| `Backpatching.Generator.Compile` | libpcap-1.5.3/grammar.y:325-328 | Any nesting of tests, and, or, not becomes a fragment with the short-circuit meaning, whose blocks make exactly its tests |
| `Composition.AndMeans` | libpcap-1.5.3/gencode.c:610-620 | The link surgery of gen_and preserves the exit-list invariant and composes meanings |
| `Composition.OrMeans` | libpcap-1.5.3/gencode.c:622-631 | gen_or is gen_and on flipped senses, with the meaning of a disjunction |
| `Composition.NotMeans` | libpcap-1.5.3/gencode.c:633-638 | Flipping the sense of the last block swaps the exit lists and negates the verdict |
| `FilterGraph.FinishParse` | libpcap-1.5.3/gencode.c:569-608 | The finished graph is acyclic and returns the snapshot length exactly when the condition holds, 0 when it does not, and faults exactly when it faults |
| `FilterGraph.CompileFilter` | libpcap-1.5.3/gencode.c:533-638 | The same for any expression built from tests on new blocks; every block makes one of these tests or is a mere return |
| `Arithmetic.Allocator.AllocReg` | libpcap-1.5.3/gencode.c:7030-7046 | A free register is found exactly when there is one, and only it becomes busy |
| `Arithmetic.Allocator.FreeReg` | libpcap-1.5.3/gencode.c:7052-7057 | Only the given register becomes free |
| `Arithmetic.Allocator.GenLoad` | libpcap-1.5.3/gencode.c:6649-6880 | The item at the index is left in a new register; it fails exactly for an illegal size or when no second register is free |
| `Arithmetic.Allocator.GenNeg` | libpcap-1.5.3/gencode.c:6966-6982 | The negated value is left in the same register |
| `Arithmetic.Allocator.GenArth` | libpcap-1.5.3/gencode.c:6984-7008 | The result is left in a register taken after both operands are given back; it never fails |
| `Arithmetic.Allocator.Compile` | libpcap-1.5.3/grammar.y:612-627 | For every expression tree: the code leaves the 32-bit value in the result register, faults exactly when the tree has no value, overwrites no register in use before, reads nothing it has not computed; it compiles exactly when the registers suffice |
| `Arithmetic.BinComputes` | libpcap-1.5.3/gencode.c:6983-7008 | The left value survives the right operand, and the operator is applied in the right order |
| `Relation.GenRelation` | libpcap-1.5.3/gencode.c:6882-6926 | The condition makes the operands' protocol checks and then compares the two values, for every operator and its reverse; both registers are given back |
| `Relation.RelationTests` | libpcap-1.5.3/gencode.c:6882-6926 | A comparison behind its checks makes the tests of the checks of its operands and one more, which decides as the two values compare |
| `Relation.CompileRelation` | libpcap-1.5.3/grammar.y:420-423 | A comparison compiles exactly when 16 registers are enough |
| `Relation.RelationNoLocalUse` | libpcap-1.5.3/gencode.c:6882-6926 | In the code of every comparison X is set anew after each indexed access before it is read, so the generator makes no local use that the indexed-access rule would disturb |
| `Relation.GuardMakes` | libpcap-1.5.3/gencode.c:6770-6865 | The check attached to an expression makes exactly the listed checks, in order |
| `Relation.AllChecksMade` | libpcap-1.5.3/gencode.c:6983-7008 | Every accessor's check is made if and only if no arithmetic operator has a guarded accessor in its right operand |
| `Relation.AcceptedIsChecked` | libpcap-1.5.3/gencode.c:6909-6922 | Under that condition only packets that pass every accessor's check are accepted |
| `Relation.RightCheckForgotten` | libpcap-1.5.3/gencode.c:6983-7008 | Otherwise a frame whose type field does not say IP can be accepted by an expression on its IP header |
| `Wlan.GenBcmp` | libpcap-1.5.3/gencode.c:695-732 | For every byte string: the built tests conclude that the packet holds it at the offset, byte for byte, and fault exactly when the packet is too short |
| `Wlan.SourceMatchIff` | libpcap-1.5.3/gencode.c:3841-3861 | The test holds exactly on management and data frames whose source address, at 10, 16 or 24 as section 7.2.2 of IEEE 802.11-2007 says, is the given one |
| `Wlan.GenWlanSource` | libpcap-1.5.3/gencode.c:3839-3986 | The fragment built step by step concludes this on every frame, complete or cut short |
| `Wlan.WlanSourceFilter` | libpcap-1.5.3/gencode.c:3839-3986 | The whole filter returns the snapshot length exactly on frames with that source address |
| `Zbuf.RunInv` | libpcap-1.5.3/pcap-bpf.c:266-305 | Every state of every interleaving of kernel and reader steps satisfies the ownership and order invariant, with 32-bit generation counters that wrap |
| `Zbuf.HeldIsSafe` | libpcap-1.5.3/pcap-bpf.c:276-305 | While the reader has a buffer the kernel does not own it and its contents are those handed over |
| `Zbuf.LookIsExact` | libpcap-1.5.3/pcap-bpf.c:282-303 | The reader finds no new buffer exactly when all contents handed over are processed |
| `Zbuf.InOrder` | libpcap-1.5.3/pcap-bpf.c:852-874 | What is processed is at all times a prefix of what is handed over, and at most two buffers are outstanding |
| `Zbuf.StepInv` | libpcap-1.5.3/pcap-bpf.c:266-305 | Each single step keeps the invariant |
| `Zbuf.Channel.NextZbufShm` | libpcap-1.5.3/pcap-bpf.c:276-305 | With the kernel running in between: 1 and the length of the oldest unprocessed contents, or 0 only if everything handed over before the call is processed |
| `Zbuf.Channel.ReadByte` | libpcap-1.5.3/pcap-bpf.c:985-1000 | A byte read from the buffer in hand is the byte handed over |
| `Zbuf.Channel.AckZbuf` | libpcap-1.5.3/pcap-bpf.c:412-422 | The contents in hand become processed, once, and the buffer goes back |
| `ReadLoop.OwedStep` | libpcap-1.5.3/pcap-bpf.c:985-1056 | Walking over one record delivers it exactly if it passes, and leaves the rest owed |
| `ReadLoop.Handle.Walk` | libpcap-1.5.3/pcap-bpf.c:944-1059 | For any count and any timing of break requests: delivered records plus those still pending that pass are exactly those handed over that pass, in order; it stops early only for the count or a break; each request is answered once |
| `ReadLoop.Handle.Stop` | libpcap-1.5.3/pcap-bpf.c:969-987 | Where to go on is remembered; stepping past the end by word alignment leaves nothing |
| `ReadLoop.Handle.Await` | libpcap-1.5.3/pcap-bpf.c:838-866 | A pending break request is answered before anything is read; otherwise, with the buffer used up, the attempt that counts is the first that is not to be repeated |
| `ReadLoop.Handle.Read` | libpcap-1.5.3/pcap-bpf.c:823-1060 | The same over a whole call. A request pending at its start is answered at once. Otherwise the call goes on with the buffer at hand or, if that is used up, with what the first attempt not to be repeated gives: the records handed over grow by exactly those of its buffer, a failure is reported exactly for a failed attempt, and 0 is returned if there is no data |
| `ReadLoop.Handle.Resume` | libpcap-1.5.3/pcap-bpf.c:944-947 | Going on with the rest of a buffer keeps the same account of what is delivered and owed |
| `ZeroCopy.Capture.NextZbuf` | libpcap-1.5.3/pcap-bpf.c:314-404 | Looking, waiting, looking again and asking the kernel to rotate: 1 with the oldest unprocessed contents in hand, or 0 or an error only if everything handed over before the call is processed |
| `ZeroCopy.Capture.Contents` | libpcap-1.5.3/pcap-bpf.c:985-1000 | What the walk reads of the buffer in hand, while the kernel runs, is what was handed over |
| `ZeroCopy.Capture.Release` | libpcap-1.5.3/pcap-bpf.c:862-864 | A used-up buffer is given back before the next is asked for |
| `ZeroCopy.Capture.Fetch` | libpcap-1.5.3/pcap-bpf.c:861-872 | One attempt: the next buffer handed over is taken and walked over; or there is an error or none, and everything handed over before the attempt has been taken |
| `ZeroCopy.Capture.Read` | libpcap-1.5.3/pcap-bpf.c:823-1060 | A whole call over the shared buffers, with the kernel running in between: a request pending at its start is answered at once; a buffer in hand is gone on with; otherwise a call that returns a count has taken exactly the next buffer handed over. It reports what it delivered, at most the count, leaves records behind only for the count or a break, and answers every break request once |
| `ZeroCopy.Capture.Delivered` | libpcap-1.5.3/pcap-bpf.c:823-1060 | After any calls that use up their buffers, the packets delivered are exactly the passing records of all buffers taken, in order, and these are the first the kernel handed over |

## Left out

- Threading.RedirectPreserves: is about self-contained blocks, as the rounds that move branches have them. For filters whose blocks read what others have set, `Dependence.StepPreserves` gives one redirection; a series of them with one liveness analysis is not covered.
- Threading.OptJ: keeps results for self-contained blocks, for the same reason; where its edge leads is stated for all.
- Threading.ThreadJumps: keeps results for self-contained blocks, for the same reason; where its edges lead is stated for all.
- Optimizer.SweepAndThread: the condition is sufficient; `Rounds.Round` discharges it for the filters of `Compiler.CompileRounds`.
- Rounds.Round: without the pull-ups, which change some results (`PullLimits`); filters that compare a masked value with 0 are outside its condition.
- Optimizer.ThreadAndPull: one pull-up, with the edge lists of the threaded graph. The source goes on with the same lists; `Pullup.ListsStay` says for which blocks they stay exact, and a pull-up at one of the others is not modelled.
- Pullup.SeriesKeeps: one direction only, since what one pull-up changes another may change back.
- Optimizer.SweepRound: the conditions are sufficient; an atom that has come to be read need not influence the result.
- Dependence.NoConflictCarries: asks for known numbers, because use_conflict takes two unknown numbers for equal; the other direction is not claimed, since unknown values can be equal.
- Dependence.StepPreserves: the condition is sufficient; a read of an atom need not influence the result.
- Peephole.PeepBlock: the effect is stated for blocks in which X is not read after an indexed access. The other direction of that condition is not claimed: a read of X need not influence the result.
- Peephole.GroupSame: gives a sufficient condition only, for the same reason.
- Optimizer.Optimize: one round of each pass, with analyses computed afresh, instead of opt_loop's repetition until nothing changes; sweeps with peephole rewriting are composed in `Optimizer.SweepRound` and, any number of times, in `Rounds.ManyRounds`, pull-ups in `Optimizer.ThreadAndPull`.
- Optimizer.BranchRound: threads without the sweep that comes before it in the source, which `Optimizer.SweepAndThread` includes.
- Optimizer.StmtRound: rewrites statements only; `Optimizer.SweepRound` includes the rest of opt_blk.
- Compiler.CompileOptimized: says only what follows when optimization fails, a comparison or check that faults on every packet, and not exactly when it does.
- Compiler.CompileRounds: without statement rewriting and pull-ups; bit tests and checks that compare a masked value with 0 or subtract otherwise than comparisons do are outside its condition.
- Flat.ValidatesIff: opcodes and scratch-memory indices are right by the types of instructions and need no check.
- FilterGraph.FinishParse: without insert_compute_vloffsets and the PPI check.
- Arithmetic.Allocator.GenLoad: fixed header offsets only, no variable-length link-layer headers.
- Wlan.GenBcmp: assumes offsets below 2^32, so that the sum of offset and length does not wrap.
- BlockPass.OptBlks: numbers all blocks, then rewrites them, then numbers the operands of their tests; the source does this block by block, which gives the same numbers other names.
- ReadLoop.Handle.Read: a 32-bit time stamp and word alignment to 4 bytes; buffers are sequences of whole records, as the kernel delivers them.
- ZeroCopy.Capture.Read: the bytes of a buffer are looked at in order and walked over as a copy; waiting, time-outs and signals are three outcomes of the wait.
- opt_root, and the check for a filter that rejects all packets, which needs it.
- The convergence of opt_loop: the code has no decreasing measure.
- Jumps inside statement lists (Prism and AVS headers, protochain), which switch the optimizer off.
- The scanner, and the grammar beyond boolean and arithmetic expressions.
- Shifts by 32 or more, undefined in C: both the machine and constant folding shift in zeros.
- The wrap-around of a load's bound check near 2^32: an address out of range is a fault.
- Block, edge and atom sets are sets rather than bit vectors, marks are a set rather than a counter, blocks are indices rather than pointers, and statement lists are sequences, so sharing of list cells is not captured.
- The displacement of an inserted long jump is not bounded to 32 bits.
- Memory exhaustion and the longjmp error exits: errors are results.
- Link-type tables and the other gen_ functions; gen_wlanhostop for directions other than the source.
- Device back ends, activation, interface enumeration and name lookup.
