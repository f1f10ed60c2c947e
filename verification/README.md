# A verified model of the tbasic compiler, optimizer and virtual machine

tbasic compiles a small BASIC-like language in one pass: a recursive-descent parser writes stack-machine
instructions as it reads tokens, builds no tree, and patches jump displacements once their targets are
known. A peephole pass then rewrites `load; load; arithmetic` in place, and a virtual machine runs the
result, recursing on the native stack for calls and unwinding it for exceptions. This project models that
path from token sequence to final result, and the three data structures around it: the bytecode file
format and its loader, the dictionary objects, and the object heap with its sweep.

## What is proved

**Source to result.** `Semantics` gives every program a meaning on trees and names, without a stack or
jumps. `Driver.Interpret` compiles, optimizes and runs with the imperative code of the other modules and
ends with the status, the value and the error that the meaning gives. The steps in between:

- `Compiler` is the single-pass compiler as a class whose methods emit and patch. Each method is proved
  to leave in its buffers exactly what parsing the phrase, declaring its names and generating the code of
  its tree would leave, and to fail exactly when one of these is impossible.
- `ParserRoundTrip` shows that the grammar the ladder accepts is the intended one: printed trees, with
  the parentheses they need and no others, are read back, so the printed form is unambiguous.
- `Precedence`, `ValueLaws` and `Decimals` say what expressions mean in terms a reader of the language knows:
  which operators bind tighter, what the operators and tests do to integers, numbers and bits, and that
  literals are read as decimal numbers. They relate the operators to each other and to plain arithmetic
  instead of repeating how each is computed.
- `Simulation` is compiler correctness: from any machine state that holds a source state, the code of any
  expression or statement runs to a state that holds the meaning's outcome. Its statement includes the
  exact height of the stack. IF, WHILE and FOR leave one value for each test that came out falsy, because
  the conditional jump pops its operand only when it falls through.
- `CallCases` and `Simulation.SimApply` are the calling convention, for any recursion, and the unwinding
  of exceptions across frames.
- `CatchSearch` and `EndToEnd.MainScan` show that the forward scan for a CATCH is bracket matching, in
  functions and in top-level code.
- `Jumps` and `EndToEnd.JumpsAreSound` show that all backpatching is complete and that no jump of
  compiled code leads into a window the optimizer fuses.
- `OptimizerRefinement` shows that optimized and original code run in lockstep.
- `Vm` is the machine as a class over one array, with native recursion for calls. It refines the step
  function of `Machine` on whole runs, for whatever values the array holds in slots that were never
  written.

**Where the code does less than its name suggests.** These are stated exactly, not worked around:

- Fusing a window keeps its meaning if and only if the id packed into the flag byte is below 256 and the
  window is not a constant followed by a local under `-` or `/` (`OptimizerRefinement.FusionExact`).
  `WorkedPrograms.OptimizerTurnsSubtractionAround` is a program that fails it: it means -2 and returns 2.
- `&&` and `||` leave one value if and only if the left side decides them; otherwise they also consume the
  temporary below, or the frame's last slot when there is none. Prefix `?` always leaves two (`Shortcuts`).
- A dictionary behaves like a map on a set of keys if and only if no two of them share a hash; 5 and 256
  do, and so do `NIL` and 0 (`Dict.ExactIffApart`, `Dict.SomeKeysCollide`).
- A saved program loads back if and only if its strings and chunks are not empty and its constants are
  nil, truth values, integers or 16-bit string ids (`LoadRoundTrip.LoadsBackIff`).
- A sweep is safe if and only if no unmarked id in its range is free already, so freed ids that nobody
  took again make the next sweep follow a null pointer (`Gc.SweepAgain`).
- A function has one slot for each parameter if and only if the parameter names differ
  (`Slots.ParamCountIff`).

`WorkedPrograms` also follows one program, with an exception that crosses a call, from its tokens to its
result, so that the conditions of the end-to-end theorem are seen to be met.

## Reading order

`Values`, `Bytecode`, `Machine`, `Syntax`, `Parser`, `Scoping`, `Codegen`, `Semantics` are the vocabulary;
`Compiler`, `Optimizer`, `Vm`, `Loader`, `Dict`, `Heap`, `Gc`, `Driver` are the imperative parts; the other
modules are proofs. `VUndef` is a stack slot nobody wrote. `Fine` (in `Frames`) is the relation between a
machine state and a source state; `Reach`, `Pushed`, `Ran`, `Threw` and `AtReturn` say where a run has come to.

## Model

| member | source | states |
|---|---|---|
| `Driver.Interpret` | src/driver.c:158-227 | For a source that compiles within 16-bit sizes, whose windows pass the fusion guard and whose meaning is reached with some fuel, on a stack with room for the run: compiling, optimizing and running it ends with the status, the returned value or the uncaught error of its meaning. |
| `Driver.Compile` | src/driver.c:145-162 | Succeeds exactly when the source has chunks, and gives each of them optimized. |
| `EndToEnd.SourceToOptimizedRun` | src/driver.c:145-218 | Under the same conditions on source, sizes and windows, one halting run is made by the chunks and by the optimized chunks, in the same number of steps, and ends as the meaning says. |
| `EndToEnd.ProgramRuns` | src/compiler.c:2053-2104 | If a tree compiles within 16-bit sizes and its meaning finishes, its chunks run to a halt with the status, value and error of its meaning, and in front of the last RET every global variable is in its slot with the value the meaning gives it. |
| `EndToEnd.JumpsAreSound` | src/compiler.c:1323-1591 | In every chunk of every program that compiles within 16-bit sizes no jump placeholder is left, every target is inside the chunk, tests jump forward only, and no jump leads into a fused window. |
| `EndToEnd.SimUnits` | src/compiler.c:2026-2051 | Top-level statements run one after the other like their meanings, each in the scope it was compiled in. |
| `Fuel.OneMeaning` | src/vm.c:1504-1510 | A meaning found with some fuel stays the same with more, so a program has at most one meaning. |
| `Fuel.CallLimits` | src/vm.c:907-937 | Calls have a meaning up to depth 255 and up to 32,767 arguments, and no further. |
| `WorkedPrograms.RescuePromised` | src/compiler.c:1634-1665 | A program whose function throws into a CATCH of its caller meets every condition of the end-to-end theorem, from its tokens to the height of its stack. |
| `WorkedPrograms.RunRescue` | src/driver.c:158-227 | The machine returns 2 for it with status ok. |
| `WorkedPrograms.OptimizerTurnsSubtractionAround` | src/optimizer.c:15-29 | A function returning `1 - x`, called with 3, means -2 and returns -2 from its chunks, but its optimized chunks halt with 2. |
| `EndToEnd.MainScan` | src/vm.c:1482-1502 | In the top-level chunk, a search from any position of any statement with the flag set stops at the CATCH of the innermost enclosing TRY, or at the closing RET if there is none. |
| `Simulation.SimExpr` | src/compiler.c:829-1145 | Whenever the tree evaluates to a value or throws, its code, from any stack in that source state, pushes exactly that value and leaves the slots below as the evaluation does, or throws like it; `??` runs its right side on NIL only. |
| `Simulation.SimArgs` | src/compiler.c:790-827 | Arguments end on the stack in order, one slot each. |
| `Simulation.SimCallExpr` | src/vm.c:907-950 | A call expression pushes the value of the call, or throws, with the caller's frame as it was. |
| `Simulation.SimApply` | src/vm.c:907-991 | A completed call leaves exactly one value where the callee was, with bp, chunk, frames and depth restored, for any recursion; a callee that throws leaves NIL there and the search goes on in the caller. |
| `Simulation.SimStmt` | src/compiler.c:1712-1741 | Whenever a statement has a meaning, its code takes the machine where the meaning goes: behind the statement, to the loop's exit or repeater, to a RET with the value on top, or to the handler; the stack has grown by exactly the number of values the meaning says are left behind. |
| `Simulation.SimIf` | src/compiler.c:1323-1370 | IF and IF/ELSE run the branch their test selects; a falsy test leaves its value on the stack. |
| `Simulation.SimWhile` | src/compiler.c:1372-1422 | WHILE runs as long as its meaning, BREAK and CONTINUE included. |
| `Simulation.SimFor` | src/compiler.c:1424-1545 | FOR runs initializer, test, body and update in the order of its meaning, although the update is laid out before the body. |
| `Simulation.SimTry` | src/vm.c:993-1027 | The handler runs exactly when the protected part throws in this frame or below, with the flag cleared and the locals intact. |
| `Simulation.SimStore` | src/compiler.c:1203-1253 | LET and `:=` write the variable's slot and no other, and leave no value. |
| `Simulation.SimUse` | src/compiler.c:1593-1710 | RET, THROW and expression statements use up the value of their expression. |
| `CallCases.CallMove` | src/vm.c:907-938 | Calling a compiled function enters it with its parameters in the first slots and its remaining locals reserved. |
| `CallCases.RetStep` | src/vm.c:971-991 | One RET restores the caller's bp, chunk and depth, drops the callee's slots and puts the result, or NIL when an exception is pending, where the call began. |
| `CallCases.LeaveMove` | src/vm.c:939-949 | Back in the caller the variables have their values, the globals those the callee gave them, and the result is on top. |
| `CallCases.LeaveThrow` | src/vm.c:982-988 | An exception that reaches the closing RET of a callee pops its frame and continues as an exception behind the call, with the caller's variables intact. |
| `Frames.WriteMove` | src/vm.c:156-181 | Storing a variable changes that name and no other, in this frame and among the globals. |
| `Frames.ReadMove` | src/vm.c:147-172 | Loading a name pushes its value, whichever of the tables knows it. |
| `Shortcuts.OneValueIffDecided` | src/compiler.c:1147-1201 | Short-circuit AND and OR leave one value if and only if their left side decides them. |
| `Shortcuts.UndecidedEatsOne` | src/vm.c:833-905 | Undecided, they end with their right side's value on top and the temporary below the node gone. |
| `Shortcuts.UndecidedDropsOne` | src/vm.c:858-861 | An undecided node reaches its right side with one temporary fewer than before the node, whether or not the right side finishes. |
| `Shortcuts.BareNodeIffDecided` | src/compiler.c:1147-1201 | With no temporary under it, the node ends with its one value if and only if the left side decides; otherwise its POP meets an empty operand stack and takes the frame's last slot. |
| `Shortcuts.FloorIsVariable` | src/compiler.c:1156-1162 | In a function that slot is a variable's. |
| `Shortcuts.NullishLeavesTwo` | src/vm.c:459-468 | Prefix `?` leaves the checked value under its answer. |
| `CatchSearch.FunctionScan` | src/vm.c:1482-1502 | In the chunk of a function, a search from any position of the body with the flag set stops at the CATCH of the innermost enclosing TRY, or at the closing RET if there is none. |
| `CatchSearch.ScanFinds` | src/vm.c:1482-1502 | From any position inside a statement the search finds its innermost handler, or whatever a search behind the statement finds. |
| `CatchSearch.ScanBalanced` | src/compiler.c:1634-1665 | Inside at least one TRY, a search passes over a whole statement as if it were not there. |
| `Machine.ScanStops` | src/vm.c:1482-1502 | A search that stays in the code stops at a CATCH or at the closing RET, never before where it began. |
| `Jumps.StmtJumps` | src/compiler.c:1323-1591 | Every jump in the code of a statement is patched, stays inside the chunk and misses the inside of every window; control never enters behind a load. |
| `Jumps.ExprJumps` | src/compiler.c:857-892 | The same for expressions, whose only jumps are those of `??` and of the short-circuit operators. |
| `Backpatch.ClosingPatches` | src/compiler.c:479-506 | Patching exactly the recorded BREAK and CONTINUE positions turns the code of an open loop body into the code with known targets, and changes nothing else. |
| `Shapes.ProgramBound` | src/compiler.c:1547-1591 | In a program that compiles, BREAK and CONTINUE are always inside a loop of the same function, and updates of FOR are simple. |
| `Compiler.Compiler.DoSource` | src/compiler.c:2053-2104 | The whole pass gives exactly the chunks of the parsed program, and nothing when it does not parse or a declaration is not allowed. |
| `Compiler.Compiler.DoStmt` | src/compiler.c:2026-2051 | One top-level statement or function extends the program by what its tree gives; fails exactly when that is impossible. |
| `Compiler.Compiler.DoFunc` | src/compiler.c:1775-1853 | A FUN adds one chunk, recorded before its body so that it can call itself, and leaves the top-level tables and loops alone. |
| `Compiler.Compiler.DoFuncBody` | src/compiler.c:1806-1850 | Parameters, RESERVE patched with the number of other locals, body and closing RET make the function's chunk. |
| `Compiler.Compiler.DoBlock` | src/compiler.c:1743-1773 | A block is compiled like the sequence of its statements. |
| `Compiler.Compiler.DoVars` | src/compiler.c:1203-1253 | LET declares each name once and stores into its slot. |
| `Compiler.Compiler.DoExprStmt` | src/compiler.c:1667-1710 | Tells assignments from expressions by the saved target and emits the store or the pop. |
| `Compiler.Compiler.DoIfs` | src/compiler.c:1323-1370 | The patched code of IF and IF/ELSE is that of the tree. |
| `Compiler.Compiler.DoWhile` | src/compiler.c:1372-1422 | The code of WHILE, with its exit, BREAK and CONTINUE jumps patched, is that of the tree. |
| `Compiler.Compiler.DoFor` | src/compiler.c:1424-1545 | The code of FOR, with its four kinds of jumps patched, is that of the tree. |
| `Compiler.Compiler.DoTryCatch` | src/compiler.c:1634-1665 | The code of TRY/CATCH, with the jump over the handler patched, is that of the tree. |
| `Compiler.Compiler.DoJump` | src/compiler.c:1547-1591 | BREAK and CONTINUE record their positions with the innermost loop and fail outside of one. |
| `Compiler.Compiler.PatchLoop` | src/compiler.c:1402-1418 | Writes the displacement of every recorded position and touches nothing else. |
| `Compiler.Compiler.DoNullCoal` | src/compiler.c:857-892 | Both sides and the two patched jumps of `??` are the code of the tree. |
| `Compiler.Compiler.CloseCoal` | src/compiler.c:880-889 | Emits the jump over the result of `??` and gives both jumps their displacements. |
| `Compiler.Compiler.DoLevel` | src/compiler.c:894-1145 | The eight left-associative rungs, `* /` to `< >`, consume and emit what the grammar's rung gives; `Precedence` says in which order they nest. |
| `Compiler.Compiler.DoAnd` | src/compiler.c:1147-1173 | One `&&` at most between two comparisons; its code, with the jump patched, is that of the tree. |
| `Compiler.Compiler.DoOr` | src/compiler.c:1175-1201 | The same for short-circuit OR, the top of the ladder. |
| `Compiler.Compiler.DoUnary` | src/compiler.c:829-855 | Prefix `~` and `?` come after their operand's code. |
| `Compiler.Compiler.DoCall` | src/compiler.c:790-827 | Callee, arguments, CALL with their number. |
| `Compiler.Compiler.DoLiteral` | src/compiler.c:592-739 | Literals, names and parenthesised expressions; a name in front of `:=` is saved as a target and emits nothing. |
| `Compiler.Compiler.ResolveName` | src/compiler.c:258-277 | Functions first, then global variables, then locals. |
| `Compiler.Compiler.RecordConstant` | src/compiler.c:332-353 | One id for each lexeme of the current table, and the values of the lexemes, as `Decimals` reads them, among the chunk's constants at those ids. |
| `Compiler.Compiler.RecordVariable` | src/compiler.c:294-330 | A known variable keeps its slot, a new one gets the next. |
| `Scoping.Find` | src/compile_utils.c:90-101 | The first entry with this name and domain. |
| `ParserRoundTrip.RoundTrip` | src/compiler.c:592-1201 | At every rung of the ladder, the printed tree followed by anything that cannot continue it is read back as that tree, consuming exactly its tokens. |
| `ParserRoundTrip.ParseOfPrint` | src/compiler.c:1175-1201 | The same for whole expressions. |
| `ParserRoundTrip.PrintInjective` | src/compiler.c:857-1145 | Two trees with the same text are the same tree, so the printed parentheses are enough. |
| `Precedence.ReadsByGroups` | src/compiler.c:894-1145 | For any two of the thirteen binary operators and any atoms, `a p b q c` is read with the operator of the tighter group around the middle operand, and from the left within a group; the groups are listed in order, tightest first. |
| `Precedence.ReadsTightest` | src/compiler.c:829-892 | `??` binds tighter than every operator of the groups, and the prefixes tighter still. |
| `Precedence.ReadsLoosest` | src/compiler.c:1147-1201 | Short-circuit AND binds looser than every operator of the groups, and OR looser still. |
| `Slots.IdsDiffer` | src/compiler.c:313-330 | Different names have different slots. |
| `Slots.IdInRange` | src/compiler.c:313-330 | Every slot is among those counted. |
| `Slots.IdIsUsed` | src/compiler.c:313-330 | Every counted slot belongs to a name. |
| `Slots.DeclStmtOk` | src/compiler.c:1203-1253 | The declarations of any statement keep slots consecutive and constants at their ids. |
| `Slots.ParamSlots` | src/compiler.c:1808-1830 | Parameters with different names get the first slots in order. |
| `Slots.ParamCountIff` | src/compiler.c:1808-1845 | There are as many slots as parameters if and only if no parameter name repeats. |
| `Scoping.DeclStmtExtends` | src/compiler.c:294-353 | Declarations only add: what resolved before resolves to the same slot afterwards. |
| `Scoping.DeclStmtKnown` | src/compiler.c:258-353 | After its declarations every name and constant of a statement resolves. |
| `Optimizer.Optimizer.Apply` | src/optimizer.c:227-245 | The in-place scan of the automaton computes the optimized code. |
| `Optimizer.Optimizer.ReplaceBinary` | src/optimizer.c:11-33 | Writes the window's three instructions and no other, with the operand order of the source. |
| `Optimizer.OptIdempotent` | src/optimizer.c:213-245 | Optimizing twice is optimizing once. |
| `Optimizer.FusedDisjoint` | src/optimizer.c:84-199 | Fused windows do not overlap. |
| `Optimizer.WindowTable` | src/optimizer.c:84-199 | The twelve windows, spelled out: which loads and which operation give which fused instruction, and which id goes into the flag. |
| `OptimizerRefinement.FusionExact` | src/optimizer.c:11-33 | A fused instruction does what its window does, from every state, if and only if the packed id is below 256 and the window is not constant-then-local under `-` or `/`. |
| `OptimizerRefinement.Lockstep` | src/vm.c:1053-1387 | For chunks whose windows pass the guard and into whose windows no jump leads: after any number of steps at which the original run stands between windows, the optimized run is in the very same state. |
| `OptimizerRefinement.OptimizedRunEnds` | src/optimizer.c:227-245 | Under the same conditions a run that halts, halts in the same state and after the same number of steps when optimized. |
| `OptimizerRefinement.ScanOpt` | src/vm.c:1482-1502 | The catch search stops at the same position in optimized code. |
| `OptimizerRefinement.InteriorContents` | src/optimizer.c:84-199 | The second and third instruction of a fused window follow a load and are a load or an arithmetic operation. |
| `Vm.Vm.Execute` | src/vm.c:1504-1510 | Running the machine's array, registers and native recursion to the end gives the status, error and result of the step function's run, whatever the unwritten slots held. |
| `Vm.Vm.Dispatch` | src/vm.c:1389-1400 | One frame, from its entry to its RET, makes exactly the steps of the step function and comes back with the same frames above it. |
| `Vm.Vm.Call` | src/vm.c:907-950 | The registers saved in native locals are those of the explicit frame, so the call ends in the state the step function reaches after the callee's steps. |
| `Vm.Vm.Ret` | src/vm.c:971-991 | Depth, status, result and the switch to seeking are those of the step function's RET. |
| `Vm.Vm.LocallyPropagate` | src/vm.c:1482-1502 | The loop with its unsigned, wrapping 64-bit counter stops where the search with an integer counter stops. |
| `Vm.Vm.Raise` | src/vm.c:1001-1016 | Records the error, pops it and continues at the position found. |
| `Vm.Vm.Seek` | src/vm.c:1394-1400 | The caller of a frame that threw searches from behind its call and goes back to running. |
| `Vm.Vm.Put` | src/vm.c:111-145 | Pushes write the next slot and move past the instruction. |
| `Vm.Vm.Load` | src/vm.c:147-172 | Slots are read absolutely for globals and from bp for locals. |
| `Vm.Vm.Store` | src/vm.c:156-181 | The top goes into the slot and off the stack. |
| `Vm.Vm.Adjust` | src/vm.c:129-136 | RESERVE only moves the stack pointer: the slots it exposes keep stale values. |
| `Vm.Vm.Test` | src/vm.c:833-905 | The tested value is popped on falling through and kept on jumping; `ValueLaws.TestMeans` says which values fall through. |
| `Vm.Vm.BinaryOp` | src/vm.c:487-819 | The result replaces the two operands; `ValueLaws` says what it is. |
| `Vm.Vm.Fused` | src/vm.c:1053-1387 | Both operands come from their slots and the result is pushed. |
| `Values.ArithCommutes` | src/vm.c:487-570 | Addition and multiplication commute on all values, so the operand order of a fused `+` or `*` does not matter. |
| `Values.Wrap32` | src/vm.c:496-498 | Integer results are the representative modulo 2^32. |
| `ValueLaws.LessIsOrder` | src/vm.c:755-786 | `<` is a strict total order on truth values, on integers and on numbers, with `==` as its equality. |
| `ValueLaws.LessPointsUp` | src/vm.c:755-786 | The next integer, TRUE and any larger number are larger. |
| `ValueLaws.GreaterIsConverse` | src/vm.c:788-819 | `>` is the converse of `<` on all operands. |
| `ValueLaws.EqualIsIdentity` | src/vm.c:689-753 | `==` is identity and `!=` its complement, where there is an order and on NIL. |
| `ValueLaws.UnrelatedCompare` | src/vm.c:689-819 | Operands of different tags, strings and objects are unrelated, not even unequal. |
| `ValueLaws.NilAndNaN` | src/vm.c:689-819 | NaN is unequal to everything with its tag and in no order; NIL is not below itself. |
| `ValueLaws.TestMeans` | src/vm.c:833-868 | A test takes an integer or a number exactly when the language's own `!=` tells it from zero; NaN passes, NIL and strings fail, a truth value is its own answer and an object answers for itself. |
| `ValueLaws.TestsDiffer` | src/vm.c:870-905 | The test of short-circuit OR differs from it on exactly NIL, strings and unwritten slots. |
| `ValueLaws.AddOne` | src/vm.c:545-570 | Adding one counts, and wraps from the largest integer to the smallest. |
| `ValueLaws.AddCounts` | src/vm.c:545-597 | Addition is repeated counting and subtraction undoes it. |
| `ValueLaws.MulCounts` | src/vm.c:487-512 | Multiplication is repeated addition. |
| `ValueLaws.DivLeaves` | src/vm.c:514-543 | Integer division leaves a remainder smaller than the divisor with the sign of the dividend. |
| `ValueLaws.DivEdges` | src/vm.c:522-526 | Division by zero is not a number; the least integer divided by -1 is itself. |
| `ValueLaws.ArithNeedsNumbers` | src/vm.c:487-597 | Anything but two integers or two numbers gives NaN. |
| `ValueLaws.NaNStays` | src/vm.c:487-597 | NaN in either operand gives NaN, and so does a divisor of zero. |
| `ValueLaws.RealSums` | src/vm.c:545-597 | Addition of numbers counts like that of integers, is commutative and associative and keeps the order; subtraction undoes it. |
| `ValueLaws.RealProducts` | src/vm.c:487-543 | Multiplication of numbers has one as its unit and distributes; division undoes it. |
| `ValueLaws.BitwiseBits` | src/vm.c:599-651 | Each of the 32 bits of `&`, OR and `^` is the operation on the operands' bits. |
| `ValueLaws.BitsDetermine` | src/vm.c:599-651 | Two integers with the same 32 bits are the same, so the bits say everything. |
| `ValueLaws.ComplementSums` | src/vm.c:470-485 | An integer and its complement sum to -1. |
| `ValueLaws.BitwiseNeedsIntegers` | src/vm.c:599-687 | Bit operations on anything but integers give NaN. |
| `ValueLaws.ShiftsLeft` | src/vm.c:653-669 | A shift to the left by one doubles, and longer shifts are repeated ones. |
| `ValueLaws.ShiftsRight` | src/vm.c:671-687 | A shift to the right by one halves downwards, and longer shifts are repeated ones. |
| `Decimals.DecimalBack` | src/mystr.c:233-254 | The decimal notation of a number below 10^8 is read back as the number. |
| `Decimals.NegativeBack` | src/mystr.c:233-254 | With a sign in front, below 10^7, as its negative. |
| `Decimals.LeadingZero` | src/mystr.c:233-254 | A leading zero changes nothing within eight characters. |
| `Decimals.LongLexeme` | src/mystr.c:237-239 | More than eight characters are read as zero. |
| `Decimals.Atoi` | src/mystr.c:233-254 | The loop from the last digit to the first reads the same number as reading from the first to the last. |
| `Decimals.PointTimesTen` | src/mystr.c:256-287 | Moving the point one place to the right multiplies by ten. |
| `Decimals.WholeReal` | src/mystr.c:256-287 | A number with `.0` behind it is itself. |
| `Decimals.NegativeReal` | src/mystr.c:256-287 | A sign in front negates. |
| `Decimals.Atof` | src/mystr.c:256-287 | The two loops, for the weight of the first digit and for the sum, give that number. |
| `Decimals.LiteralMeans` | src/compiler.c:603-645 | A literal of up to eight digits is the integer it spells, and one with `.0` the number. |
| `LoadRoundTrip.LoadsBackIff` | src/load_bc.c:113-336 | A program's file, followed by any bytes, loads back to the program with those bytes unread if and only if strings and chunks are not empty and constants are nil, truth values, integers or 16-bit string ids. |
| `LoadRoundTrip.PrefixesRejected` | src/load_bc.c:19-111 | Every proper prefix of a storable program's file is rejected. |
| `LoadRoundTrip.TruncatedRejected` | src/load_bc.c:19-111 | Every proper prefix of any input that is read to its end is rejected. |
| `LoadRoundTrip.LoadsOn` | src/load_bc.c:199-336 | A load that succeeds gives the same in front of any further bytes. |
| `LoadRoundTrip.ReadValueBack` | src/load_bc.c:268-304 | What a constant becomes: reals turn into integers, string ids lose all but 16 bits, objects turn into nil. |
| `LoadRoundTrip.StringsBack` | src/load_bc.c:146-183 | Non-empty strings are read back in order; an empty one ends the section early. |
| `LoadRoundTrip.ChunksBack` | src/load_bc.c:199-321 | Chunks with code are read back in order; one without code ends the file early. |
| `LoadRoundTrip.SmallFile` | docs/bytecode_fmt.md:1-19 | The file of a small program, byte by byte. |
| `Loader.TBLoader.LoadFrom` | src/load_bc.c:351-385 | Terminates on every input in the end or the error state, with the program and the unread bytes that the format gives. |
| `Loader.TBLoader.Dispatch` | src/load_bc.c:323-336 | Every round reads a byte or advances the state, so the loop ends, and no round changes what the input amounts to. |
| `Loader.TBLoader.ChompN` | src/load_bc.c:35-47 | Reads the next bytes into the buffer, or all there are; the cursor never passes the end. |
| `Loader.TBLoader.EatStr` | src/load_bc.c:146-183 | One string, or the end of the strings, or a length of 2^31 or more that is skipped, as the signed countdown makes it. |
| `Loader.TBLoader.EatChunk` | src/load_bc.c:199-321 | One chunk, or the end of the file. |
| `Loader.TBLoader.EatCode` | src/load_bc.c:216-253 | All instructions of a chunk, or the error state when the input ends first. |
| `Loader.TBLoader.EatConsts` | src/load_bc.c:257-312 | All constants of a chunk, or the error state when the input ends first. |
| `Dict.Dict.Get` | src/obj_dict.c:198-204 | The value last stored under any key with this hash since the dictionary was made, NIL if there is none; the lemmas below say which keys share a hash. |
| `Dict.Dict.Set` | src/obj_dict.c:206-216 | Adds one store to the history, or nothing when frozen. |
| `Dict.Dict.Put` | src/obj_dict.c:120-159 | The loop overwrites the node it finds or hangs a new one under the last node it visited; the pointers stay a search tree that holds the history. |
| `Dict.Dict.Lookup` | src/obj_dict.c:82-99 | Finds the one node with this hash exactly when a key with it was stored. |
| `Dict.Dict.NodesBounded` | src/obj_dict.c:21-52 | Never more than 39,781 nodes. |
| `Dict.Dict.AsBool` | src/obj_dict.c:192-196 | True exactly when something was stored. |
| `Dict.Dict.Freeze` | src/objects.c:10-12 | Clears the flag and keeps the history. |
| `Dict.Hung` | src/obj_dict.c:150-156 | Redirecting one null pointer of the last node visited turns the pointer tree into the one with the new node inserted. |
| `Dict.Inserted` | src/obj_dict.c:120-159 | Inserting a new hash keeps the order, adds one node and changes no other search. |
| `Dict.ExactIffApart` | src/obj_dict.c:21-52 | A dictionary is an exact map on a set of keys if and only if no two of them share a hash. |
| `Dict.ByteKeysExact` | src/obj_dict.c:31-51 | It is one on the integers 0 to 255. |
| `Dict.SomeKeysCollide` | src/obj_dict.c:25-51 | It is not one on 5 and 256, on NIL and 0, or on FALSE and 1. |
| `Dict.StringKeysExact` | src/obj_dict.c:36-38 | It is one on the string ids 0 to 255. |
| `Dict.ObjectKeysExact` | src/obj_dict.c:39-43 | It is one on the object ids 0 to 255. |
| `Dict.TruthKeysExact` | src/obj_dict.c:24-30 | It is one on TRUE, FALSE and NIL. |
| `Dict.TypesCollide` | src/obj_dict.c:24-43 | Among small keys a string or an object is taken for the integer of its id and for no other, TRUE for 3, FALSE for 1 and NIL for 0. |
| `Dict.SameBitsCollide` | src/obj_dict.c:24-43 | A key of any width hashes like the integer with its 32 bits. |
| `Dict.WidePlaces` | src/obj_dict.c:46-51 | 25 and 65536 are confused and so are 125 and 16777216, but not the other way around; the largest hash is reached. |
| `Dict.HashOf` | src/obj_dict.c:46-51 | Hashes lie between 0 and 39,780. |
| `Heap.ObjHeap.Store` | src/objects.c:117-126 | Fails exactly when every cell is live; otherwise takes the id freed last, or the next one never used, and displaces nothing. |
| `Heap.ObjHeap.Erase` | src/objects.c:128-141 | Frees one untenured live id, puts it on the free list and lowers the cost by 64; other ids are ignored. |
| `Heap.ObjHeap.GenId` | src/objects.c:77-90 | Last in, first out; no id only when all cells are live. |
| `Heap.ObjHeap.Get` | src/objects.c:101-107 | An object exactly for live ids. |
| `Heap.ObjHeap.Tenure` | src/objects.c:97-99 | All ids in use become untouchable; nothing else changes. |
| `Heap.ObjHeap.ReserveId` | src/objects.c:92-95 | Pushes one id on the free list. |
| `Heap.ObjHeap.RipeIffTwoThirds` | src/objects.c:36-75 | Collection is due exactly when more than two thirds of all cells are live, at a cost of 64 for each live object. |
| `Heap.Shared` | src/objects.c:77-141 | Live ids and free ids add up to the ids handed out, so the free list has room whenever an object dies. |
| `Heap.StoredReused` | src/objects.c:117-126 | Reusing the last freed id keeps live and free ids disjoint, complete and without repetition, and the cost at 64 for each live object. |
| `Heap.StoredFresh` | src/objects.c:117-126 | So does taking a fresh id. |
| `Heap.Erased` | src/objects.c:128-141 | So does freeing a live id. |
| `Gc.Sweep` | src/gc.c:281-293 | Erases exactly the untenured ids in range whose bit is clear, in ascending order, keeps every other object, lowers the cost by 64 for each and clears the bits. |
| `Gc.Collect` | src/gc.c:232-293 | Changes nothing until the cost has passed its limit, and then sweeps. |
| `Gc.SweepAgain` | src/gc.c:285-290 | A sweep with some marks is safe if and only if every free id in its range is marked. |
| `Gc.BitSet.SetAt` | src/gc.c:43-48 | Adds one position to the set. |
| `Gc.BytePacking` | src/gc.c:36-48 | Position p is bit p modulo 8 of byte p / 8, counted from the least significant. |
| `Gc.BitSet.GetAt` | src/gc.c:36-41 | Tells whether a position is in the set. |
| `Gc.BitSet.Clear` | src/gc.c:50-52 | Empties the set; the largest sets, whose 16-bit capacity wraps to zero, stay as they are. |
| `Gc.BitSet.constructor` | src/gc.c:13-23 | An empty set with room for the wanted positions, except that the capacity of the largest sets comes out as zero. |

## Left out

- Simulation.SimExpr: says nothing about expressions whose evaluation stops: reading a variable that has no value yet, calls that do not fit their function, undecided `&&` and `||`, and prefix `?`. The last three are what `Shortcuts` is about.
- Simulation.SimStmt: says nothing about a statement whose meaning stops. Beside the above these are THROW while the flag `trying_except` is 0 (the search would then take a later TRY's CATCH for its own), calls nested deeper than 255 (the depth is a byte), and loops that do not end.
- Simulation.SimApply: a function that ends without RET has an unspecified value, because the machine returns whatever is on top; calling chunk 0, the top-level code, has no meaning, and there are no trampolines for native functions among the chunks; calls with more than 32,767 arguments, which the source counts as negative, have no meaning either.
- EndToEnd.ProgramRuns: needs chunks of less than 65,536 instructions and at most 65,536 constants and slots, since positions and operands have 16 bits.
- EndToEnd.SourceToOptimizedRun: needs every fused window to meet the guard of `FusionExact`.
- Driver.Interpret: needs room on the stack for the run, because the source does not check; tokens are its input, so the lexer is not part of it.
- Vm.Vm.Execute: is about runs that halt and fit the array; heap objects are represented by their truth values.
- Compiler.Compiler.DoSource: gives up at the first diagnostic. The source goes on: a block takes the error code of a statement for success and tries the next token, the top level skips to the next FUN, and any error count above zero discards the program in the end. So the results agree wherever the source comes to an end, but the order and number of diagnostics and the cases in which error recovery does not advance are not modelled. Some misplaced targets such as `x + y := 3` are reported earlier here, and a FOR over an unknown counter, which the source would dereference, is an error here.
- ParserRoundTrip.RoundTrip: is about the trees of the modelled language; string, hexadecimal, binary, ERR, list, dictionary and lambda literals are single tokens outside of it. The code emitted for a tree is the subject of `Compiler.Compiler.DoOr`.
- Compiler.Compiler.DoLevel: one method for the eight rungs whose functions in the source differ only in their operators.
- Values.Wrap32: integer overflow and the result of shifts, undefined in C, are two's complement, with the shift count's low five bits; so the least integer divided by -1 is itself, where C leaves the result open; floats have no rounding and no infinities.
- LoadRoundTrip.LoadsBackIff: needs strings shorter than 2^31 bytes and counts below 2^64; a float's bytes and its conversion to an integer are parameters. Which of the two error flags is set is not modelled.
- Dict.Dict.Set: a float key hashes by its four bytes, which are a parameter.
- Heap.ObjHeap.Erase: needs an erasable id to be live, since the source follows the cell's pointer.
- Gc.Sweep: needs every unmarked erasable id in range to be live, for the same reason. Marking is not modelled: the root loop reads one slot only and the queue of ids skips its first entry, so reachability does not follow from the code.
- Strings, lists and dictionaries as values of the language, ERR, BIND, ASSERT, USES and lambdas with their captures: the captured variables and the saved target are single cells that nested lambdas overwrite.
- Hexadecimal and binary literals: constants are shared by their text, and the text leaves out the base.
- Native functions, files, console, diagnostics, line numbers and debug information (the operand of RAISE is 0 here).
- The growth of vectors and failures of allocation; references into a vector are taken to stay valid while it grows.
- Keeping a machine and restarting it, command-line options and display of bytecode.
