# A verified model of the buxn just-in-time compiler

buxn translates uxn bytecode, which works on two byte stacks and 64 KiB of memory, to register
code. This project models that compiler in Dafny and proves that the code it emits does what an
interpreter of the bytecode does, together with the properties the compiler's parts rely on.

What is modelled:

- **The target** (`Target`): twelve registers, the two stacks, the device page and main memory
  behind "base plus offset" addressing, and the handful of instructions the compiler emits, with a
  function `Exec`. A device call may change memory, the device page and every scratch register.
- **The reference** (`Uxn`): an interpreter of the opcodes, written from the public Uxntal
  opcode reference. `Words` says what its and the target's arithmetic is, digit by digit.
- **Devices** (`Devices`, `DeviceOps`): what a device does is a list of answers, arbitrary but the
  same for code and interpreter; every request is recorded with all that the device could see.
- **The emitter** (`Emission`): the deferred-push stack caches, the register allocator with its
  reference counts and forced spills, keep mode, and all opcodes, as functions on values.
  `Facts` adds the constants and truth values the compiler tracks, `Jumps` the jumping opcodes,
  `DeviceOps` DEI and DEO, `CompileLoop` the loop over one block.
- **The same code in place** (`JitContext`, `BlockCompiler`): classes whose fields and loops are
  the original's, each method proved to do what the functions say.
- **Blocks** (`BlockTrie`, `Worklist`, `BlockQueue`, `BlockLinks`): the hash trie with its search
  and insertion, the compile, link and cleanup queues with their entry pool, the worklist they
  carry out, and what it does with the jumps of the emitted code.
- **Control** (`Frames`, `Calls`, `Relocation`, `Execution`): native calls, frames that unwind, and
  the trampoline, first for any program and then for the compiled code. A frame resumes in the
  middle of a block, so `Relocation` shows that emitted code does not depend on what is in front
  of it.
- **Tools** (`Symbols`, `PerfLog`): the hinted symbol search, and the chunked log with its
  two-pass record.

The main results build on each other. `Inv` (exact reference counts) and `Good` (the machine,
after the code emitted so far, holds what the caches and memory stand for) are kept by every
spill, allocation, push, pop, discard and flush. From that follows the correctness of every
opcode in every mode, then of straight-line code (`Compiler.StraightLineCorrect`), of blocks with
conditional jumps and device calls (`Blocks.StretchCorrect`), and of whole runs under the trampoline
(`Execution.RunCorrect`), which also end where the interpreter does (`Execution.ExecuteHalts`).

Straight-line correctness is not true without a condition. Two things go wrong in the code as it
is: a register that several cells share is changed in place, and a pop has to spill. The emitter
records both (`sharedWrite`, `lateSpill`) without acting on them. `Hazards` says exactly when a
change in place does harm, `LateSpills` exactly when a pop that spills does: a value read back
from memory needs a free register or equal bytes on both stacks, and the split of a short needs
its allocation to leave the pop's cache alone or, outside keep mode, to empty it. `HazardExample`
and `LateSpillExample` are programs that are compiled wrongly, one for each; `NoSharing` and
`SingleStack` give conditions on the bytecode alone under which neither can happen.

Jumps by a truth value are compiled into a condition around the next opcode. `Skipping` compares
that with the interpreter and says exactly when the two agree; `SkipExample` is a program in which
a conditional jump that is not taken makes the code leave out the opcode behind it.

What the compiler knows about stack bytes is kept on rings with shadow pointers. `FactStacks`
shows that they are two plain stacks of facts, `KnownJumps` that the facts are true along whole
blocks, so that a jump whose target is known goes where the interpreter goes, by a link to a block
that has been compiled. Facts also outlive native calls, where they need not be true any more:
`StaleFacts` is a program in which the compiler then takes an offset for a truth value.

Where the code and the obvious reading of it disagree, the model follows the code: a relative
jump past the end of memory is not wrapped (`Jumps.ReachedExact`), a return address of 0 turns a
call into a jump, and the sizes announced in the perf dump are cut to 32 bits.

All files are checked together: `dafny verify dfyconfig.toml`.

## Model

| member | source | states |
|---|---|---|
| `Execution.ExecuteHalts` | src/jit.c:2378-2433 | if the interpreter comes to BRK or a zero-page address after j steps, the call of compiled code returns with that address, within 5 j + 2 steps of frames and trampoline, and leaves the interpreter's state |
| `Execution.ExecuteCorrect` | src/jit.c:2378-2433 | a call from any address that comes back leaves the state the interpreter reaches, at BRK or a zero-page address |
| `Execution.RunCorrect` | src/jit.c:1213-1321 | for any number of steps through blocks, linked jumps, native calls, resumed and skipped frames and the trampoline: the machine holds the interpreter's stacks and memory, the pending address is the interpreter's program counter, and the stack pointers have moved as the stacks have grown, mod 256 |
| `Execution.StepCorrect` | src/jit.c:2386-2426 | one entry into compiled code, or one frame unwound, is some number of interpreter steps, and every frame left behind is a place in the code of its block that can be resumed |
| `Execution.ResumesBehindCall` | src/jit.c:1268-1320 | where compiled code makes a native call, the call goes to the interpreter's address, and what is resumed when it returns is the rest of the running code behind that very call instruction |
| `Execution.CallReturns` | src/jit.c:1268-1320 | a native call leaves exactly one frame behind; whatever the callee has done, when it returns to that frame's address the code right behind the call goes on with the frames from before the call; a linked jump leaves the frames alone |
| `Execution.ResumesInnermost` | src/jit.c:1282-1293 | a return passes every frame that waits for another address and resumes the innermost one that waits for this |
| `Execution.ReachesTrampoline` | src/jit.c:2386-2433 | if no frame waits, the trampoline enters the block of the address, or returns to its caller below 0x100 and above 0xffff |
| `Execution.RestOfBlock` | src/jit.c:1268-1320 | the code from a place in a block is a tail of the one piece of code the block has |
| `Relocation.EmissionRelocates` | src/jit.c:2473-2475 | from any state of the compiler, what is emitted until the block ends is the same whatever code is in front of it |
| `Relocation.CompileBehind` | src/jit.c:2473-2475 | compiling behind a prefix changes nothing but the prefix, for every opcode and nested skip |
| `Execution.WholeBlock` | src/jit.c:2473-2475 | what the code emitted up to an opcode that leaves does is what the code of the whole block does |
| `Execution.ContextOfRound` | src/jit.c:2534-2541 | within a block no address is compiled twice, so the address a call returns to determines the emitter's state there |
| `Calls.StepRefines` | src/jit.c:1213-1321 | a native step is one step of a flat dispatcher if it executes code, and otherwise changes neither the pending address nor the state |
| `Calls.NativeRefinesFlat` | src/jit.c:1213-1321 | for every program and number of steps, native frames and trampoline visit exactly the addresses a flat program counter visits |
| `Calls.Unwinds` | src/jit.c:1282-1293 | a pending target passes every frame that waits for another address, and resumes the innermost frame that waits for it |
| `Calls.CallReturns` | src/jit.c:1268-1320 | for any program: a call pushes one frame that the return to its address removes, a linked jump none |
| `Calls.BreakUnwindsAll` | src/jit.c:2388-2399 | BRK unwinds every frame and leaves the trampoline |
| `Calls.NativeProgress` | src/jit.c:2386-2433 | the trampoline never stalls: in a bounded number of steps it executes any number of blocks, or has returned where the flat dispatcher stops |
| `Blocks.StretchCorrect` | src/jit.c:1213-1416 | from the start of a block or the return of a call, through device calls and untaken conditional jumps to the first taken jump: the machine holds the interpreter's state and leaves for the interpreter's address |
| `Blocks.OpcodeResult` | src/jit.c:2534-2636 | one opcode of any kind, plain, device or jumping, agrees with one interpreter step; a jump that leaves the block leaves by its link wherever the address is the one the compiler knew |
| `CompileLoop.CompiledBlockCorrect` | src/jit.c:2473-2475 | the code the compile loop emits for a block is right for every machine that holds the interpreter's state |
| `CompileLoop.RoundsEmitStretch` | src/jit.c:2473-2475 | the loop emits the stretches the correctness of blocks is about |
| `CompileLoop.CallResumes` | src/jit.c:1268-1320 | behind a native call the emitter is as at the start of a block: nothing cached, memory base unknown |
| `CompileLoop.EveryBlockCompiles` | src/jit.c:1341-1367 | for every memory content and entry address the compile loop, with its recursion through jumps by a truth value, terminates, and no assertion of the emitter fails |
| `CompileLoop.EndsExactly` | src/jit.c:2473-2475 | the block ends exactly where the interpreter can neither go on behind the opcode nor come back to behind it: at BRK, JMI, JMP that is no skip, and the zero page |
| `CompileLoop.CompileEnds` | src/jit.c:1418-1421 | the loop ends because the block has been finalised, even though a nested finalisation is undone |
| `Jumps.ReachedExact` | src/jit.c:1369-1382 | the target register of a relative jump holds the interpreter's target if and only if address plus displacement stays within 0 to 0xffff, because it is never masked |
| `Jumps.JmpSound` | src/jit.c:1768-1775 | JMP leaves for the popped address, known in advance or not |
| `Jumps.JcnSound` | src/jit.c:1777-1783 | JCN leaves for the target if the condition is not zero and otherwise goes on with unchanged stacks |
| `Jumps.JsrSound` | src/jit.c:1785-1800 | JSR leaves for the target with the return address on the other stack |
| `Jumps.JsiSound` | src/jit.c:2321-2336 | JSI leaves for the immediate target with the return address on the return stack |
| `Jumps.JciSound` | src/jit.c:2307-2312 | JCI leaves for the immediate target if the condition is not zero and otherwise goes on |
| `Jumps.JmiSound` | src/jit.c:2314-2319 | JMI leaves for the immediate target |
| `Jumps.BrkSound` | src/jit.c:1581-1589 | BRK returns 0x10000 with all pending pushes written |
| `Compiler.StraightLineCorrect` | src/jit.c:495-1179 | for every sequence of literal, stack, arithmetic, comparison, load and store opcodes in every mode: the emitted code followed by clearing the caches gives the interpreter's live bytes on both stacks, memory, and stack pointers mod 256, unless a register in use elsewhere was changed in place or a pop had to spill |
| `Compiler.OpcodeSound` | src/jit.c:2534-2636 | one opcode takes any state in which cached cells and memory represent the stacks to one that represents the interpreter's next state |
| `NoSharing.UnsharedNeverShares` | src/jit.c:1591-1766 | code without DUP and OVR never changes a register that has a second holder |
| `NoSharing.UnsharedCorrect` | src/jit.c:495-1179 | without DUP and OVR the compiler is correct unless a pop has to spill |
| `SingleStack.OneStackNeverSpillsLate` | src/jit.c:598-677 | code that stays on the working stack, without keep mode, never spills in a pop |
| `SingleStack.FreeIfFew` | src/jit.c:408-418 | with fewer than six cached cells and held operands a register is free |
| `SingleStack.SingleStackCorrect` | src/jit.c:495-1179 | such code without DUP and OVR is compiled correctly with no condition on the emitter at all |
| `Rings.StackedSpill` | src/jit.c:828-847 | writing the oldest pending cell to memory leaves the real stack (memory up to the pointer, then the pending cells) as it was |
| `Rings.StackedPush` | src/jit.c:495-509 | a cell put on top extends the real stack by its bytes |
| `CacheSound.SpillGood` | src/jit.c:850-873 | a spill keeps both real stacks |
| `CacheSound.AllocGood` | src/jit.c:460-486 | an allocation, however many cells it spills, keeps both real stacks and yields a register nobody holds |
| `CacheSound.PushGood` | src/jit.c:495-509 | a push extends one real stack by the operand's bytes, whether or not the full cache spills |
| `CacheSound.ClearBothGood` | src/jit.c:889-901 | after clearing both caches memory alone holds the real stacks |
| `CacheSound.SetMemBaseGood` | src/jit.c:928-940 | the base register is the region's address whenever the recorded base says so |
| `PopSound.PopMatches` | src/jit.c:598-677 | a byte or short popped, by taking a cell, splitting a short, joining two bytes or reading memory, is exactly the top of the view, and exactly it is removed |
| `Popping.PopGood` | src/jit.c:598-677 | a pop yields the top of the current stack in a register that the opcode then holds, and in keep mode the real stack stays whole |
| `Popping.DiscardGood` | src/jit.c:691-735 | a discard removes exactly the top byte or short, also from the middle of a cached short |
| `OpStart.RebuiltGood` | src/jit.c:903-922 | dropping as many of the oldest cells as are flushed drops no pending write |
| `OpStart.FlushGood` | src/jit.c:875-887 | flushing keeps the real stack seen through the moving pointer, and the view through the copied pointer |
| `OpStart.BeginGood` | src/jit.c:2542-2631 | at the start of an opcode, with or without keep mode, all pending writes are kept and its pops see the whole current stack |
| `Values.LoadGood` | src/jit.c:1029-1103 | a load reads the interpreter's byte or short, wrapping at 256 in the zero page and at 64 KiB elsewhere |
| `Values.StoreGood` | src/jit.c:1105-1179 | a store changes memory exactly as the interpreter does |
| `Values.ImmediateGood` | src/jit.c:1423-1534 | a literal is read from memory when the code runs, also across the end of memory |
| `Values.IncGood` | src/jit.c:1591-1610 | an increment wraps at the operand's width |
| `Values.CalculateGood` | src/jit.c:2031-2305 | all eight arithmetic opcodes give the interpreter's result, DIV restoring the base register it borrows |
| `Values.CompareGood` | src/jit.c:1668-1766 | the four comparisons give 0 or 1 as the interpreter does |
| `DeviceOps.DeviceSound` | src/jit.c:1890-2029 | DEI and DEO in every mode, whatever the device answers and whatever the call leaves in the scratch registers: the code makes the interpreter's requests and arrives at its stacks, memory, device page and record of requests |
| `DeviceOps.CallSees` | src/jit.c:1898-1900 | when a device is called both stacks are in memory up to their last byte, and memory and device page are the interpreter's |
| `DeviceOps.DeviceForgets` | src/jit.c:1900-1923 | behind a device opcode the recorded memory base is right for every machine, and nothing is cached but the result of DEI |
| `DeviceOps.ToPageGood` | src/jit.c:1948-2004 | DEO puts one or two bytes into the device page, wrapping at 256 |
| `DeviceOps.CalledRel` | src/jit.c:1904-1923 | a state with nothing cached survives a call that keeps only stacks, stack pointers and the virtual machine's register |
| `Words.BitwiseDigits` | src/jit.c:2190-2258 | every binary digit of a conjunction, disjunction and exclusive disjunction, as emitted code, interpreter and folding compute them |
| `Words.SameDigits` | src/jit.c:2190-2258 | numbers with the same digits are equal, so the digits say everything |
| `Uxn.BitwiseMeaning` | src/jit.c:2190-2258 | the digits of the results of AND, ORA and EOR |
| `Uxn.ShiftMeaning` | src/jit.c:2262-2305 | every digit of the result of SFT: moved right by the low half of the operand, left by the high half, dropped outside the width |
| `Uxn.ArithNumbers` | src/jit.c:2032-2187 | ADD, SUB and MUL are congruent to the exact result and fit the width; DIV leaves a remainder below the divisor, and is zero by zero |
| `Uxn.DecodedByte` | src/jit.c:364-404 | every byte is the byte of the operation and modes it is decoded to |
| `Uxn.EncodedByte` | src/jit.c:364-404 | every operation and mode is decoded from its byte |
| `OpSound.PlainSound` | src/jit.c:1591-2305 | every opcode that neither jumps nor talks to a device, in every mode |
| `Allocator.AllocInv` | src/jit.c:460-486 | while at most five registers are held an allocation succeeds, and its register has count one and no other holder |
| `Allocator.SixHeld` | src/jit.c:476-486 | if nothing is cached and no register is free the opcode holds six of them: the "Out of registers" assertion needs that |
| `Allocator.PopInv` | src/jit.c:598-677 | a pop keeps every count equal to the number of holders |
| `Allocator.DiscardInv` | src/jit.c:691-735 | a discard keeps every count exact, and releases no unused register |
| `Allocator.PushInv` | src/jit.c:943-977 | a push keeps every count exact; an operand the opcode holds is never "unused" |
| `Allocator.FlushInv` | src/jit.c:875-887 | flushing keeps the counts, and flushed cells stay a prefix of the cache |
| `Allocator.BeginInv` | src/jit.c:2542-2631 | the rebuilt counts are exact, and keep mode holds two registers |
| `Allocator.PlainInv` | src/jit.c:1591-2305 | whatever the caches hold, no assertion fails in any opcode, ROT2k included |
| `Allocator.RetainBothInv` | src/jit.c:903-922 | counting the cells that stay gives exact counts |
| `Facts.PopHolds` | src/jit.c:979-1017 | what is known about a popped operand is true of its value, through the real or the shadow pointer |
| `Facts.PushHolds` | src/jit.c:943-977 | a push records only true facts about its bytes |
| `FactsSound.EffectTracked` | src/jit.c:1591-1610 | one opcode, with folding and keep mode, keeps every recorded fact true |
| `FactsSound.FoldedHolds` | src/jit.c:2031-2054 | folding on sixteen bits and cutting at the push gives the interpreter's result |
| `FactsSound.FactsAreSound` | src/jit.c:943-1017 | along straight-line code that finds its literals, from any stacks: every byte recorded as constant has that value and every truth value is 0 or 1 |
| `FactStacks.TrackerRefinesStacks` | src/jit.c:943-1017 | for every opcode and mode: the rings with their shadow pointers hold what two plain stacks of facts hold after popping the operands, unless they are kept, and pushing what is known of the results; so no fact is forgotten or moved to another byte |
| `FactsSound.JumpStepTracked` | src/jit.c:1768-1800 | facts that are true before a jump are true where it goes and where it goes on, JCI and JCN popping their operands either way |
| `FactsSound.DeviceStepTracked` | src/jit.c:1890-1955 | facts stay true over DEI and DEO, whatever the device answers |
| `KnownJumps.StretchKeepsFacts` | src/jit.c:943-1017 | along any stretch of a block that finds its literals, over untaken conditional jumps and device calls, every recorded fact is true |
| `KnownJumps.ConstantTarget` | src/jit.c:1382 | a known target is compiled as the interpreter's: the value of a short, or the address displaced by a signed byte, modulo 65536 |
| `KnownJumps.SiteKnows` | src/jit.c:1213-1248 | from any state the facts are true of, a jump is compiled with a constant target if and only if it is immediate or its operand is known, and the target is where the interpreter goes |
| `KnownJumps.KnownJumpTaken` | src/jit.c:1213-1321 | if the compiler knows where the jump goes at which the interpreter leaves a block, the block's code leaves by that linked jump or call, not by a return, for the interpreter's address |
| `KnownJumps.KnownJumpLands` | src/jit.c:1243-1308 | and the block there has been compiled in the same call, and the jump is linked to its body, or its head for a call |
| `KnownJumps.StepRecords` | src/jit.c:1878-1942 | no step loses or rewrites a device request, and each has had an answer of its own |
| `StaleFacts.ProgramWrong` | src/jit.c:1268-1320 | a program whose callee pops a truth value: behind the call the compiler still takes the top of the stack for one and compiles a skip, where the interpreter jumps by 4 |
| `Hazards.DecodedExact` | src/jit.c:737-826 | the pending bytes survive a change of a register if and only if no pending cell can tell |
| `Hazards.InPlaceExact` | src/jit.c:660-667 | changing a register in place keeps both real stacks if and only if no pending cell of either cache can tell |
| `Hazards.IncExact` | src/jit.c:1596-1606 | INC keeps what is below its operand if and only if no pending cell holds the operand's register |
| `Hazards.DupShares` | src/jit.c:1652-1657 | DUP leaves two cells with one register |
| `Hazards.IncAfterDupWrong` | src/jit.c:1591-1610 | INC right after DUP of the same width always corrupts the value below |
| `Hazards.TakesShared` | src/jit.c:598-658 | a pop of the upper of two sharing cells leaves the lower exposed |
| `HazardExample.DupIncWrong` | src/jit.c:1591-1657 | DUP in any mode and then INC of the same width on the same stack: for every state and every value, if DUP itself meets no hazard, caches and memory do not stand for the interpreter's stacks afterwards |
| `HazardExample.DupIncExample` | src/jit.c:1591-1657 | the program LIT 01 DUP INC, from any machine that holds a state with room for it: once the caches are cleared the machine does not hold the interpreter's state |
| `LateSpills.AllocBase` | src/jit.c:512-525 | a pop from an empty cache ends up with the other stack's base if and only if no register is free and something is cached |
| `LateSpills.FromMemExact` | src/jit.c:511-596 | a byte or short popped from memory, in keep mode or not, is the top of the stack and leaves both stacks right if and only if a register is free or both rings hold the same bytes there |
| `LateSpills.SplitExact` | src/jit.c:640-667 | the byte split off a short and the stacks left behind are right if and only if: the allocation left the pop's cache alone and no cell shares the short's register visibly; or it emptied the cache outside keep mode; or, in keep mode, the cells that are left happen to spell the right bytes |
| `LateSpills.CoincidesExact` | src/jit.c:859-870 | that last case, where nobody shares the register: exactly one cell was dropped, it was a byte, and all cached bytes below the short are zero |
| `LateSpills.SplitSome` | src/jit.c:640-667 | outside keep mode a split whose allocation spills some cells but not all is always wrong |
| `LateSpillExample.IncSpills` | src/jit.c:1591-1610 | what INC of a byte leaves behind after such a split, in every state: the interpreter's stack with a zero too many |
| `LateSpillExample.OneZeroWrong` | src/jit.c:889-901 | then the stack pointer is one too high, and the bytes are right if and only if everything below the short is zero |
| `LateSpillExample.ProgramWrong` | src/jit.c:460-486 | the program LITr LITr LIT2 LIT2 LIT2 LIT2 INC, from any machine that holds a state with room for it: the stack pointer is wrong, and so are the bytes if the low byte of the third short is not zero |
| `Skipping.SkipExact` | src/jit.c:1341-1416 | JMP, JCN or JSR by a byte known to be a truth value, for every state: the code runs the next opcode if and only if the byte is zero and the jump is taken, and otherwise leaves the state as it is and goes on behind that opcode; it agrees with the interpreter if and only if it runs the opcode, or the jump is taken and the opcode is a single byte that does not skip in turn (except at the end of memory), or the jump is not taken and the next address is in the zero page |
| `Skipping.NextOpcodeEnds` | src/jit.c:1341-1367 | compiling the opcode under the condition takes the compiler past one byte if and only if it is a one-byte opcode outside the zero page that does not skip in turn, up to the end of memory |
| `Skipping.SkippedBase` | src/jit.c:1353-1366 | where the opcode is not run, the recorded memory base is true of the machine if and only if compiling the opcode left it unknown or unchanged |
| `SkipExample.ProgramWrong` | src/jit.c:1386-1416 | the program LIT 05, LIT 00, LIT 01, LIT 01, EQU, JCN, INC, BRK, from any machine that holds a state with room for it: the compiled block returns at BRK with 05 on the stack where the interpreter has 06 |
| `Hashing.Prospector32Injective` | src/jit.c:200-209 | no two addresses share a hash |
| `Hashing.ShiftXorDigit` | src/jit.c:200-209 | each digit of an xor-shift, from the digits there were |
| `BlockTrie.WayBits` | src/hamt.h:32-43 | the child chosen at depth d is given by bits 2 d and 2 d + 1 of the hash |
| `BlockTrie.DepthBound` | src/hamt.h:28-43 | under any injective 32-bit hash every block is at most sixteen children from the root |
| `BlockTrie.ProspectorDepth` | src/jit.c:319-336 | so is every block of the compiler's own trie |
| `BlockTrie.LinkedShape` | src/hamt.h:28-43 | filling the empty slot of a key keeps every earlier key on its way and puts the new one on its way |
| `BlockTrie.WalkStep` | src/hamt.h:28-43 | one round of the search: the child on the key's way, and no block passed has the key |
| `BlockTrie.BlockMap.Search` | src/hamt.h:28-43 | for any hash the search finds the block of a key, or the empty slot where it belongs if there is none |
| `BlockTrie.BlockMap.Hang` | src/jit.c:325-336 | trie, list of blocks and block count agree after an insertion |
| `BlockTrie.BlockMap.FindOrAdd` | src/jit.c:319-336 | exactly the given key becomes findable, and every earlier block is kept |
| `Worklist.CompileFirstProgress` | src/jit.c:2506-2509 | a round makes new blocks known, of which there are at most 65536, or shortens the queue |
| `Worklist.CompiledCloses` | src/jit.c:2499-2532 | a call ends with empty queues; no block is compiled twice in all calls; every constant jump target is compiled and every jump linked to it; every compiler is freed exactly once |
| `BlockLinks.NativeJumpsLand` | src/jit.c:2499-2532 | with the jumps the compile loop emits: after a call, whatever block it has compiled and whatever machine runs its code, the code leaves to the trampoline, or natively to the head or body of a block that has been compiled too and to which the jump is linked |
| `BlockLinks.RunLeaves` | src/jit.c:1213-1321 | code leaves natively only by a jump it contains, so the queued links are all there are |
| `Worklist.FinishInv` | src/jit.c:2481-2485 | every known address waits or is compiled, never both, when a block has got its code |
| `BlockQueue.DequeueConserves` | src/jit.c:289-297 | an entry taken off a queue is held from then on and in no queue; the others are where they were |
| `BlockQueue.EnqueueConserves` | src/jit.c:299-303 | an entry given to a queue is in exactly that queue, and the lists stay acyclic and apart |
| `BlockQueue.Jit.AllocEntry` | src/jit.c:305-317 | the first entry of the pool, or a new one if and only if the pool is empty; it is in no queue |
| `BlockQueue.Jit.QueueBlock` | src/jit.c:319-352 | makes the block known with a compile and a cleanup entry if it is new, and changes nothing otherwise |
| `BlockQueue.Jit.EmitJump` | src/jit.c:1243-1248 | queues one link per constant jump, after making its target known |
| `BlockQueue.Jit.CompileAll` | src/jit.c:2504-2509 | the compile loop over linked queues terminates and computes the worklist on values |
| `BlockQueue.Jit.LinkAll` | src/jit.c:2511-2524 | every queued jump gets the head or body address of its target |
| `BlockQueue.Jit.FreeAll` | src/jit.c:2526-2529 | every queued compiler is freed |
| `BlockQueue.Jit.GetBlock` | src/jit.c:2499-2532 | the imperative compiler does what the worklist on values does, and returns the block of the address |
| `BlockQueue.Jit.AllPooled` | src/jit.c:2504-2529 | after a call every entry ever allocated is in the pool |
| `JitContext.StackCache.RemoveFirst` | src/jit.c:903-922 | the oldest cells go and the others move down in order |
| `JitContext.Context.AllocReg` | src/jit.c:460-486 | the spill loop terminates; registers, caches and code become those of the specification that the allocator lemmas are about |
| `JitContext.Context.Spill` | src/jit.c:850-873 | as specified: the oldest cell is written if pending, and forgotten |
| `JitContext.Context.Flush` | src/jit.c:875-887 | as specified: pending cells are written and stay |
| `JitContext.Context.RetainCache` | src/jit.c:903-922 | as specified: flushed cells go, the others are counted |
| `JitContext.Context.CachePush` | src/jit.c:495-509 | as specified: spill if full, then a counted cell on top |
| `JitContext.Context.PopFromMem` | src/jit.c:511-596 | as specified: base, allocation, then one or two bytes |
| `JitContext.Context.CachePop` | src/jit.c:598-677 | as specified, in every case, also when the allocation moves the cells |
| `JitContext.Context.CacheDiscard` | src/jit.c:691-735 | as specified, in every case |
| `JitContext.Context.Begin` | src/jit.c:2542-2631 | as specified: counts rebuilt, pointers copied and cache flushed in keep mode |
| `BlockCompiler.StaticStacks.Push` | src/jit.c:943-977 | the ring entries become those of the specification that the facts lemmas are about |
| `BlockCompiler.StaticStacks.Pop` | src/jit.c:979-1017 | as specified: facts of both bytes are joined |
| `BlockCompiler.BlockCompiler.Plain` | src/jit.c:1591-2305 | every opcode method emits and records what the specification says |
| `BlockCompiler.BlockCompiler.Arithmetic` | src/jit.c:2031-2305 | arithmetic with folding |
| `BlockCompiler.BlockCompiler.JumpAbs` | src/jit.c:1213-1321 | the linked jump or call with its recheck, and the return behind it |
| `BlockCompiler.BlockCompiler.Skip` | src/jit.c:1341-1367 | the opcode compiled under a condition by recursion |
| `BlockCompiler.BlockCompiler.Device` | src/jit.c:1890-2029 | DEI and DEO emit and record what the specification says |
| `BlockCompiler.BlockCompiler.PoppedJump` | src/jit.c:1768-1800 | JMP, JCN and JSR, skipping or not |
| `BlockCompiler.BlockCompiler.Next` | src/jit.c:2534-2636 | one opcode as the compile loop on values compiles it |
| `BlockCompiler.BlockCompiler.CompileBlock` | src/jit.c:2473-2475 | the compile loop terminates, computes the loop on values, and no assertion has failed |
| `Symbols.LookupUnique` | src/addr_mapping.h:28-84 | in a sorted table at most one opcode symbol contains an address |
| `Symbols.FindSymbol` | src/addr_mapping.h:28-84 | for any hint the result is the symbol that contains the address or none, and the new hint is again a valid one |
| `PerfLog.PerfHook.LogOpcode` | src/perf.c:90-125 | the log grows by exactly the recorded pair; all chunks but the last are full; no chunk is lost or shared, and a new one is made if and only if all are full and the pool is empty |
| `PerfLog.PerfHook.MeasureRecord` | src/perf.c:185-201 | the first pass, adding in 32 bits, yields the size of the lines the second one writes |
| `PerfLog.PerfHook.WriteLines` | src/perf.c:206-235 | the second pass writes one line per mapping in order, each with the address of its mark and the line, column and file of the symbol that contains its address, and puts every chunk into the pool |
| `PerfLog.PerfHook.EndBlock` | src/perf.c:165-245 | the header announces the number of lines that follow and their size in bytes, cut to 32 bits; the log is empty afterwards |
| `PerfLog.RecordEntries` | src/perf.c:206-240 | the record entry by entry: entry k + 1 has the resolved address of the k-th mark and the line, column and file of whichever symbol contains its address; the last is the dummy at the last byte of the code |
| `PerfLog.RecordSize` | src/perf.c:167-183 | the announced size is the number of bytes written, field by field, cut to 32 bits, and the number of entries that of the record |
| `PerfLog.Released` | src/perf.c:230-232 | moving a chunk from the list to the pool loses none |

## Left out

- Compiler.StraightLineCorrect: requires that the emitter has noted no shared write and no late spill; without that it is false of the code (`HazardExample.DupIncExample`, `LateSpillExample.ProgramWrong`). The exact conditions for single steps are in `Hazards` and `LateSpills`.
- Execution.RunCorrect: requires of every stretch of code entered that the interpreter finds the opcode bytes and immediate targets that were compiled, has its operands and room for its results, meets no jump by a truth value, and makes no relative jump past the address space. Literals may be rewritten freely.
- Skipping.SkipExact: compares where the code and the interpreter go on; the facts recorded while compiling an opcode that is then left out are not followed further.
- FactsSound.FactsAreSound: straight-line code; `KnownJumps.StretchKeepsFacts` has whole stretches of a block. After a call the original keeps its facts, and they may be false (`StaleFacts.ProgramWrong`). Constants are checked again where the code jumps, which is what `Execution` relies on; truth values are not.
- CompileLoop.EveryBlockCompiles: takes memory as fixed during the compilation of a block, and generation of machine code to succeed.
- Worklist.CompiledCloses: counters and queues are unbounded, and every block gets non-zero code addresses (`Generates`). The code of a block is a parameter; `BlockLinks` gives it that of the compile loop.
- Calls.NativeRefinesFlat: programs are abstract functions from an address and a state to the next jump; the concrete compiled code is the subject of `Execution`.
- PerfLog.PerfHook.EndBlock: marks resolve through a function given by the caller, and the code-load record and the map file are not written.
- BlockQueue.Jit.GetBlock: queue entries and log chunks are nodes of a growing arena addressed by index, not heap pointers.
- Symbols.FindSymbol: the two search loops are one method called twice.
- Memory of the Uxn stacks: only live bytes are compared; stack overflow and underflow are outside the correctness theorems.
- The loads and stores of the virtual machine's pointers around native code and device calls, sljit itself, executable offsets and jump patching: unseen library; a linked jump is an instruction that names its target.
- A 64-bit little-endian host is assumed for the two-byte load with byte swap, and multiplication of constants is taken modulo 65536 where C leaves signed overflow undefined.
- DeviceOps.DeviceSound: devices are answers, so what a particular device does is not modelled, and a device that moves the stack pointers or rewrites a stack is not covered. DEO of a short writes both bytes before the device is told of either, in code and interpreter alike.
- The interpreter that runs the zero page: foreign code.
- Recompilation after opcode bytes have been rewritten: the original does not do it.
- The command line, file input and output, the debugger hook and its reader, the label map, the composite hook, verbose output and statistics other than the number of blocks.
