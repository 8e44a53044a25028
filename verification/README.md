# Processors, alarms, ACIA and cartridge files of VICE, verified

A Dafny model of the parts of the VICE emulators where an error is hardest to see, with proofs that
they do what the rest of the emulator relies on.

VICE has a 6510 twice: `6510core.c` executes an opcode in one go and adds its cycles in lumps,
`6510dtvcore.c` performs every bus access with a tick of its own. Both are modelled macro by macro as
classes whose fields are the registers of the source, and proved against one reference instruction set
(`Isa6510`), so that they can be proved to agree over all runs. The same style covers the 65816
(`Core65816` against `Isa65816`), the arithmetic of the 65C02, the alarm scheduler (arrays, back
indices, linked list and cached deadline, proved to be a map from alarms to deadlines), the 6551 ACIA
on top of that scheduler (against a machine on values, `Acia6551`), and the CRT files that `cartconv` reads and writes.

| files | subject |
|---|---|
| `Bytes`, `LazyFlags`, `OpcodeMatrix` | machine words, the lazy status register, the decoding table |
| `Isa6510`, `InstructionCore`, `CycleCore`, `AluMacros`, `Agreement` | the 6510 cores and their agreement |
| `CmosAlu`, `Multibyte` | decimal arithmetic of the other processors, chains of ADC and SBC |
| `NestedControl` | calls, saved registers and interrupts as an abstract stack |
| `Alarms`, `Lateness` | the scheduler, and how late a callback can be |
| `Isa65816`, `Core65816`, `BlockMove`, `FarCalls` | the 65816 and two of its instructions in depth |
| `Acia6551`, `AciaRuns`, `Acia` | the ACIA 6551 as a machine on values, what it comes to over runs, and the chip on the scheduler |
| `CrtFormat`, `EasyFlashFormat`, `CrtFile`, `CartConverter`, `DelaCartridge`, `CartSizes`, `CartRoundTrips` | cartridge files |

`dafny verify dfyconfig.toml` checks everything. A method of a core states its effect on `View()`, the
architectural state; the reference functions are written on that state in terms of mathematical
integers and Boolean flags, not in the terms of the macros. What the outside decides (which interrupt
is taken, what a device delivers, when an alarm is set) is an argument or a nondeterministic choice,
so a statement about a run holds for every such decision.

## Model

| member | source | states |
|---|---|---|
| Agreement.LockStep | vice/src/6510dtvcore.c:1535-2556 | The cycle-level core and the instruction-level core of vice/src/6510core.c:1971-3059, fed the same opcodes and interrupts from the same state over memories with the same contents, have the same registers, flags, program counter, memory and clock after every event of every run; their notes about the last opcode agree exactly when the last event was not an ANE. The fast fetch of the second core may go through any image that shows it what it would load. |
| CycleCore.Core.Step | vice/src/6510dtvcore.c:1577-2556 | One round of the cycle-level loop: fetch with per-access ticks, dummy reads and double writes come to the reference instruction, in state and in cycles. |
| InstructionCore.Core.Step | vice/src/6510core.c:2023-3059 | One round of the instruction-level loop: the lumped clock, lazy N and Z and the unmasked program counter come to the same reference instruction, whatever the bank pointer points to, if it shows the bytes the opcode would load. |
| CycleCore.Core.Run | vice/src/6510dtvcore.c:1535-2556 | Any run of opcodes, NMIs and IRQs is the run of the reference machine. |
| InstructionCore.Core.Run | vice/src/6510core.c:1971-3059 | Any run of opcodes and interrupts is the run of the reference machine, if the bank pointer shows at each opcode what it would load. |
| InstructionCore.Core.Opcode | vice/src/6510core.c:2081-3059 | The switch: for each of the 244 documented and undocumented opcodes that do not jam, the macros it selects do what the decoding table says, with the cycles of that addressing mode. |
| CycleCore.Core.Opcode | vice/src/6510dtvcore.c:1610-2556 | The same for the switch of the cycle-level core and its pairs of GET and SET functions. |
| InstructionCore.Core.FetchOpcode | vice/src/6510core.c:1875-1929 | Either fetch path delivers the opcode, its operand byte and, where the table says there is one, its operand word, in two or three cycles. |
| CycleCore.Core.FetchOpcode | vice/src/vic20/vic20cpu.c:144-168 | The fetch of the cycle-level core delivers the same bytes, one tick per byte. |
| CycleCore.Core.Get | vice/src/6510dtvcore.c:417-640 | Every GET function yields the operand its addressing mode defines; a read ends after the cycles of that mode including the page-crossing one, and a GET that opens a read-modify-write exactly two cycles before its end. |
| CycleCore.Core.Set | vice/src/6510dtvcore.c:417-640 | Every SET function stores at the effective address of its mode, in the cycles a store takes. |
| CycleCore.Core.SetRmw | vice/src/6510dtvcore.c:436-648 | Storing the old and then the new byte leaves the new one at the effective address, in two cycles. |
| CycleCore.Core.IntIndYR | vice/src/6510dtvcore.c:590-600 | The pointer is fetched inside the zero page, and the extra cycle is taken exactly on a page crossing. |
| InstructionCore.Core.LoadIndY | vice/src/6510core.c:499-505 | The operand of ($nn),Y, with its page-crossing cycle, is the one of the reference. |
| InstructionCore.Core.StoreAbsSh | vice/src/6510core.c:539-551 | When an unstable store crosses a page, the stored value replaces the high byte of its address. |
| CycleCore.Core.SetAbsShI | vice/src/6510dtvcore.c:650-670 | The same, and a steal signal noted earlier is consumed. |
| InstructionCore.Core.ShaIndY | vice/src/6510core.c:1470-1487 | SHA ($nn),Y stores A AND X AND (high byte + 1) at the address the reference gives, on either side of a page crossing. |
| CycleCore.Core.ShaIndY | vice/src/6510dtvcore.c:1404-1409 | The same instruction on the cycle-level core. |
| InstructionCore.Core.ShsAbsY | vice/src/6510core.c:1507-1514 | SHS also loads the stack pointer with A AND X, and stores that AND (high byte + 1). |
| CycleCore.Core.ShsAbsY | vice/src/6510dtvcore.c:1421-1425 | The same instruction on the cycle-level core. |
| InstructionCore.Core.BranchOp | vice/src/6510core.c:761-778 | A branch costs two, three or four cycles, goes to the 16-bit target, and delays an interrupt exactly if it is taken within its page. |
| CycleCore.Core.BranchOp | vice/src/6510dtvcore.c:852-897 | The same branch with its dummy reads. |
| InstructionCore.Core.JmpIndOp | vice/src/6510core.c:1038-1046 | The pointer of an indirect jump does not leave its page. |
| CycleCore.Core.JmpIndOp | vice/src/6510dtvcore.c:1075-1083 | The same on the cycle-level core. |
| InstructionCore.Core.JsrOp | vice/src/6510core.c:1048-1060 | JSR pushes the address of its last byte before it reads that byte, from memory or through the bank pointer, so that a call whose pushes overwrite its operand goes where the stack says. |
| CycleCore.Core.JsrOp | vice/src/6510dtvcore.c:1092-1110 | The same order of accesses on the cycle-level core. |
| InstructionCore.Core.RtsOp | vice/src/6510core.c:1365-1376 | RTS continues one behind the pulled word, with SP wrapping in page one. |
| CycleCore.Core.RtsOp | vice/src/6510dtvcore.c:1318-1333 | The same on the cycle-level core. |
| InstructionCore.Core.RtiOp | vice/src/6510core.c:1353-1363 | RTI restores all flags from the pulled byte and the unmodified address. |
| CycleCore.Core.RtiOp | vice/src/6510dtvcore.c:1301-1316 | The same on the cycle-level core. |
| InstructionCore.Core.BrkOp | vice/src/6510core.c:781-817 | BRK pushes PC + 2 and the status with B set, sets I, and takes the NMI vector if an NMI is pending by then. |
| CycleCore.Core.BrkOp | vice/src/6510dtvcore.c:901-909 | The same through the shared interrupt entry. |
| InstructionCore.Core.DoInterrupt | vice/src/6510core.c:373-414 | An accepted interrupt: PC and the status with B clear are pushed, I is set, seven cycles, and the vector is that of an NMI if there is one after the pushes. |
| CycleCore.Core.DoNmi | vice/src/6510dtvcore.c:308-338 | An accepted NMI on the cycle-level core has that effect. |
| CycleCore.Core.DoIrq | vice/src/6510dtvcore.c:339-359 | So has an accepted IRQ, whether or not an NMI takes over its vector. |
| InstructionCore.Core.PlpOp | vice/src/6510core.c:1199-1211 | PLP loads the flags and notes whether the I flag fell or rose. |
| CycleCore.Core.PlpOp | vice/src/6510dtvcore.c:1205-1221 | The same on the cycle-level core. |
| CycleCore.Core.AneOp | vice/src/6510dtvcore.c:758-774 | ANE has the effect of the reference on state and clock and leaves 0x80 as the last opcode. |
| LazyFlags.LazyRoundTrip | vice/src/6510core.c:188-200 | Reading the status out of reg_p, flag_n and flag_z and setting it again restores every flag they stand for. |
| Agreement.OpcodeCycles | vice/src/6510core.c:2081-3059 | Every opcode takes between two and eight cycles. |
| AluMacros.AdcMacro | vice/src/6510core.c:598-631 | The addition macro equals the digit-wise definition in all five results, in binary and decimal mode, for every accumulator, operand and carry, invalid BCD included. |
| AluMacros.SbcMacro | vice/src/6510core.c:1396-1425 | The same for subtraction, whose borrow is found in bits 4 and 8 of unsigned integers that have wrapped around. |
| AluMacros.ArrMacro | vice/src/6510core.c:680-711 | The same for ARR and its decimal fix-ups. |
| InstructionCore.Core.RraOp | vice/src/6510core.c:1304-1322 | RRA rotates memory and adds the result to A with the rotated-out bit as carry. |
| CycleCore.Core.RraOp | vice/src/6510dtvcore.c:1281-1295 | The same, with the old byte stored first. |
| InstructionCore.Core.IsbOp | vice/src/6510core.c:978-991 | ISB increments memory and subtracts the result from A. |
| CycleCore.Core.IsbOp | vice/src/6510dtvcore.c:1060-1068 | The same, with the old byte stored first. |
| CmosAlu.Adc65C02 | vice/src/65c02core.c:534-566 | The addition of the 65C02 yields A, C and V of the 6510 for every input, and N and Z of the result. |
| CmosAlu.Sbc65C02 | vice/src/65c02core.c:1197-1220 | Its subtraction: the binary difference less 0x60 and 6 for the two borrows, with C and V of the binary one and N and Z of the result. |
| CmosAlu.Sbc65C02Agrees | vice/src/65c02core.c:1197-1220 | That is the result of the 6510 if and only if the low digits differ by at least -10. |
| CmosAlu.Sbc65C02Example | vice/src/65c02core.c:1197-1220 | 0x00 - 0x0f - 1 in decimal mode: the two processors differ. |
| CmosAlu.Adc65816 | vice/src/65816core.c:1365-1426 | The 8-bit addition of the 65816 yields A, C and V of the 6510 for every input. |
| CmosAlu.Sbc65816 | vice/src/65816core.c:2278-2319 | So does its 8-bit subtraction, invalid BCD included. |
| CmosAlu.Adc65816Wide | vice/src/65816core.c:1365-1426 | The 16-bit addition is two chained 8-bit ones in value and carry, for every input; V in decimal mode is that of a positive accumulator. |
| CmosAlu.WideAdcOverflow | vice/src/65816core.c:1365-1426 | V is that of the chained additions if and only if the accumulator is positive, or the operand and the uncorrected sum have the same sign. |
| CmosAlu.WideAdcExample | vice/src/65816core.c:1365-1426 | 0x8000 + 0 in decimal mode: V is set, and the chained additions clear it. |
| CmosAlu.Sbc65816Wide | vice/src/65816core.c:2278-2319 | The 16-bit subtraction; in decimal mode its digits and carry are those of the 8-bit register minus the 16-bit operand. |
| CmosAlu.WideSbcAgrees | vice/src/65816core.c:2278-2319 | For every accumulator, operand and carry, invalid BCD included, it is two chained 8-bit subtractions if and only if the high byte of the accumulator is zero. |
| Multibyte.Add | vice/src/6510core.c:598-631 | On each of the three processors a carry-linked chain of ADCs of any length computes the sum modulo 256^n, or 100^n on BCD operands in decimal mode, and its last carry says whether the modulus was reached. |
| Multibyte.Subtract | vice/src/6510core.c:1396-1425 | The same for a chain of SBCs: the difference modulo 256^n or 100^n, the carry set exactly if nothing was borrowed. |
| Multibyte.AdditionTheorem | vice/src/6510core.c:598-631 | The statement about chains of the reference addition, by induction on their length. |
| Multibyte.SubtractionTheorem | vice/src/6510core.c:1396-1425 | The statement about chains of the reference subtraction. |
| NestedControl.OpenRefines | vice/src/6510core.c:1048-1186 | JSR, PHA, PHP, BRK and an interrupt push, on the bytes of page one, the frame they push on an abstract stack. |
| NestedControl.CloseRefines | vice/src/6510core.c:1188-1376 | RTS, PLA, PLP and RTI pop that frame and restore what it saved. |
| NestedControl.RunRefines | vice/src/6510core.c:2081-3059 | Over every well-bracketed run page one represents the abstract stack, for every starting SP and with wrap-around. |
| NestedControl.BracketTheorem | vice/src/6510core.c:2081-3059 | Around any balanced body SP comes back, RTS resumes behind its JSR, and RTI at the interrupted instruction with the flags of that moment. |
| Alarms.AlarmContext.Set | vice/src/alarm.h:148-187 | The array, the back indices and the cached deadline represent the map with the alarm at its new deadline; a full array takes no new alarm. |
| Alarms.AlarmContext.Unset | vice/src/alarm.c:167-207 | They represent the map without the alarm, although the last slot moves into the hole. |
| Alarms.AlarmContext.UpdateNextPending | vice/src/alarm.h:112-131 | Recomputing the cache makes it the least deadline in the array with an index where it stands. |
| Alarms.AlarmContext.CacheIsEarliest | vice/src/alarm.h:112-131 | In every valid state the cache is the earliest deadline of the map, and NEVER only if there is none earlier. |
| Alarms.AlarmContext.Init | vice/src/alarm.c:105-125 | A new alarm becomes the head of a doubly linked list that holds every alarm of the context once; the pending ones do not change. |
| Alarms.AlarmContext.Destroy | vice/src/alarm.c:139-165 | The alarm leaves the list, whose order is kept, and the map. |
| Alarms.AlarmContext.DestroyAll | vice/src/alarm.c:59-77 | Destroying the context takes every alarm off the list, head first. |
| Alarms.AlarmContext.TimeWarp | vice/src/alarm.c:79-103 | Every deadline and the cache move by the same amount in the width of CLOCK. |
| Alarms.WarpKeepsEarliest | vice/src/alarm.c:79-103 | With an alarm pending and no wrap-around the cache stays the earliest deadline. |
| Alarms.WarpOfEmpty | vice/src/alarm.c:79-103 | With nothing pending it stays right if and only if the warp is zero. |
| Alarms.Replay | vice/src/alarm.h:148-187 | After any sequence of sets and unsets the array holds exactly the entries of the replayed map, and the cache is its earliest deadline. |
| Alarms.NextDispatch | vice/src/alarm.h:133-146 | The alarm dispatched is one with the least deadline, and it is told its exact lateness. |
| Alarms.ProcessAlarms | vice/src/6510core.c:115-119 | The loop ends with nothing due, has run exactly the alarms that were due, each once, the most overdue first, and leaves every other deadline alone. |
| Lateness.RunTick | vice/src/6510core.c:1980-2023 | One event of the core with the alarms set and unset during it: each look at the alarms (one after an opcode other than BRK, two otherwise) calls exactly the alarms due in the schedule that the requests have made, each with its exact lateness and the most overdue first, and leaves the others as they are; no callback is more than eight cycles late; and one is eight cycles late if and only if an eight-cycle opcode leaves an alarm set for its own fetch cycle. |
| Lateness.RunWithAlarms | vice/src/6510core.c:1971-3059 | Over every run the callbacks are those of its looks, each look being exact for the schedule that the one before left and the requests since then have made, from the schedule at the start to that at the end. No callback is more than eight cycles late, and some callback is that late if and only if some eight-cycle opcode of the run leaves an alarm set for its own fetch cycle: exact in those schedules, and exact in the requests alone if the array has a slot for every alarm of the context. |
| Lateness.LateByRequests | vice/src/alarm.h:148-187 | Whether an opcode leaves such an alarm can be read off its requests: one for the fetch cycle itself that is the last about its alarm; only a full array can make a difference. |
| Lateness.LatenessAttained | vice/src/6510core.c:2081-3059 | Both bounds are attained by the core in the eight cycles of ISB ($nn,X): an alarm set by its fetch for delay cycles later is called exactly 8 - delay late. |
| Core65816.Core.Opcode | vice/src/65816core.c:2604-3641 | Each of the 256 opcodes has the effect of the reference instruction, in both modes and in each register width. |
| Core65816.Core.Step | vice/src/65816core.c:2549-3641 | A pending reset, NMI or IRQ goes before the next opcode, and the mode invariant is kept: in emulation mode SP lies in page one, and index registers in 8-bit width have a zero high byte. |
| Core65816.Core.Run | vice/src/65816core.c:2549-3641 | Over every run the core is where the reference is and the mode invariant holds. |
| Isa65816.React | vice/src/65816core.c:2549-3641 | The reference keeps the mode invariant at every opcode, interrupt and reset. |
| Core65816.Core.Address | vice/src/65816core.c:452-1232 | Each addressing mode: where it wraps in a bank, in page zero of emulation mode, and where it carries into the next bank. |
| Core65816.Core.Load | vice/src/65816core.c:412-1230 | A load reads one or two bytes as the width of the register has it, the second one at the address the mode gives. |
| Core65816.Core.LoadForWrite | vice/src/65816core.c:427-1050 | The operand of a read-modify-write and the place to put it back. |
| Core65816.Core.StoreBack | vice/src/65816core.c:1252-1330 | The result goes to the place the operand came from, high byte included in 16-bit width. |
| Core65816.Core.RepSep | vice/src/65816core.c:2144-2182 | REP and SEP change M and X in native mode only, and setting X cuts the index registers. |
| Core65816.Core.Xce | vice/src/65816core.c:2525-2545 | XCE exchanges carry and mode; entering emulation cuts X, Y and forces SP into page one, leaving it sets M and X. |
| Core65816.Core.SetStatus | vice/src/65816core.c:218-220 | Pulling a status, with the cut of the index registers that PLP and RTI make. |
| Core65816.Core.Handler | vice/src/65816core.c:1727-1757 | BRK, COP, IRQ and NMI push PBR in native mode only, then PC and the status, clear D, set I, and enter bank 0 through the vector of the mode. |
| Core65816.Core.Res | vice/src/65816core.c:2186-2214 | A reset ends in emulation mode whatever the mode was, with SP three lower in page one. |
| Core65816.Core.Rti | vice/src/65816core.c:2220-2244 | RTI pulls PBR in native mode only. |
| Core65816.Core.Pld | vice/src/65816core.c:2101-2115 | PLD pulls over the page boundary in emulation mode and then forces SP back into page one. |
| Core65816.Core.Pea | vice/src/65816core.c:2001-2012 | The pushes of the newer opcodes run below page one before SP is forced back; PEI, PER and PHD are proved alike. |
| Core65816.Core.JsrIndX | vice/src/65816core.c:1845-1862 | JSR ($nnnn,X) pushes between the fetches of its two operand bytes, so it may read what it has pushed. |
| Core65816.Core.JsrLong | vice/src/65816core.c:1864-1882 | JSL pushes PBR between its operand bytes and the address of its last byte before it is executed further. |
| Core65816.Core.Rtl | vice/src/65816core.c:2246-2263 | RTL pulls three bytes without wrapping in page one. |
| Core65816.Core.MoveOp | vice/src/65816core.c:1928-1959 | One round of a block move, with the operand fetches as they are. |
| BlockMove.OperandsExact | vice/src/65816core.c:1928-1959 | A round uses the two bytes behind its opcode if and only if the program counter is at most 0xfffd, or the round is the last, or the bytes past the bank agree. |
| BlockMove.BlockMoveTheorem | vice/src/65816core.c:1928-1959 | If its operands agree and what it stores over its own bytes before the last round is what was there, then from C = n the main loop executes the move n + 1 times, meets its opcode every time, and ends with C = 0xffff, PC behind it, DBR at the destination, X and Y n + 1 further in their width, and memory copied byte by byte in order. |
| BlockMove.IntactExactly | vice/src/65816core.c:1928-1959 | The bytes of the instruction are unchanged at the start of every round if and only if every byte that the sequential copy stores over them before the last round is the one already there. |
| BlockMove.DisjointCopy | vice/src/65816core.c:1928-1959 | On disjoint ranges that sequential copy puts every source byte in its place and changes nothing else. |
| BlockMove.RunBlockMove | vice/src/65816core.c:2549-3641 | The loop of the core, stepped until C has wrapped, ends in that state. |
| FarCalls.NativeRoundTrip | vice/src/65816core.c:2246-2263 | In native mode RTL returns behind its JSL, with SP, for every SP. |
| FarCalls.EmulationRoundTrip | vice/src/65816core.c:2246-2263 | In emulation mode it returns there if and only if the low byte of SP was at least 3 or the right bytes lay above page one; SP comes back in any case. |
| FarCalls.FarCallTarget | vice/src/65816core.c:1864-1882 | JSL goes to the bank in its operand if and only if its first store does not change that operand byte. |
| FarCalls.FarCallTargetExample | vice/src/65816core.c:1864-1882 | A JSL at 0x1000 in bank 0 to another bank, with SP = 0x1003: it stays in bank 0. |
| FarCalls.CallAndReturn | vice/src/65816core.c:1864-1882 | The core executes a JSL whose target holds an RTL and is behind the call again. |
| Acia.Run | vice/src/aciacore.c:893-1215 | Over every run of register accesses, alarms and resets, with any outcome of opening the line and any input, the chip ends in the state that the machine of Acia6551 computes from the events, its flags and times agree with the alarm scheduler, and the bytes it sends are those of the machine. From a consistent state (see StaysConsistent) it ends in one, and what it sent is part of what it held and was given, in that order. |
| AciaRuns.StaysConsistent | vice/src/aciacore.c:912-1146 | Over every run from the first state, or after a hardware reset from any state: the state of the transmitter is one of its three values, its alarm is on only while there is something to finish, and a byte that waits keeps TDRE clear. |
| AciaRuns.SentArePartOfStored | vice/src/aciacore.c:912-1146 | The bytes that go out are bytes stored to the data register, in the order of the stores and each at most once; a read-modify-write counts as two stores. |
| AciaRuns.PartOfSelects | vice/src/aciacore.c:913-928 | Being part in that sense is having increasing places at which the stored bytes are the ones sent. |
| AciaRuns.StrandedExactly | vice/src/aciacore.c:912-1146 | TDRE is clear with no byte waiting for its alarm if and only if a waiting byte was given up (by a programmed reset, by a command that closes the line, or at its alarm while the line is not open) and since then none was stored to be sent and the chip was not reset. |
| AciaRuns.FailedOpenExample | vice/src/aciacore.c:1110-1146 | After a reset, with DTR set while the line fails to open, a byte stored is never sent, and TDRE stays clear. |
| AciaRuns.SnapshotStrands | vice/src/aciacore.c:726-881 | Writing, resetting and reading back leaves TDRE clear with nothing waiting if and only if it was so before, or a byte waited for an alarm due in the very cycle of the write. |
| AciaRuns.ReadsLastArrived | vice/src/aciacore.c:987-1215 | A read of the data register delivers the byte that came in last, whatever lies between. |
| AciaRuns.OverrunExample | vice/src/aciacore.c:1172-1215 | A byte comes in while the last one is unread; after data and status have been read, overrun is still set. |
| Acia6551.SendsArePaced | vice/src/aciacore.c:1110-1146 | Two sends of a run between which no event cancels the transmitter (a reset of either kind, or a command store that takes DTR from an open line) are at least the character time of the first apart. |
| Acia6551.SendsAttained | vice/src/aciacore.c:1110-1146 | Two bytes stored as fast as the transmitter takes them, with the line open, go out exactly a character apart. |
| Acia6551.SendsAreStored | vice/src/aciacore.c:913-928 | Between any two sends the data register was stored to, so no byte goes out twice. |
| Acia6551.LastStored | vice/src/aciacore.c:913-928 | What the data register holds, and what a send puts out, is the byte stored last. |
| Acia6551.StoredIsSent | vice/src/aciacore.c:913-928 | No byte is lost: stored with DTR set, and neither replaced nor cancelled, it goes out at the transmitter alarm it waits for exactly if the line is open then; the alarm is the one already set, or that of the next cycle. |
| Acia6551.RdrfExactly | vice/src/aciacore.c:1172-1215 | RDRF is set if and only if a byte has come in since the data register was last read or the chip reset. |
| Acia6551.OverrunExactly | vice/src/aciacore.c:1172-1215 | Overrun is set if and only if a byte came in while RDRF was set since the last hardware or programmed reset, whatever was read. |
| Acia6551.TdreExactly | vice/src/aciacore.c:1110-1146 | TDRE is set if and only if no byte was stored to be sent since the last one went out or the chip was reset. |
| Acia6551.ArrivalsArePaced | vice/src/aciacore.c:1172-1215 | Two bytes come in at least a character apart, by the least receive time in force between them, however often the receiver is stopped, started or set to another rate. |
| Acia.Chip.SetAciaTicks | vice/src/aciacore.c:349-436 | The character times are those of the rate tables, word length, parity and stop bits, and a receiver that is on starts its character anew. |
| Acia.Chip.SetHandshakeLines | vice/src/aciacore.c:584-622 | RTS and DTR follow the command register, and the receiver goes on and off with RTS; nothing else changes. |
| Acia.Chip.Reset | vice/src/aciacore.c:640-672 | A reset stops both alarms, closes the line, frees the data register and clears the registers and the interrupt; the data bytes and the byte read last stay. |
| Acia.Chip.StoreRegister | vice/src/aciacore.c:912-973 | The whole state after a store to each register: data, programmed reset, command, control and enhanced control. |
| Acia.Chip.Store | vice/src/aciacore.c:893-974 | The same with the store of the byte read last, a cycle earlier, that a read-modify-write opcode makes first. |
| Acia.Chip.Read | vice/src/aciacore.c:987-1043 | The value of each register and the whole state after the read: data clears RDRF alone, status polls the modem lines and takes the interrupt back. |
| Acia.Chip.TxCallback | vice/src/aciacore.c:1110-1146 | A byte goes out exactly if one waits and the line is open, TDRE and the interrupt follow, the transmitter moves on one state, and its alarm is set a character later or cancelled. |
| Acia.Chip.RxCallback | vice/src/aciacore.c:1172-1215 | A byte that comes in is delivered with its interrupt, overrun is set if the last one was not read, and the alarm is set a receive time later in any case. |
| Acia.Chip.SnapshotWrite | vice/src/aciacore.c:726-765 | The snapshot has every register, and the remaining cycles of each active alarm or zero. |
| Acia.Chip.SnapshotRead | vice/src/aciacore.c:787-881 | The whole state after loading a snapshot, old or new: registers, line, rate and alarms. |
| Acia6551.SnapshotRoundTrip | vice/src/aciacore.c:726-881 | Written, reset and read at another time: registers, status, interrupt and transmitter are as before, and a consistent state is restored to a consistent one; an alarm is on with the same time left unless it was due in the very cycle of the write; the rate is that of a zero enhanced control register; RTS comes back only with DTR. |
| Acia.SaveAndRestore | vice/src/aciacore.c:726-881 | The chip itself, written, reset and read back, with its alarms in the scheduler again. |
| Acia6551.StatusByteRoundTrip | vice/src/aciacore.c:555-575 | Every status register and interrupt flag survives its byte. |
| CrtFormat.ReadUndoesPackets | vice/src/cartconv.c:631-689 | Reading undoes printing: any sequence of packets with any padding and fewer than 16 stray bytes is read back exactly, or overruns the buffer exactly if it is too long. |
| CrtFormat.PacketsUndoRead | vice/src/cartconv.c:631-689 | Printing undoes reading: every accepted file is a sequence of printed packets and a short tail, up to padding that the end of the file cuts off. |
| CrtFile.RegularFileRoundTrip | vice/src/cartconv.c:829-862 | A regular cartridge file loads as its image, type, lines and address if and only if a bank and its 16-byte header fit 16 bits; otherwise it is rejected. |
| CrtFile.EasyFlashFileRoundTrip | vice/src/cartconv.c:933-959 | An EasyFlash file loads as its image, whichever erased chips were omitted, exactly unless nothing was left to write; then it is rejected. |
| EasyFlashFormat.FlashRoundTrip | vice/src/cartconv.c:604-629 | The loader rebuilds the whole buffer from whatever chips were written. |
| CartConverter.Converter.LoadAllBanks | vice/src/cartconv.c:631-689 | The loader accepts exactly the files the format accepts, with their data, and writes past the buffer exactly where the format says so. |
| CartConverter.Converter.LoadEasyflash | vice/src/cartconv.c:604-629 | The same for EasyFlash files, each chip where its header puts it. |
| CartConverter.Converter.LoadInputFile | vice/src/cartconv.c:1099-1213 | Any input file is accepted or rejected, and leaves data, type and address, as the format says: cartridge, plain image with 0, 2 or 4 bytes of address, or neither. |
| CartConverter.Converter.WriteCrtHeader | vice/src/cartconv.c:723-778 | The header has the signature, type, lines and name at their places. |
| CartConverter.Converter.WriteChipPackage | vice/src/cartconv.c:780-818 | The packet has its fields cut to their bytes and the next part of the image. |
| CartConverter.Converter.SaveRegularCrt | vice/src/cartconv.c:829-862 | The file is the header and one packet for each bank, with the bank size halved for a half-size image. |
| CartConverter.Converter.CheckEmptyEasyflash | vice/src/cartconv.c:921-931 | A chip counts as empty if and only if all its bytes are 0xff. |
| CartConverter.Converter.SaveEasyflashCrt | vice/src/cartconv.c:933-959 | The file is the header and a packet for each chip that is not omitted. |
| CartConverter.Converter.SaveBinaryOutputFile | vice/src/cartconv.c:691-721 | The output is the image, behind its load address if one is asked for. |
| CartConverter.Converter.SaveDelaep7x8Crt | vice/src/cartconv.c:1351-1474 | The file is the base and every inserted image in turn, or a refusal, as the placement rule has it. |
| CartRoundTrips.RegularThereAndBack | vice/src/cartconv.c:829-862 | The converter itself, saving an image as a cartridge and converting the file back: the same bytes, type, lines and address. |
| CartRoundTrips.EasyFlashThereAndBack | vice/src/cartconv.c:933-959 | The same for an EasyFlash image, failing exactly when every chip is erased and omitted. |
| DelaCartridge.InsertAllKeeps | vice/src/cartconv.c:1351-1474 | Whatever mix of files is accepted, the banks are contiguous, at most eight, and hold the base and the inserted images in order. |
| DelaCartridge.DelaRoundTrip | vice/src/cartconv.c:1351-1474 | Loading the finished cartridge yields the base followed by everything inserted. |
| CartSizes.PadSize | vice/src/cartconv.c:1774-1785 | The padding loop stops at the least acceptable size, and at zero if the file is larger than the mask of sizes. |

## Findings

Where the code does not do what its documentation, the hardware it emulates or the symmetry of its
own cases suggests, the code is modelled as it is, and a lemma gives the exact condition.

| where | what happens | member |
|---|---|---|
| vice/src/6510dtvcore.c:758-774 | ANE leaves 0x80, the value of a steal signal, as the last opcode instead of 0x8b; this is the only difference between the two cores. | `CycleCore.Core.AneOp`, `Agreement.LockStep` |
| vice/src/6510core.c:115-119 | A callback can be eight cycles late, one more than the longest opcode leaves behind its fetch: exactly when an eight-cycle opcode leaves an alarm set for its own fetch cycle. | `Lateness.RunWithAlarms`, `Lateness.LatenessAttained` |
| vice/src/alarm.c:79-103 | Warping a context with nothing pending moves the marker for "no alarm" too, so that an alarm seems due at a time when there is none. | `Alarms.WarpOfEmpty` |
| vice/src/65c02core.c:1197-1220 | The decimal SBC of the 65C02 differs from that of the 6510 exactly when the low digits, borrow included, differ by less than -10, which takes an invalid BCD operand. | `CmosAlu.Sbc65C02Agrees`, `CmosAlu.Sbc65C02Example` |
| vice/src/65816core.c:2278-2319 | The 16-bit decimal SBC subtracts from the 8-bit register: 0x1000 - 0 is wrong, and so is every accumulator with a high byte other than zero. | `CmosAlu.WideSbcAgrees`, `CmosAlu.WideSbcExample` |
| vice/src/65816core.c:1365-1426 | V of the 16-bit decimal ADC looks for the sign of the accumulator in the 8-bit register. | `CmosAlu.WideAdcOverflow`, `CmosAlu.WideAdcExample` |
| vice/src/65816core.c:1928-1959 | MVN and MVP at 0xfffe and 0xffff read their operands past the end of the bank in every round but the last. | `BlockMove.OperandsExact`, `BlockMove.BankEndExample` |
| vice/src/65816core.c:1928-1959 | A block move can store over its own opcode and operands, and the next round fetches what it stored: they are found unchanged in every round exactly if each such store before the last round is of the byte already there. One move turns itself into a NOP after its first round. | `BlockMove.IntactExactly`, `BlockMove.SelfOverwriteExample` |
| vice/src/65816core.c:2246-2263 | In emulation mode JSL and RTL disagree about page one when the low byte of SP is below 3. | `FarCalls.EmulationRoundTrip`, `FarCalls.EmulationExample` |
| vice/src/65816core.c:1864-1882 | JSL stores PBR before it fetches its last operand byte, and may overwrite it. | `FarCalls.FarCallTarget`, `FarCalls.FarCallTargetExample` |
| vice/src/aciacore.c:726-765 | An alarm due in the very cycle of a snapshot is written as a remaining time of zero, which means "not set"; the enhanced control register is not written at all, and RTS without DTR is not set again. A byte that waits for such an alarm is never sent. | `Acia6551.SnapshotRoundTrip`, `AciaRuns.SnapshotStrands` |
| vice/src/aciacore.c:1172-1215 | Contrary to vice/src/acia.h:57, neither a read of the data register nor the next reception clears the overrun bit; only a reset does. | `Acia6551.OverrunExactly`, `AciaRuns.OverrunExample` |
| vice/src/aciacore.c:929-966, 1110-1146 | TDRE stays clear although nothing waits to be sent when a byte is given up: by a programmed reset, by a command that takes DTR from an open line, or at its alarm when the line is not open, as after an rs232drv_open that failed. Only the next byte stored with DTR, or a hardware reset, ends that. | `AciaRuns.StrandedExactly`, `AciaRuns.FailedOpenExample`, `Acia6551.TdreExactly` |
| vice/src/cartconv.c:780-818 | A bank of 0xfff0 to 0xffff bytes has a chunk length that wraps around; the reader rejects the file. | `CrtFile.WideBanksAreRejected`, `CrtFile.RegularFileRoundTrip` |
| vice/src/cartconv.c:933-959 | An all-erased EasyFlash image saved without empty banks is a header alone, which the loader rejects. | `CrtFile.EasyFlashFileRoundTrip` |
| vice/src/cartconv.c:1774-1785 | Padding a file larger than the mask of acceptable sizes wraps the counter around to zero. | `CartSizes.PadSize` |

## Left out

- Agreement.LockStep: the events are the same for both cores, so which interrupt is accepted when (the delay rules of the interrupt module, with the notes about the last opcode) is not derived; the clock is an unbounded natural number.
- InstructionCore.Core.Run: the bank pointers of the memory map are one array, indexed by address, whose contents do not change during the run unless it is memory itself.
- CycleCore.Core.FetchOpcode: the byte-wise variant of the macro, with the bank pointer on the memory itself; the variant with a 32-bit read differs in an operand byte that no opcode uses.
- Lateness.RunWithAlarms: a callback may unset or re-arm its own alarm only, and does not act on the CPU; cycles stolen from the CPU would add to the bound.
- NestedControl.RunRefines: a body that moves SP by TXS or addresses its own frames is outside the well-bracketed runs.
- Core65816.Core.Step: no cycles and no dummy accesses of the 65816 are modelled, and WAI and STP are opcodes of one byte; opcode 2, which may be a trap, is COP; the 65816 does not use the ABS2 addressing macros.
- Acia.Chip.SetAciaTicks: the quotient of cycles and rate is computed exactly and rounded down once, where the source computes in doubles.
- Acia.Run: the interrupt line and its delay, the overflow guard of the clock and the RS232 driver are not modelled; opening a line and receiving a byte have any outcome.
- CartConverter.Converter.LoadInputFile: a write past the end of the buffer, to which C gives no meaning, is an outcome of its own; `long` has 64 bits in `fseek`.
- JAM, traps, the monitor, DMA, the CPU history and the variants with stolen cycles, with SKIP_CYCLE and of the C64DTV (SAC, SIR).
- The cores of the 65C02 and R65C02 apart from ADC and SBC; the other opcodes repeat those of the 6510.
- The device side of the ACIA (resources, interrupt selection).
- The other savers of cartconv (fcplus, two-block types, Ocean, Fun Play, EasyCalc, Zaxxon, Stardos, Dela 64 and 256, REX), its repair mode, output errors, default names and command line.
- The bus, the memory maps, the video and sound chips, the CIAs, the disk drive: nothing outside the files named above.
