# Verified models of four VICE cores

This project models the part of VICE where timing and bookkeeping are decided, and proves in Dafny that it does what it
is for. `dafny verify dfyconfig.toml` checks the whole project.

**The 6510 interpreters.** `Isa6510` is the reference: instructions as operations times addressing modes, with the cycle
counts of the data sheet and the lazily evaluated flags of the source. `InsnCore` is the instruction-stepped interpreter
(`6510core.c`) and `CycleCore` the cycle-stepped one (`6510dtvcore.c`), both macro by macro as methods on the same kind
of `Machine`; `InsnSwitch` and `CycleSwitch` are their opcode switches as tables of macro calls. Both are proved to
follow the reference, so `Lockstep` can conclude that they agree on every run. `Monitor6510` is the monitor's opcode table
(`monitor/asm6502.c`) and `Eager6510` a second machine, written from its mnemonics on plain flags and literal numbers;
`Seen6510` and `Refinement6510` prove that a program cannot tell the reference machine from it. `Stack6510` proves what programs rely on:
brackets such as JSR and RTS restore what they saved. `NmosAlu`, `CmosAlu` and `WdcAlu` are the adders of the 6510, the
65C02 and the 65816, compared with digit-by-digit arithmetic and signed ranges (`Digits`) and lifted to numbers of any length in `MultiByte`.

**The alarm scheduler.** `AlarmContexts` is the pending array with its back-pointers and cached minimum and the linked
list of alarms, as classes over an array; a ghost map from alarm to deadline says what they stand for. `Dispatching` is
the draining loop, with callbacks as functions of the dispatch history. `AlarmRuns` follows a context over any sequence of
operations. `MainLoop` runs the interpreter and the scheduler together and bounds how late an alarm can be.

**The ACIA 6551.** `Acia6551` is the device as a state machine on values, `AciaCore` the record that `aciacore.c` updates
in place, with its two alarms in a real alarm context, and `AciaRuns` what holds over whole runs: pacing, and where
bytes are lost or stranded. `AciaLaws` says when it interrupts and which bits software reads and writes.

**The 65816.** `Cpu65816` has the operations on mode, widths, stack and banks, `Core65816` the macros as methods on the
registers and 16 MB of memory. `Runs65816` proves the width invariant and that RTI undoes interrupts, `Calls65816` treats
the calls that push without wrapping, `Moves65816` the resumable block moves. `Laws65816` states what the operations do to
status bits, handlers' addresses and index registers in plain numbers.

**The CRT converter.** `CrtFormat` is the file format as printing and parsing functions with their round trips,
`CrtLayout` its bytes by offset, `CartConv` the program's buffer, offset and loops.

`Bytes`, `Status6510` and `Machine6510` hold what several of these share.

Modelling decisions:

- LOAD and STORE of the 6510 are plain memory accesses modulo 2^16, LOAD_LONG and STORE_LONG modulo 2^24. `Machine.View`
  takes the program counter modulo 2^16: `INC_PC` of the 6510 cores does not wrap it, and the instruction core does not
  wrap after RTS either, while the cycle core does (`InsnCore.RtsSub`, `CycleCore.RtsSub`).
- CLOCK is an unbounded number in the processors and a 32-bit number in the scheduler and the ACIA; runs are followed as
  long as it does not wrap around.
- The cycle counts in `Eager6510` are those of the MOS data sheet; the monitor's table has none.
- Which interrupts are accepted, what the host's serial port answers, and how long a character lasts for given register
  contents are arbitrary inputs of the runs.
- The registers SP, X, Y and C of the 65816 are 16 bits wide, as its source demands of the including file.
- In a run of the 65816 every instruction that leaves the mode, the widths, the index registers and SP alone may have any
  outcome (`Other`), but N and Z never move into `reg_p`.

Where the code does not meet the plain claim, the exact condition is proved: `AlarmContext.TimeWarp`, `WarpedMinimum`,
`Sbc65c02`, `Adc16Decimal`, `Sbc16Decimal`, `RtiUndoesEnter`, `RtlUndoesJsrLong`, `PldUndoesPhd`, `OneBlock`, `StepsKept`,
`LossesCounted`, `LostUnlessReady`, `StepStrands`, `StepReturns`, `EasyFlashRoundTrip`, `EasyOverruns`, `LongChipsAreRejected`.

## Model

| member | source | states |
|---|---|---|
| Lockstep.RunBoth | vice/src/6510dtvcore.c:1534-2556 | from equal states, for every memory image and every JAM-free sequence of instructions and accepted interrupts, the instruction core and the cycle core end in the same registers, lazy flags, memory, program counter and clock, namely those of the reference machine; and what a program sees of them is what the mnemonics that the monitor prints for the opcodes do to registers, flags and memory |
| Lockstep.EventCycles | vice/src/6510core.c:54-76 | every instruction and every interrupt entry takes at least two and at most eight cycles |
| Lockstep.RunCycles | vice/src/6510core.c:1967-3062 | the clock of a run of n events grows by between 2n and 8n cycles |
| Isa6510.RunAppend | vice/src/6510core.c:1967-3062 | a run can be extended at its end: its last event acts on what the events before it left |
| Seen6510.ListingIsIsa | vice/src/monitor/asm6502.c:57-330 | the opcode table of the monitor and the instructions that both switches execute agree on mnemonic and addressing mode of all 256 opcodes, JAM included |
| Refinement6510.RunSeen | vice/src/6510core.c:1967-3062 | over every JAM-free run, registers, memory, program counter, clock and the six flags read off the lazily evaluated bytes are those of a machine that executes mnemonics on plain flags |
| Refinement6510.HappenSeen | vice/src/6510core.c:373-410 | the same for one instruction or interrupt: addresses of handlers, bytes pushed, flags and cycles as literal numbers |
| Refinement6510.StepSeen | vice/src/6510core.c:2081-3062 | the same for one instruction |
| Refinement6510.EnterSeen | vice/src/6510core.c:373-410 | an entry pushes the address and the status byte bit by bit, sets I, and continues at the word in 0xfffe or 0xfffa |
| Refinement6510.AneConstant | vice/src/6510core.c:670-679 | the magic constant of ANE does not show |
| Bytes.LogicBits | vice/src/6510core.c:642-650 | AND, ORA and EOR combine the eight bits of their operands by and, or and exclusive or |
| InsnSwitch.SwitchImplementsIsa | vice/src/6510core.c:2081-3062 | each case other than JAM passes the operation, the operand and the length of its opcode, and its cycle arguments, the cycles inside the macros and the fetch add up to the data-sheet count |
| CycleSwitch.SwitchImplementsIsa | vice/src/6510dtvcore.c:1610-2556 | each case other than JAM names the operation and addressing mode of its opcode, the SET_ macro writes where the GET_ macro read, and one cycle an access adds up to the data-sheet count |
| InsnCore.RunEvents | vice/src/6510core.c:1967-3062 | the whole interpreter loop follows the reference machine over any JAM-free run |
| CycleCore.RunEvents | vice/src/6510dtvcore.c:1534-2556 | the same for the cycle core, dummy reads and dummy writes included |
| InsnCore.Step | vice/src/6510core.c:2081-3062 | fetch and switch together are one step of the reference machine |
| CycleCore.Step | vice/src/6510dtvcore.c:1610-2556 | fetch and switch together are one step of the reference machine |
| InsnCore.Perform | vice/src/6510core.c:2081-3062 | a call of the switch performs the instruction that its opcode decodes to, cycles included |
| CycleCore.Perform | vice/src/6510dtvcore.c:1610-2556 | a case of the switch performs the instruction that its opcode decodes to, cycles included |
| InsnCore.React | vice/src/6510core.c:1979-2004 | an instruction or an accepted interrupt has the effect of the reference event |
| CycleCore.React | vice/src/6510dtvcore.c:1541-1565 | an instruction or an accepted interrupt has the effect of the reference event |
| InsnCore.DoInterrupt | vice/src/6510core.c:373-410 | seven cycles, return address and status with B clear on the stack, I set, and the vector chosen after the pushes, as the reference entry |
| CycleCore.DoInterrupt | vice/src/6510dtvcore.c:308-361 | the two code paths for NMI and IRQ both equal the reference entry |
| CycleCore.NmiSequence | vice/src/6510dtvcore.c:313-342 | fetching the vector before I is set makes no difference to the outcome |
| CycleCore.DoIrqBrk | vice/src/6510dtvcore.c:269-303 | the shared tail of BRK and IRQ pushes, masks and vectors as the reference entry, through 0xfffa when an NMI has come up during the pushes |
| CycleCore.TakeOver | vice/src/6510dtvcore.c:269-303 | a BRK in which an NMI comes up is the reference event of a hijacked BRK, fetch included |
| Machine6510.FetchOpcode | vice/src/6510core.c:1870-1908 | the bytes fetched are the three bytes at the program counter modulo 2^16, for two or three cycles as the table says |
| InsnCore.LoadAbsIndexed | vice/src/6510core.c:473-490 | reads the wrapped address, with one more cycle exactly when the page is crossed |
| InsnCore.LoadIndX | vice/src/6510core.c:497 | the pointer comes from page zero with wrap-around of both of its bytes |
| InsnCore.LoadIndY | vice/src/6510core.c:499-517 | pointer from page zero, index added modulo 2^16, one more cycle exactly on a page crossing |
| InsnCore.LoadBy | vice/src/6510core.c:471-496 | the load of a read-modify-write macro reads the target of its addressing mode |
| InsnCore.StoreBy | vice/src/6510core.c:519-566 | the store of a read-modify-write macro hits the same target as its load |
| InsnCore.StoreAbsIndexed | vice/src/6510core.c:525-560 | the dummy read at the uncorrected address does not show, the store goes to the wrapped sum |
| InsnCore.StoreAbsSh | vice/src/6510core.c:539-577 | on a page crossing the high byte of the address is replaced by the value stored |
| InsnCore.AdcA | vice/src/6510core.c:598-631 | accumulator, C, V and the lazy N and Z bytes are those of the digit-serial definition, in both modes and for all bytes |
| InsnCore.SbcA | vice/src/6510core.c:1396-1425 | result by digits in decimal mode, all flags from the binary difference; V is that of NmosAlu.SbcBytes |
| InsnCore.CompareWith | vice/src/6510core.c:846-877 | carry is the unsigned comparison although the code tests the size of a 32-bit difference |
| InsnCore.ArrImm | vice/src/6510core.c:680-711 | the rotated AND with its decimal fix-ups, flags included |
| InsnCore.Bit | vice/src/6510core.c:748-758 | N and V from the operand, Z from the AND, accumulator untouched |
| InsnCore.Anc | vice/src/6510core.c:633-640 | C becomes the sign of the AND |
| InsnCore.Asr | vice/src/6510core.c:738-746 | C becomes the bit shifted out of the AND |
| InsnCore.Sbx | vice/src/6510core.c:1427-1437 | X is the difference from the AND of A and X without borrow in, C its comparison |
| InsnCore.Las | vice/src/6510core.c:1062-1070 | the AND with the stack pointer goes to A, X and SP |
| InsnCore.Asl | vice/src/6510core.c:713-726 | arithmetic shift left: the memory byte, the registers, C and the lazy flags change as one reference read-modify-write |
| InsnCore.Lsr | vice/src/6510core.c:1107-1120 | logical shift right: the memory byte, the registers, C and the lazy flags change as one reference read-modify-write |
| InsnCore.Rol | vice/src/6510core.c:1250-1263 | rotate left through carry: the memory byte, the registers, C and the lazy flags change as one reference read-modify-write |
| InsnCore.Ror | vice/src/6510core.c:1276-1292 | rotate right through carry: the memory byte, the registers, C and the lazy flags change as one reference read-modify-write |
| InsnCore.Inc | vice/src/6510core.c:951-962 | increment: the memory byte, the registers, C and the lazy flags change as one reference read-modify-write |
| InsnCore.Dec | vice/src/6510core.c:914-926 | decrement: the memory byte, the registers, C and the lazy flags change as one reference read-modify-write |
| InsnCore.Slo | vice/src/6510core.c:1516-1533 | shift left and OR: the memory byte, the registers, C and the lazy flags change as one reference read-modify-write |
| InsnCore.Sre | vice/src/6510core.c:1557-1574 | shift right and EOR: the memory byte, the registers, C and the lazy flags change as one reference read-modify-write |
| InsnCore.Rla | vice/src/6510core.c:1213-1228 | rotate left and AND: the memory byte, the registers, C and the lazy flags change as one reference read-modify-write |
| InsnCore.Rra | vice/src/6510core.c:1304-1322 | rotate right and add, decimal mode included: the memory byte, the registers, C and the lazy flags change as one reference read-modify-write |
| InsnCore.Isb | vice/src/6510core.c:978-991 | increment and subtract, decimal mode included: the memory byte, the registers, C and the lazy flags change as one reference read-modify-write |
| InsnCore.Dcp | vice/src/6510core.c:879-893 | decrement and compare: the memory byte, the registers, C and the lazy flags change as one reference read-modify-write |
| InsnCore.IndYRmw | vice/src/6510core.c:895-912 | the ($nn),Y variants of the combined operations use the wrapped effective address |
| InsnCore.ShaIndY | vice/src/6510core.c:1470-1487 | the value ANDed with the high byte plus one also replaces the high byte of the address on a crossing |
| InsnCore.BranchIf | vice/src/6510core.c:761-778 | target modulo 2^16 from a signed offset; one cycle for taking the branch, another exactly when the page of the next instruction is left |
| InsnCore.BrkTrap | vice/src/6510core.c:781-817 | pushes the address after the signature byte and the status with B set, masks interrupts, takes its vector or, when an NMI has come up during the pushes, that of the NMI |
| InsnCore.TakeOver | vice/src/6510core.c:781-817 | a BRK in which an NMI comes up is the reference event of a hijacked BRK, fetch included |
| InsnCore.JsrAbs | vice/src/6510core.c:1048-1060 | pushes the address of its own last byte, and fetches the high target byte after the pushes |
| InsnCore.RtsSub | vice/src/6510core.c:1365-1376 | continues behind the pulled address; the raw program counter is not wrapped |
| InsnCore.RtiInt | vice/src/6510core.c:1353-1363 | restores the split status and the pulled address |
| InsnCore.PlpStack | vice/src/6510core.c:1199-1211 | the pulled byte is split so that reg_p holds neither N nor Z |
| InsnCore.PhpStack | vice/src/6510core.c:1181-1186 | the status byte is pushed with B and the unused bit set |
| InsnCore.JmpIndirect | vice/src/6510core.c:1038-1046 | the high target byte is read without carry into the page |
| CycleCore.GetOperand | vice/src/6510dtvcore.c:417-636 | every GET_ macro delivers the operand of its mode, in as many cycles as accesses plus one for a crossed page |
| CycleCore.SetModified | vice/src/6510dtvcore.c:436-648 | the dummy write of the old value is overwritten: memory differs only at the target |
| CycleCore.SetOperand | vice/src/6510dtvcore.c:432-640 | every SET_ macro stores at the effective address of its mode |
| CycleCore.SetAbsSh | vice/src/6510dtvcore.c:650-670 | on a page crossing the high byte of the address is replaced by the ANDed value; the value stored is ANDed unless a cycle was stolen |
| CycleCore.ReadBody | vice/src/6510dtvcore.c:689-1135 | the register and flag effect of each read operation, all bytes, both arithmetic modes |
| CycleCore.ModifyBody | vice/src/6510dtvcore.c:810-1299 | the register and flag effect of each read-modify-write operation, and the byte it writes back |
| CycleCore.BranchIf | vice/src/6510dtvcore.c:878-897 | as the other core, with the dummy fetches |
| CycleCore.JsrAbs | vice/src/6510dtvcore.c:1092-1110 | as the other core: the high target byte is fetched after the pushes |
| CycleCore.RtsSub | vice/src/6510dtvcore.c:1318-1333 | continues behind the pulled address; here the raw program counter is wrapped to 16 bits |
| CycleCore.RtiInt | vice/src/6510dtvcore.c:1301-1316 | restores the split status and the pulled address |
| Status6510.PushedStatusPullsBack | vice/src/6510core.c:186-200 | every flag survives a push and a pull because reg_p itself never holds N or Z |
| Status6510.PulledStatusPushesBack | vice/src/6510core.c:186-200 | a pulled status byte pushes back unchanged but for the unused bit |
| Status6510.StatusRoundTrip | vice/src/mos6510.h:50-57 | no flag is lost in the byte form of the status |
| Status6510.ByteRoundTrip | vice/src/mos6510.h:50-57 | every byte is the byte form of its flags |
| Status6510.BitWeights | vice/src/mos6510.h:50-57 | N weighs 128, V 64, the unused bit 32, B 16, D 8, I 4, Z 2 and C 1 |
| Status6510.BitsOfByte | vice/src/mos6510.h:50-57 | and so they are taken from a byte |
| Stack6510.NestingRestores | vice/src/6510core.c:336-341 | whatever happens between them, every JSR/RTS, PHA/PLA, PHP/PLP, BRK/RTI and interrupt/RTI bracket of a nest at most 256 bytes deep, however deep it lies, gives back SP and A, the flags or the successor it saved, taken-over BRKs and IRQs included; and the bytes that were on the stack stay there |
| Stack6510.ShapesAreRuns | vice/src/6510core.c:1967-3062 | the nested shapes are runs of the reference machine, event by event |
| Stack6510.PushStacks | vice/src/6510core.c:336-341 | a push extends the LIFO below the base, wrapping in page one, as long as fewer than 256 bytes are outstanding |
| Stack6510.PullUnstacks | vice/src/6510core.c:336-341 | a pull takes back the byte pushed last |
| Stack6510.CloseRestores | vice/src/6510core.c:1174-1211 | each closing instruction finds what its opening one saved |
| AlarmContexts.AlarmContext.Set | vice/src/alarm.h:148-187 | the table of deadlines gains or changes one entry; on a full context a new alarm changes nothing at all; pending_idx, cached minimum and list stay right |
| AlarmContexts.AlarmContext.Unset | vice/src/alarm.c:167-207 | exactly one entry leaves the table; swapping the last entry in keeps pending_idx an exact inverse and the cached minimum right |
| AlarmContexts.AlarmContext.UpdateNextPending | vice/src/alarm.h:112-131 | the scan leaves the minimum, all-ones when nothing is pending, and an index that attains it |
| AlarmContexts.AlarmContext.SwapInLast | vice/src/alarm.c:178-192 | the moved entry knows its new index; all other entries stay |
| AlarmContexts.AlarmContext.NextIsEarliest | vice/src/alarm.h:80-86 | the cached clock is a lower bound of all deadlines that one of them attains, and all-ones when the table is empty |
| AlarmContexts.AlarmContext.CountPending | vice/src/alarm.c:167-207 | the array holds each pending alarm exactly once |
| AlarmContexts.AlarmContext.New | vice/src/alarm.c:105-137 | a new alarm is at the head of the list and not pending |
| AlarmContexts.AlarmContext.Destroy | vice/src/alarm.c:139-165 | the alarm leaves the list wherever it stands and its deadline leaves the table |
| AlarmContexts.AlarmContext.DestroyAll | vice/src/alarm.c:59-77 | destroying alarm after alarm ends with nothing live and nothing pending |
| AlarmRuns.RunAll | vice/src/alarm.c:43-207 | from alarm_context_init on, any sequence of creating, arming, unsetting and destroying alarms leaves the list and the deadlines of a fold over that sequence, refusals on a full table included, in a context that keeps its invariant |
| AlarmRuns.Perform | vice/src/alarm.c:43-207 | each operation changes list and deadlines as one step of that fold |
| AlarmContexts.AlarmContext.TimeWarp | vice/src/alarm.c:79-101 | all deadlines move in 32-bit arithmetic; the cached minimum stays right if and only if nothing moves, or something is pending, the cached index is in use, and all deadlines wrap around or none does |
| AlarmContexts.WarpedMinimum | vice/src/alarm.c:79-101 | the same condition on the bare sequence of pending clocks |
| AlarmContexts.WarpOrder | vice/src/alarm.c:88-94 | a warp keeps the order of two clocks if and only if both wrap around or neither does |
| AlarmContexts.WarpThereAndBack | vice/src/alarm.c:79-101 | a warp forward adds and a warp backward subtracts its amount in 32 bits, and one undoes the other |
| AlarmContexts.WarpCanFail | vice/src/alarm.c:79-101 | an empty context and one with two deadlines whose cached minimum a warp by one makes wrong |
| Dispatching.ProcessAlarms | vice/src/6510core.c:114-122 | it terminates for all callbacks that unset their alarm or re-arm it strictly later, every dispatch is of an earliest due alarm with offset CLK minus deadline, and nothing due remains |
| Dispatching.InOrder | vice/src/6510core.c:114-122 | dispatches happen in nondecreasing order of their deadlines |
| Dispatching.ExactlyTheDue | vice/src/6510core.c:114-122 | every alarm that was due is dispatched with its deadline; an alarm that was not due keeps its deadline and is not dispatched |
| Dispatching.Progress | vice/src/6510core.c:114-122 | each dispatch lowers the total lateness, which is why the loop ends |
| Dispatching.DispatchNext | vice/src/alarm.h:133-146 | offset and alarm come from the cached entry, which is the earliest |
| MainLoop.Run | vice/src/6510core.c:1967-2004 | over whole runs of the processor, with alarms armed for future cycles at any instruction and any such callbacks, no dispatch at the end of a round is more than seven cycles late, and none between the pushes and the vector of a BRK or an interrupt more than four |
| MainLoop.Round | vice/src/6510core.c:373-410 | one round drains the alarms in the middle of an entry and at its end, in order, dispatches none of them more than four or seven cycles late, and leaves nothing due |
| Acia6551.AlwaysConsistent | vice/src/aciacore.c:374-1219 | in every reachable state the active flags say exactly which alarms are pending, with the recorded clocks; an active transmitter alarm implies a busy transmitter; a waiting byte implies TDRE clear; irq matches the line |
| Acia6551.StepConsistent | vice/src/aciacore.c:897-1219 | each access, alarm and reset keeps that |
| AciaRuns.TransmissionIsPaced | vice/src/aciacore.c:1114-1150 | without reset or DTR drop two successive bytes leave at least as many cycles apart as a character lasted when the first one left, however stores, CTRL changes and alarms interleave |
| AciaRuns.NoByteLost | vice/src/aciacore.c:897-1219 | since the last reset, bytes written are bytes sent plus the one waiting if the software is polite, and bytes received are bytes read plus the one held while no overrun is flagged |
| AciaRuns.LostUnlessReady | vice/src/aciacore.c:916-932 | a store to the data register keeps the balance of written, sent and waiting bytes if and only if DTR is on and none is waiting, and the balance still holds after the next alarm if and only if the port was open as well |
| AciaRuns.OpenedInTime | vice/src/aciacore.c:956-971 | unless the port is opened before the alarm fires: then the byte is sent |
| AciaRuns.LossesCounted | vice/src/aciacore.c:897-1150 | in every run from an idle transmitter, polite or not, the bytes missing are as many as the stores with DTR off, the stores over a waiting byte and the alarms that found the port closed since the last reset; what was sent and is waiting is what was written, in order, if and only if there were none |
| AciaRuns.SentOrDue | vice/src/aciacore.c:897-1150 | polite software that never drops DTR over a waiting byte: each byte written was sent, or its alarm is set and the port is open |
| AciaRuns.StepStrands | vice/src/aciacore.c:956-971 | an event takes the alarm from a waiting byte if and only if it is a store to the command register that drops DTR while the port is open, or a read-modify-write one of whose stores does |
| AciaRuns.AlarmsStay | vice/src/aciacore.c:897-1150 | in a run without such stores every waiting byte has its alarm |
| AciaRuns.StrandedByte | vice/src/aciacore.c:956-971 | DTR off and on again over a waiting byte: it is neither sent nor dropped, no alarm is set and TDRE stays clear |
| AciaRuns.StepReturns | vice/src/aciacore.c:933-951 | TDRE clear means that a byte waits for its alarm; an event ends that if and only if it strands a byte, is a programmed reset while TDRE is clear, or an alarm that finds the port closed |
| AciaRuns.EmptyReturns | vice/src/aciacore.c:897-1150 | in a run without these, software that waits for TDRE waits for an alarm that is set |
| AciaRuns.OverwrittenByteIsLost | vice/src/aciacore.c:916-932 | two stores in a row always lose a byte |
| AciaRuns.EmptyMeansReady | vice/src/aciacore.c:916-932 | waiting for TDRE with DTR on and the port open is polite enough |
| AciaRuns.AlarmsMoveForward | vice/src/aciacore.c:1139-1150 | both callbacks re-arm their alarm strictly later or unset it, which is what the dispatcher asks of its callbacks |
| AciaLaws.IrqWhenPending | vice/src/aciacore.c:1114-1219 | in every run the device interrupts if and only if a byte was received with bit 1 of CMD clear, or sent with bits 2 and 3 being 01, since the last access to the status register and the last reset; and the line follows unless there is none |
| AciaLaws.StepIrq | vice/src/aciacore.c:897-1219 | one event at a time: what raises the interrupt and what acknowledges it |
| AciaLaws.StatusBits | vice/src/aciacore.c:1021-1029 | in a read of the status register bit 0x10 is transmitter empty, 0x08 receiver full, 0x04 overrun, 0x20 DSR and 0x80 the interrupt |
| AciaLaws.HandshakeLines | vice/src/aciacore.c:586-624 | after a store to CMD, RTS is on unless bits 2 and 3 are both clear, and DTR follows bit 0 |
| AciaLaws.ProgrammedResetState | vice/src/aciacore.c:933-951 | CMD is ANDed with 0xe0, both lines go off, the port and the transmitter alarm with them |
| AciaLaws.ByteReceived | vice/src/aciacore.c:1176-1219 | a byte that arrives is latched, receiver full is set, and overrun if it was set already |
| AciaLaws.WhenAlarmsFire | vice/src/aciacore.c:916-932 | the transmitter fires one cycle after a store to an idle device and then a character later, the receiver five quarters of one later |
| AciaCore.Acia.RunEvents | vice/src/aciacore.c:897-1219 | the device object, with its alarms in a shared context, follows the state machine over any sequence of accesses and alarms and leaves other alarms alone |
| AciaCore.Acia.Store | vice/src/aciacore.c:897-978 | register decoding in both layouts, the double store of read-modify-write instructions, and each register effect, alarms included |
| AciaCore.Acia.Read | vice/src/aciacore.c:991-1051 | the value read and the side effects: RDRF cleared, interrupt acknowledged, last_read kept |
| AciaCore.Acia.TxAlarm | vice/src/aciacore.c:1114-1150 | a waiting byte goes out when the port is open, TDRE follows, and the interrupt if and only if bits 2 and 3 of CMD are 01; the alarm is re-armed or unset |
| AciaCore.Acia.RxAlarm | vice/src/aciacore.c:1176-1219 | a received byte is latched, RDRF or OVERRUN set, the interrupt raised if and only if bit 1 of CMD is clear, the alarm re-armed |
| AciaCore.Acia.SetHandshakeLines | vice/src/aciacore.c:586-624 | RTS and DTR follow the command register, and RTS decides over the receiver alarm |
| AciaCore.Acia.SetTicks | vice/src/aciacore.c:374-437 | the character times follow the registers and an active receiver alarm is re-armed |
| AciaCore.Acia.Reset | vice/src/aciacore.c:642-674 | both alarms unset, registers at their defaults, TDRE set, interrupt released |
| AciaCore.Acia.ProgrammedReset | vice/src/aciacore.c:933-951 | transmitter stopped, OVERRUN cleared, command bits below parity cleared, port closed |
| AciaCore.Acia.StoreCmd | vice/src/aciacore.c:956-971 | opening and closing the port with DTR |
| AciaCore.Acia.RoomFor | vice/src/aciacore.c:897-932 | with at most 256 live alarms in the context arming never fails |
| NmosAlu.AdcBytes | vice/src/6510core.c:598-631 | in decimal mode the accumulator and carry are the digit-serial decimal sum for all bytes, N comes from the sum before the high digit is corrected, and Z from the binary sum; V holds if and only if the signed sum is outside -128 to 127, in decimal mode that of the signed high digits outside -8 to 7 |
| NmosAlu.SbcBytes | vice/src/6510core.c:1396-1425 | the decimal result is digit-serial for all bytes, valid BCD or not; carry and flags are those of the binary difference, and V holds in both modes if and only if the signed difference is outside -128 to 127 |
| Digits.AddRange | vice/src/6510core.c:626 | the sign comparison of ADC is the range check on two-complement numbers |
| Digits.SubRange | vice/src/6510core.c:1416-1421 | the sign comparison of SBC is the range check on two-complement numbers |
| Digits.DecimalAddRange | vice/src/6510core.c:605-617 | in decimal mode the sign comparison of ADC is the range check on the signed high digits and the carry from the low ones |
| NmosAlu.DecimalAdc | vice/src/6510core.c:605-617 | the decimal sum and its carry by digits, and the sign that N and V use |
| NmosAlu.DecimalSbc | vice/src/6510core.c:1404-1418 | borrow bits of two-complement intermediate values give the digit-serial difference |
| NmosAlu.ArrBytes | vice/src/6510core.c:680-711 | A, flags and the decimal fix-ups of ARR by digits |
| CmosAlu.Adc65c02 | vice/src/65c02core.c:534-566 | the digit-serial decimal sum for all bytes, N and Z from the corrected result, and V of a binary sum by its range |
| CmosAlu.Sbc65c02 | vice/src/65c02core.c:1197-1220 | the carry is right for all bytes; the decimal result is the digit-serial one if and only if the difference of the low digits is at least minus ten, and one too small in its high digit otherwise; V by the range of the signed difference |
| CmosAlu.InvalidDigitDiffers | vice/src/65c02core.c:1197-1220 | the result of Sbc65c02 for 0x00 minus 0x0b, an operand with an invalid digit, is not the digit-serial one |
| WdcAlu.Adc8 | vice/src/65816core.c:1365-1391 | the digit-serial decimal sum for all bytes, N and Z from the corrected result, and V of a binary sum by its range |
| WdcAlu.Adc16Decimal | vice/src/65816core.c:1392-1425 | result and carry are those of two chained 8-bit decimal additions, for all inputs; V is theirs if and only if bit 15 of the accumulator is clear or that of the operand equals the sign of the sum |
| WdcAlu.OverflowMissed | vice/src/65816core.c:1414 | 0x8000 plus 0x0000, which sets V, and 0x8000 plus 0x8000, which does not |
| WdcAlu.Adc16Binary | vice/src/65816core.c:1418-1425 | result, carry and V are those of two chained 8-bit binary additions, and V holds if and only if the signed sum is outside -32768 to 32767 |
| WdcAlu.Sbc8 | vice/src/65816core.c:2278-2298 | the decimal result by complemented digits is the digit-serial one for all bytes, carry included, and V by the range of the signed difference |
| WdcAlu.Sbc16Binary | vice/src/65816core.c:2299-2302 | result, carry and V are those of two chained 8-bit binary subtractions, and V holds if and only if the signed difference is outside -32768 to 32767 |
| WdcAlu.Sbc16Decimal | vice/src/65816core.c:2303-2312 | result and carry are those of two chained 8-bit decimal subtractions from the low byte of the accumulator alone, hence the right ones if and only if the high byte is zero |
| MultiByte.AddNumbers | vice/src/6510core.c:598-631 | on all three ALUs alike, chaining ADC from the low byte over n bytes yields the n-byte sum, binary for all bytes and decimal for packed BCD, with the carry as overflow |
| MultiByte.SubtractNumbers | vice/src/6510core.c:1396-1425 | on all three ALUs, chaining SBC yields the n-byte difference, and the final carry decides the comparison of the numbers |
| MultiByte.ChainAdds | vice/src/6510core.c:598-631 | the value of the chained sum plus its carry out of n bytes is the sum of the values |
| MultiByte.ChainSubtracts | vice/src/6510core.c:1396-1425 | the value of the chained difference minus its borrow is the difference of the values |
| MultiByte.CarryCompares | vice/src/6510core.c:1396-1425 | no borrow out of n bytes if and only if the first number is at least the second |
| MultiByte.SubtractionUndoesAddition | vice/src/6510core.c:1396-1425 | subtracting what was added gives back the original bytes, and the complement of the carry |
| Core65816.Machine.RunFromReset | vice/src/65816core.c:2186-2214 | every run from a reset follows the state machine and keeps the registers within their widths |
| Runs65816.RunWidths | vice/src/65816core.c:232-233 | in every run, narrow index registers stay below 256 and the emulation-mode stack pointer stays in page one, the instructions that decrement SP without wrapping included |
| Runs65816.EventWidths | vice/src/65816core.c:1845-2263 | each operation that touches mode, widths, index registers or stack pointer keeps that |
| Runs65816.ResetWidths | vice/src/65816core.c:2186-2214 | reset establishes the widths whatever the registers held |
| Runs65816.RtiUndoesEnter | vice/src/65816core.c:2220-2244 | after BRK, COP, IRQ or NMI, RTI restores SP, the flags and the return address in both modes and for every SP, all registers if and only if X and Y are within their width, PBR in native mode, and memory differs only in the cells pushed |
| Runs65816.SavedFrame | vice/src/65816core.c:1534-1562 | the bytes pushed are the frame of the mode, in the cells below SP |
| Calls65816.RtlUndoesJsrLong | vice/src/65816core.c:2246-2263 | SP always comes back; the return goes to the next instruction and its bank in native mode for every SP, in emulation mode from 0x103 up, and below that if and only if three bytes of memory happen to be right |
| Calls65816.PldUndoesPhd | vice/src/65816core.c:2101-2115 | SP always comes back; D comes back in native mode for every SP, in emulation mode from 0x102 up, and below that if and only if two bytes of memory happen to be right |
| Calls65816.ShallowReturnFails | vice/src/65816core.c:2246-2263 | a concrete state in emulation mode, SP = 0x102, from which the return misses |
| Calls65816.ShallowPullFails | vice/src/65816core.c:2101-2115 | a concrete state in emulation mode, SP = 0x101, in which D is lost |
| Laws65816.SepOrsRepAnds | vice/src/65816core.c:2144-2182 | in native mode SEP ORs its mask to the status byte and REP ANDs its complement |
| Laws65816.EmulatedSepRep | vice/src/65816core.c:2144-2182 | in emulation mode the same, with bits 4 and 5 left as they are |
| Laws65816.RunLazy | vice/src/65816core.c:218-222 | in every run reg_p itself holds neither N nor Z |
| Laws65816.PlpTakesByte | vice/src/65816core.c:2117-2127 | after PLP the status byte is the byte pulled, in emulation mode but for bit 5 |
| Laws65816.HandlerOf | vice/src/65816core.c:1534-1562 | where each cause continues in each mode, as literal addresses; bank 0, D clear and I set |
| Laws65816.ResetState | vice/src/65816core.c:2186-2214 | RES continues at the word in 0xfffc with everything in bank and page zero |
| Laws65816.LongTarget | vice/src/65816core.c:1864-1882 | the target is in the three operand bytes, wrapping in the bank, the last one as it is after the first push |
| Laws65816.LongReturn | vice/src/65816core.c:2246-2263 | behind the address in the three bytes above SP, which may leave page one |
| Laws65816.XceExchanges | vice/src/65816core.c:2525-2545 | mode and carry are exchanged, and the registers left as the new mode needs them |
| Laws65816.XceTwice | vice/src/65816core.c:2525-2545 | twice restores mode and carry, and the registers that fit into emulation mode |
| Laws65816.IndexTransfers | vice/src/65816core.c:2372-2383 | TAX, TAY, TSX take the value modulo the width, TXY and TYX as it is, N and Z in the width |
| Laws65816.IndexCounts | vice/src/65816core.c:1681-1692 | INX, INY, DEX, DEY count modulo the width, N and Z in the width |
| Laws65816.IndexPull | vice/src/65816core.c:2129-2138 | one or two bytes by width, low byte first, N and Z in the width |
| Laws65816.StackLoads | vice/src/65816core.c:2396-2405 | TCS and TXS put the stack pointer into page one in emulation mode |
| Moves65816.BlockMoved | vice/src/65816core.c:1928-1959 | a block move started with C = n leaves its instruction after exactly n + 1 bytes, with C = 0xffff, DBR the destination bank, X and Y advanced in their width, and memory equal to the sequential copy, outside the stack cells of interrupts taken in between |
| Moves65816.OneBlock | vice/src/65816core.c:1930-1943 | all bytes are moved between the same two banks if and only if the operands read the same with and without wrap-around at the end of the program bank, only the wrapped ones mattering for a single byte |
| Moves65816.StraddlingMove | vice/src/65816core.c:1930-1943 | MVN at 0xfffe moves its first byte from bank 2 and its second from bank 3 |
| Moves65816.StepsKept | vice/src/65816core.c:2220-2244 | a move goes on through all its interrupts if and only if there are none, or in native mode, or from program bank zero |
| Moves65816.BankLost | vice/src/65816core.c:2231-2234 | emulation mode, program bank 1: after an interrupt the next opcode is that of bank zero |
| Moves65816.BlockArrives | vice/src/65816core.c:1928-1959 | when no byte is overwritten before it is read, the target holds the original source block, interrupts or not |
| Moves65816.SafeDirection | vice/src/65816core.c:1957-1959 | MVN may move a block down, MVP up, even onto itself |
| Moves65816.InterruptOnce | vice/src/65816core.c:2220-2244 | an interrupt and RTI between two bytes change nothing but stack cells and, in emulation mode, the program bank, which becomes zero: the move resumes if and only if it was zero already |
| Moves65816.CopiedBlock | vice/src/65816core.c:1928-1959 | the sequential copy is the original block when source and target do not get in each other's way |
| Core65816.Machine.PushByte | vice/src/65816core.c:318-326 | in emulation mode the stack pointer wraps in page one, in native mode in bank zero |
| Core65816.Machine.PullByte | vice/src/65816core.c:330 | undoes the wrap of PUSH |
| Core65816.Machine.StoreAndDecrement | vice/src/65816core.c:2059-2067 | the push that does not wrap in page one |
| Core65816.Machine.Interrupt | vice/src/65816core.c:1534-1562 | frame, D and I, vector and program bank of each cause in each mode |
| Core65816.Machine.ReturnFromInterrupt | vice/src/65816core.c:2220-2244 | status first, with narrowing of X and Y, then the address, and the bank in native mode only |
| Core65816.Machine.CallLong | vice/src/65816core.c:1864-1882 | the program bank and the address of the last operand byte are pushed; the target bank is fetched after the first push |
| Core65816.Machine.ReturnLong | vice/src/65816core.c:2246-2263 | three pulls that do not wrap, then SP is put back into page one |
| Core65816.Machine.PushDirect | vice/src/65816core.c:2059-2067 | D is pushed high byte first, only the second push wrapping |
| Core65816.Machine.PullDirect | vice/src/65816core.c:2101-2115 | two pulls that do not wrap, N and Z from all 16 bits |
| Core65816.Machine.ExchangeModes | vice/src/65816core.c:2525-2545 | switching to emulation narrows X, Y and SP, switching to native sets M and X |
| Core65816.Machine.SetBits | vice/src/65816core.c:2144-2182 | REP and SEP change exactly the masked flags, M and X only in native mode, and SEP narrows; in native mode the status byte is ORed with the mask or ANDed with its complement |
| Core65816.Machine.Reset | vice/src/65816core.c:2186-2214 | emulation mode, page-one stack, banks and D cleared |
| Core65816.Machine.MoveByte | vice/src/65816core.c:1928-1959 | one byte between banks, registers advanced and narrowed, PC past the operands with the last byte only |
| Core65816.Machine.PullStatus | vice/src/65816core.c:2117-2127 | status pulled behind the opcode, X and Y narrowed if X is set |
| Core65816.Machine.TransferTo | vice/src/65816core.c:2372-2383 | narrowed when X is set |
| Core65816.Machine.CopyTo | vice/src/65816core.c:2473-2489 | copied without narrowing |
| Core65816.Machine.CountIndex | vice/src/65816core.c:1681-1692 | counts modulo the width |
| Core65816.Machine.PullIndexRegister | vice/src/65816core.c:2129-2138 | one or two bytes by width |
| Core65816.Machine.AccumulatorToStack | vice/src/65816core.c:2396-2405 | page one in emulation mode |
| Core65816.Machine.IndexToStack | vice/src/65816core.c:2462-2471 | 0x100 OR X in emulation mode |
| CrtFormat.RegularRoundTrip | vice/src/cartconv.c:722-861 | for every image of n banks of equal length, loading the saved file gives back the cart type, the ultimax flag and the exact payload, skipping no padding |
| CrtFormat.SavedBufferLoads | vice/src/cartconv.c:828-861 | the same for what the converter writes from its larger buffer |
| CrtFormat.EasyFlashRoundTrip | vice/src/cartconv.c:920-958 | loading a saved EasyFlash file gives the original megabyte byte for byte if and only if nothing was omitted or some half-bank is not empty; otherwise it is rejected |
| CrtFormat.BlankImageIsRejected | vice/src/cartconv.c:932-958 | the blank megabyte is written without chips and refused when loaded |
| CrtFormat.LongChipsAreRejected | vice/src/cartconv.c:779-817 | chips of 0xfff0 bytes and more are written with a chunk length that the loader refuses, so the bound on the length is exact |
| CrtFormat.NegativeTypesAreRejected | vice/src/cartconv.c:1131-1140 | a negative cart type is written but never accepted back |
| CrtFormat.ChipFields | vice/src/cartconv.c:779-817 | both length fields of a chip agree with its data, and bank and address can be read back |
| CrtFormat.ChipsParse | vice/src/cartconv.c:630-688 | chips of equal length parse back to their concatenation, from any position |
| CrtFormat.EasyChipsParse | vice/src/cartconv.c:603-628 | the chips from half-bank k on turn the image filled up to k into the whole image |
| CrtFormat.HeaderLoads | vice/src/cartconv.c:722-777 | type, lines and size of the header read back as written |
| CrtLayout.ChipsLaidOut | vice/src/cartconv.c:843-858 | chip k of n: offset, tag, lengths, kind, bank, address and data, byte by byte |
| CrtLayout.EasyChipsLaidOut | vice/src/cartconv.c:938-957 | the same for the half-banks of an EasyFlash image that are kept |
| CrtLayout.HeaderLaidOut | vice/src/cartconv.c:722-777 | the 64 bytes of the header one by one, the name in upper case |
| CrtLayout.FieldsRead | vice/src/cartconv.c:630-688 | which bytes the loaders take their lengths, type and position from |
| CrtLayout.AcceptedSizes | vice/src/cartconv.c:1158-1201 | the sizes of plain binaries, with and without a load address |
| CartConv.Converter.LoadInputFile | vice/src/cartconv.c:1098-1212 | the fields and the buffer hold what the format says: type, ultimax flag and image of a CRT file, or the payload of a binary of an accepted size; a file that would be written past the buffer is stopped there, and everything else is refused |
| CartConv.Converter.LoadAllBanks | vice/src/cartconv.c:630-688 | the loop accepts exactly the files the format accepts, leaves their image in the buffer, and is about to run past the buffer exactly when the format says so |
| CartConv.Converter.LoadEasyflashCrt | vice/src/cartconv.c:603-628 | the loop scatters the half-banks over a blank megabyte as the format says, and is about to run past the buffer exactly when the format says so |
| CartConv.Converter.SaveRegularCrt | vice/src/cartconv.c:828-861 | the file is the header and the chips of the buffer, half-size chips and the computed number of banks included; by byte offsets, chip k starts at 0x40 plus k times its length, names bank k, its address and kind, and holds the k-th piece of the buffer |
| CartConv.Converter.SaveEasyflashCrt | vice/src/cartconv.c:932-958 | the file is the header and the chips of the non-empty half-banks in order; by byte offsets, each half-bank kept follows those kept before it, with its bank, address and data |
| CartConv.Converter.CheckEmptyEasyflash | vice/src/cartconv.c:920-930 | true exactly when all 8 KB are 0xff |
| CartConv.Converter.WriteCrtHeader | vice/src/cartconv.c:722-777 | the 64 header bytes, the name in upper case and padded with zeros |
| CartConv.Converter.WriteChipPackage | vice/src/cartconv.c:779-817 | one chip is appended and the offset moves on by its length |
| CartConv.Converter.SaveThenLoad | vice/src/cartconv.c:828-861 | one run of the program saves a regular cartridge, another loads the file: type, ultimax flag, address and the payload in the buffer are back |
| CartConv.Converter.SaveThenLoadEasyflash | vice/src/cartconv.c:932-958 | the same for EasyFlash: the megabyte is back in the buffer unless it was blank and empty banks were omitted, and then the file is refused |
| CrtFormat.EasyOverruns | vice/src/cartconv.c:603-628 | an EasyFlash file stays inside the buffer if and only if each chip up to the first faulty one names a bank below 64, or is cut off right behind its header |
| CrtFormat.BankOverruns | vice/src/cartconv.c:620-623 | a file whose first chip names bank 64 does not |
| CrtFormat.ChipsOverrun | vice/src/cartconv.c:630-688 | any other file stays inside if and only if its chips up to the first faulty one hold no more than the buffer |
| CrtFormat.SmallFilesFit | vice/src/cartconv.c:630-688 | which is so for every file no longer than the buffer |

## Left out

- Monitor, debugger, traps, JAM, DMA, CPU history, WAI and STP: hooks whose code lies elsewhere; a run stops at JAM.
- Whether an interrupt is accepted (`interrupt_check_*_delay`), or comes up in time to take over another: both are given
  with the events of a run.
- C64DTV register remapping, the monitor's separate table for the C64DTV, burst mode, `SKIP_CYCLE`, which cycles are
  stolen, and the last-opcode information.
- Bank switching: memory is plain, without I/O side effects of dummy accesses.
- The 6510 program counter beyond 16 bits: agreement of the cores is stated modulo 2^16.
- The addressing modes, logic and shift instructions of the 65816 and the cycle counts of all its instructions.
- The 65C02 apart from its adders.
- Cycles stolen while alarms are processed (`CPU_DELAY_CLK`), and arming an alarm for the all-ones clock when the
  processor has reached that clock.
- AlarmContexts.AlarmContext.constructor: names, callbacks and callback data of alarms are not fields; callbacks are the
  functions that `Dispatching` takes.
- Dispatching.ProcessAlarms: a callback acts on its own alarm only; one that also arms or unsets other alarms is not covered.
- The bps tables in floating point: the duration of a character is a function of the registers.
- `acia_set_irq`, `acia_set_mode`, clock overflow callbacks, snapshots, resources and the command line of the ACIA.
- AciaRuns.TransmissionIsPaced: needs a clock that does not wrap around within the run.
- The repair mode and the padding of `cartconv`, its Dela, Rex, Final Cartridge Plus and other special savers, and error texts.
- What happens after a write past the buffer of `cartconv`: the model stops with the status `Overran` before it.
- `autostart`, `attach`, `po` and `checkdoc`: file plumbing and text handling, with no state machine or arithmetic of their own.
