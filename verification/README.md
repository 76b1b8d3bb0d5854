# Athrill V850E2M target: verified model

Athrill's V850E2M target emulates a CPU core and its peripherals. This project models eight of its
parts and proves what they keep over whole runs:

- **Interrupt controller** (`Intc*.dfy`): waiting table, latched levels, the stack of preempted
  interrupts, ISPR, masks, exception entry and return. Runs are arbitrary sequences of steps, with
  requests at any point.
- **Software and protection exceptions** (`Exceptions.dfy`, `ExceptionCore.dfy`, `EntryPoints.dfy`): TRAP,
  FETRAP, SYSCALL, illegal access and the returns, nested in any way, with handlers that save either return
  pair, both or none.
- **Decoder and instruction cache** (`OpTable.dfy`, `Decode*.dfy`, `OpBits.dfy`, `OpCoding.dfy`,
  `Assembler.dfy`, `CodeCache*.dfy`, `CodeClocks.dfy`, `CacheHazard.dfy`, `SelfModifying.dfy`): the opcode
  tables, all fifteen instruction formats, an assembler they are the inverse of, and one clock of a core with
  and without the cache. The cache is proved for any instruction set, then combined with the V850E2M decoder.
- **PREPARE and DISPOSE frames** (`Frames.dfy`, `NestedFrames.dfy`, `FrameCore.dfy`).
- **Flag arithmetic** (`Arithmetic*.dfy`, `MultiWord.dfy`): ADD, SUB, CMP, ADF, SBF and the condition
  codes, for single words and for numbers of any length.
- **System registers and memory protection** (`SysRegs.dfy`, `SysRegCore.dfy`, `Mpu.dfy`,
  `Protection.dfy`).
- **Timer** (`Timer*.dfy`), in the `CPUEMU_CLOCK_BUG_FIX` variant.
- **Manifest printer, parser and merge** of `tools/hako.py` (`Yaml*.dfy`, `Config*.dfy`).

Each part has a state or value datatype with one function per operation of the source, lemmas about
those functions, and (files ending in `Core`, `Controller`, `Unit` or `Tool`, and the merge loop in
`Config.dfy`) the in-place form with the source's own loops and field updates, proved equal to the
functions. 32-bit wrap-around, truncation and the signed reading of words are written out; words are
integers below 2^32. C signed overflow is taken as wrap-around.

## Properties that fail, and exactly when they hold

- Two interrupts of one latched level may nest although the stack has one slot per level. Runs that
  request only lines of a given set all keep the stack in its array if and only if the set has at most nine
  lines (`StackSufficesIffNineLines`); for every larger set `EqualLevelsOverflowTheStack` gives the run.
- For the same reason ISPR may lose the bit of an interrupt still being handled: every state of a run has
  it exact if and only if no interrupt of the run ends above a preempted one of its level
  (`IsprExactIffNoClash`, with the run `EqualLevelsBreakIspr`). Pairwise distinct levels suffice for both.
- The protection tables are rebuilt when all 32 bits of BSEL equal 0x1001, but 16 bits select the bank:
  they follow their registers over all runs if and only if BSEL is written with a zero upper half
  (`InSyncIffUpperHalfIsZero`); `StaleExactlyWhen` names the register bits whose change one LDSR loses.
- A handler returns right from every core if and only if it saves its return pair or no exception of its
  level is raised in its body outside a handler that saves it (`MustSaveIff`).
- TRAP under MPM.AUE saves PSW after clearing the protection bits: `ProtectionSurvivesIff` says when a
  program whose handlers return right gets them back.
- The fast permission check of the clock path allows the same fetches as the general one. The faults they
  record agree if and only if IMP is off or some executable region overlaps the fetch; otherwise one records
  MIP with the program counter and the other MDP with the fetch address (`FastCheckAgrees`).
- The clock-skip product may wrap to zero and then bounds nothing. The skip is safe for all channels and
  clocks if and only if it starts from at most 2^32 (`SkipIsSafeIff`); `HalfWayOvershoots` is a channel that
  any larger start overshoots.
- A stop byte holds the count of a free-running timer (`StoppedFreerunHolds`) but does nothing to an
  interval timer that is counting (`StopIsIgnoredInIntervalMode`).
- CTL0 of timer channels 4 to 7 has the address of CTL1 of channels 0 to 3
  (`OnlyLowChannelsHaveControl`).
- The printer leaves U+0085, U+2028 and U+2029 raw inside strings and the parser breaks lines there:
  the round trip holds if and only if no string leaf has one (`LoadOfDump`).
- With the V850E2M decoder the cached run is the plain run if and only if no address is executed again after
  a halfword of its own format was rewritten (`CacheIsTransparentIffNotRewritten`); `ProgramDiverges` is a
  program of the core that overwrites its own first instruction and ends elsewhere with the cache.

## Model

| member | source | states |
|---|---|---|
| IntcInvariant.ReachableInv | src/device/intc/intc.c:154-328 | In every state reachable from reset the counters agree with the waiting table and the preempted interrupts plus the current one are waiting and strictly ordered by urgency |
| IntcInvariant.ChainDescends | src/device/intc/intc.c:268-328 | That order pairwise: strictly decreasing in (level, number) from the oldest preempted interrupt to the current one, so all are distinct |
| IntcInvariant.MostUrgentIsMinimum | src/device/intc/intc.c:207-266 | The search returns the unique minimum of (level, number) among the waiting unmasked lines that outrank the current one, or nothing when there is none |
| IntcInvariant.AcceptanceIsExact | src/device/intc/intc.c:482-526 | A clock enters a maskable handler if and only if no NMI or watchdog request is pending, NP = ID = 0 and some line is eligible; it enters the unique most urgent one, and what entry changes |
| IntcInvariant.OnlyOwnEndClears | src/device/intc/intc.c:380-430 | A waiting request leaves the table only by the end of its own handler, and its latched level never changes while it waits |
| IntcInvariant.RequestKeepsInv | src/device/intc/intc.c:330-359 | A request adds its line to the waiting set and keeps counts and order, also when the line was waiting already |
| IntcInvariant.EndCurrentKeepsInv | src/device/intc/intc.c:380-430 | The end of an interrupt removes exactly the current line and uncovers the one below it |
| IntcOrder.RequestLatches | src/device/intc/intc.c:330-378 | A request latches the low three bits of the line's byte if the line was not waiting, sets its request bit, wakes the core and changes nothing else |
| IntcOrder.TwoRequestsByBytes | src/device/intc/intc.c:207-266 | From reset with interrupts enabled: of two unmasked lines given bytes p and q and requested, the next clock enters the first if and only if p mod 8 is smaller, or equal and the line is lower; its handler is at 0x80 + 16 n |
| IntcOrder.NextServed | src/device/intc/intc.c:207-266 | The same for any number of requests in any order on an idle core: the next clock enters exactly the line that comes before all other unmasked ones by low three bits and number |
| IntcOrder.ServedByBytes | src/device/intc/intc.c:207-266 | Served one after the other, the lines come in that order, and they are exactly those whose bit 6 is clear |
| IntcOrder.EndIsExact | src/device/intc/intc.c:380-430 | What an 8-bit xxICn write does during a handler: request bit, level, counts, ISPR, the interrupt below, and then the byte |
| IntcOrder.ImrWritesMasks | src/device/intc/intc.c:594-676 | After an IMR write the lines it covers are masked exactly by their data bits; the rest of every byte and of the state is kept |
| IntcOrder.ImrHoldsBack | src/device/intc/intc.c:594-676 | A waiting line covered by an IMR write is held back if and only if its data bit is set |
| IntcOrder.MaskedFromReset | src/device/intc/intc.c:482-526 | From reset no maskable handler is entered, whatever is requested, executed or enabled, until an xxICn or IMR is written |
| IntcNmi.NmiCount | src/device/intc/intc.c:454-475 | Over every bracketed run the NMI requests left are those before plus the arrivals minus the NMI handlers, at all depths |
| IntcNmi.ServedOnceEach | src/device/intc/intc.c:539-548 | From no request pending and NP clear, the clock after any bracketed run enters an NMI handler if and only if more requests arrived than handlers ran |
| IntcNmi.HandlersRunIffPending | src/device/intc/intc.c:539-548 | n NMI handlers can run one after the other if and only if at least n requests are pending |
| IntcNmi.NoneUnderNp | src/device/intc/intc.c:454-475 | Inside an NMI handler no other one runs |
| IntcNmi.NmiEntryIsExact | src/device/intc/intc.c:454-475 | Where an NMI entry goes, what it saves and sets, and that everything else is kept |
| IntcNmi.WatchdogGate | src/device/intc/intc.c:432-452 | A watchdog request enters nothing until NP is set, and then at every clock with return address zero |
| IntcNesting.HandlerRestores | src/cpu/cpu_exec/op_exec_spec.c:257-307 | A bracketed handler with anything nested in it ends with PC, PSW, the current interrupt and the preempted stack as before its accept |
| IntcNesting.NmiHandlerRestores | src/device/intc/intc.c:454-475 | An NMI handler, wherever it comes, leaves PC, PSW, EIPC, EIPSW, the current interrupt and the preempted stack as it found them |
| IntcNesting.RunIsFramed | src/device/intc/intc.c:268-475 | What every bracketed run of any depth keeps of the controller and the control bits |
| IntcDrain.DrainsInOrder | src/device/intc/intc.c:207-266 | With no new requests, as many accept, end and return rounds as there are unmasked waiting lines serve each once in strictly increasing (level, number), and then no clock accepts anything |
| IntcDrain.InOrderMeans | src/device/intc/intc.c:207-266 | What serving in order means: no repetition, exactly the pending set, strictly increasing keys |
| IntcDrain.RoundServesOne | src/device/intc/intc.c:380-430 | One round serves the most urgent pending line and gives PC and PSW back |
| IntcDrain.CountAfterDrain | src/device/intc/intc.c:175-189 | waiting_int_num falls by one a round and ends as the number of masked requests |
| IntcLevels.DistinctLevelsSuffice | src/device/intc/intc.h:150-160 | If requests waiting together always have distinct levels, every run keeps the stack offset at most 7 and ISPR equal to the set of active levels |
| IntcLevels.EndKeepsIsprIff | src/device/intc/intc.c:403-428 | Ending an interrupt keeps ISPR exact if and only if no preempted interrupt has its level |
| IntcLevels.IsprExactIffNoClash | src/device/intc/intc.c:403-428 | Every state of a run from reset has ISPR equal to the set of active levels if and only if no end of interrupt in the run happens above a preempted interrupt of the same level |
| IntcStack.StackSufficesIffNineLines | src/device/intc/intc.h:150-160 | Every run that requests only lines of a given set stays within the eight slots if and only if the set has at most nine lines, whatever the levels, masks and order |
| IntcStack.FewLinesFit | src/device/intc/intc.c:256-317 | At every moment fewer interrupts are preempted than lines were ever requested (none if none was) |
| IntcStack.EqualLevelsNestAll | src/device/intc/intc.c:256-317 | For any set of lines a run with all of them at level 0 preempts all but the last |
| IntcStack.EqualLevelsOverflowTheStack | src/device/intc/intc.c:256-317 | For any ten or more lines that run pushes past the eight-slot stack |
| IntcLevels.EqualLevelsBreakIspr | src/device/intc/intc.c:403-428 | A run with two requests of one level loses the ISPR bit of an interrupt still being handled |
| IntcController.Controller.SetWaitIntno | src/device/intc/intc.c:154-173 | Latches the level and counts the line, unless it is waiting already |
| IntcController.Controller.ClrWaitIntno | src/device/intc/intc.c:175-189 | Uncounts the line and frees its level when the count reaches zero |
| IntcController.Controller.GetMaxpriIntno | src/device/intc/intc.c:207-266 | The search loop returns what the specification's search returns |
| IntcController.Controller.RaiseIntr | src/device/intc/intc.c:330-378 | A request in place has the effect of the specification's request |
| IntcController.Controller.IntcRaise | src/device/intc/intc.c:268-328 | Entry in place, with the push on the array of saved interrupts, is the specification's entry whenever the array has room |
| IntcController.Controller.RaisePendingIntr | src/device/intc/intc.c:482-526 | One clock in place is one clock of the specification |
| IntcController.Controller.ClrCurrlvlIspr | src/device/intc/intc.c:380-430 | End of interrupt in place is the specification's |
| IntcController.Controller.HookUpdateImr | src/device/intc/intc.c:594-676 | The IMR hook loop sets exactly the mask bits of the lines the register covers |
| IntcController.Controller.RaiseNmiRequest | src/device/intc/intc.c:454-475 | NMI entry in place is the specification's |
| IntcController.Controller.PutData8Icn | src/device/intc/intc.c:594-637 | An 8-bit xxICn write ends the current interrupt, then stores the byte |
| IntcController.Controller.ExecDiei | src/cpu/cpu_exec/op_exec_spec.c:257-273 | EI and DI in place set and clear ID alone and advance PC |
| IntcController.Controller.ExecReti | src/cpu/cpu_exec/op_exec_spec.c:283-307 | RETI in place is the specification's return |
| IntcController.Controller.DistinctLevelsLeaveRoom | src/device/intc/intc.h:153-153 | With distinct levels the precondition that the array has room always holds |
| IntcController.Controller.NineLinesLeaveRoom | src/device/intc/intc.h:153-153 | While at most nine lines wait, a clock that enters a handler finds a slot in the array, whatever the levels |
| Exceptions.HandlerReturns | src/cpu/cpu_exec/op_exec_spec.c:309-412 | From a core with EP clear a handler returns to the right address with the PSW of entry (under AUE, for TRAP, the cleared one) if and only if it saves its return pair or its body raises no exception of its level outside a handler that saves that pair; from any core that suffices |
| Exceptions.MustSaveIff | src/cpu/cpu_exec/op_exec_spec.c:283-412 | A handler returns right from every core if and only if that condition on its text holds |
| Exceptions.BodyFrame | src/cpu/cpu_exec/op_exec_spec.c:309-412 | Inside a handler, whatever nests, EP stays set, and each return pair is either kept or holds a PSW saved under EP, as the program's text says |
| Exceptions.OtherPairSurvives | src/cpu/cpu_exec/op_exec_spec.c:309-412 | The pair of the other level survives a handler that saves it or whose body leaves it alone, and outside all handlers only then |
| Exceptions.RetiLeavesThroughEipc | src/cpu/cpu_exec/op_exec_spec.c:283-307 | RETI at the end of a handler of any level, after any body, leaves through EIPC |
| Exceptions.ProtectionSurvivesIff | src/cpu/cpu_exec/op_exec_spec.c:354-363 | In a program whose outer handlers return right, with anything nested in them, the protection bits survive if and only if AUE is off, the core was trusted or no TRAP stands at the outer level; all other control bits always survive |
| Exceptions.CodeIdentifiesCause | src/cpu/cpu_exec/op_exec_spec.c:334-440 | The exception code an entry leaves in ECR identifies the exception and its vector; the two halves of the TRAP vectors do not collide |
| Exceptions.CodeOf | src/cpu/cpu_exec/op_exec_spec.c:334-440 | The exception code of every cause, in ECR and in EIIC or FEIC, and what is kept of ECR's other half |
| EntryPoints.ClockEntryNamesItsSource | src/device/intc/intc.c:268-328 | The address a clock enters tells an NMI from a line, and which line; a clock that enters nothing changes nothing |
| EntryPoints.ExceptionEntryNamesItsSource | src/cpu/cpu_exec/op_exec_spec.c:334-412 | TRAP 0 to 15, TRAP 16 to 31 and the FE-level exceptions enter three addresses that no interrupt has |
| EntryPoints.SyscallGoesThroughItsSlot | src/cpu/cpu_exec/op_exec_spec.c:448-469 | SYSCALL goes to SCBP plus the table word of its vector modulo 2^32, and fails exactly when the bus has no word there |
| EntryPoints.SlotsAreDistinct | src/cpu/cpu_exec/op_exec_spec.c:448-454 | Two vectors share a table word exactly when the larger is above the size in SCCFG and the other is too or is 0 |
| Exceptions.RetiAfterFetrap | src/cpu/cpu_exec/op_exec_spec.c:283-307 | RETI tests EP before NP, so after FETRAP it leaves through EIPC: right exactly when both pairs agree |
| Exceptions.FailedSyscall | src/cpu/cpu_exec/op_exec_spec.c:448-469 | A SYSCALL whose table read fails keeps PC but has saved its return pair and may leave DMP off; the exact condition |
| ExceptionCore.Core.OpExecTrap | src/cpu/cpu_exec/op_exec_spec.c:334-375 | TRAP in place is the specification's entry, including the vectors it ignores |
| ExceptionCore.Core.OpExecFetrap | src/cpu/cpu_exec/op_exec_spec.c:377-412 | FETRAP in place is the specification's entry |
| ExceptionCore.Core.OpExecSyscall | src/cpu/cpu_exec/op_exec_spec.c:414-484 | SYSCALL in place, with its failing table read, is the specification's |
| ExceptionCore.Core.OpExecReti | src/cpu/cpu_exec/op_exec_spec.c:283-322 | RETI, EIRET and FERET in place take the pair the specification takes |
| ExceptionCore.Core.IllegalAccess | src/cpu/config/cpu_config.c:285-366 | Protection exception entry in place is the specification's |
| CodeCache.CacheIsTransparentIffCodeIsStable | src/cpu/config/cpu_config.c:625-758 | From an empty cache, for any instruction set and environment, the cached run equals the plain run in machine, return code and instruction at every clock if and only if no address is executed again after its decoding changed |
| CodeCache.CacheRefinesPlainRun | src/cpu/config/cpu_config.c:701-758 | If nobody changes code bytes at executed addresses the two runs are the same, elaps and return codes included |
| CodeCache.FilledEntriesDecodeMemory | src/cpu/config/cpu_config.c:695-698 | At the end of such a run every entry with an operation is the parse of memory at its address |
| CodeCache.StaleHitDiffers | src/cpu/config/cpu_config.c:727-756 | On a re-executed address whose code changed, the cached clock uses the old instruction and the plain clock does not |
| CodeClocks.PlainRunCharges | src/cpu/config/cpu_config.c:625-699 | Over any run the clock count rises by the table entries of the instructions that succeeded, modulo 2^64; failed and halted clocks cost nothing |
| CodeClocks.CachedRunCharges | src/cpu/config/cpu_config.c:701-758 | The same with the cache, whatever it holds |
| CodeClocks.PlainReturnCode | src/cpu/config/cpu_config.c:625-699 | Which failure a clock reports: fetch, decode or permission, and what it leaves |
| CodeCacheCore.Core.SupplyClockNotCached | src/cpu/config/cpu_config.c:625-699 | The in-place miss path: fields stored at once, the operation only after success, every error code |
| CodeCacheCore.Core.SupplyClock | src/cpu/config/cpu_config.c:701-758 | One clock in place on the cache array is one clock of the specification |
| CacheHazard.CacheIsTransparentIffNotRewritten | src/cpu/config/cpu_config.c:701-758 | With the V850E2M decoder the cached run from an empty cache equals the plain run if and only if no address is executed again after a halfword of its instruction's format changed |
| CacheHazard.CachedInstructionIsStaleIffItsHalfwordsChanged | src/cpu/config/cpu_config.c:718-756 | With the V850E2M decoder a cached instruction is right exactly while the one, two or three halfwords of its own format are unchanged |
| SelfModifying.ProgramDiverges | src/cpu/config/cpu_config.c:718-756 | Three clocks of ST.H r0, 0[r0] and JMP [r0] at address 0: the plain core runs the NOP it wrote and stands at 2, the cached core repeats the store and stands at 4 |
| SelfModifying.BoardIsV850 | src/cpu/cpu_dec/op_parse.c:5-38 | The board of that program decodes as the V850E2M parser does, so the run theorem applies to it |
| Decode.AcceptedCodeReEncodes | src/cpu/cpu_dec/op_parse.c:5-38 | Every accepted code word is put together again bit for bit from the format chosen and the decoded fields |
| Decode.SameInstructionIffSameHalfwords | src/cpu/cpu_dec/op_parse.c:5-38 | A code word parses like an accepted one if and only if it agrees with it on the halfwords of its format |
| Decode.DecodersDropOneBit | src/cpu/cpu_dec/op_dec.c:54-283 | Each decoder by itself loses nothing if and only if bit 16 is clear (formats 9 to 12) and bit 26 is set (format F) |
| Decode.DispatchFixesDroppedBits | src/cpu/cpu_dec/op_parse_private.c:283-2700 | The tables choose formats 9 to 12 and F only for codes whose dropped bit has the one value assumed |
| OpCoding.ClassifiedIffCarried | src/cpu/cpu_dec/op_parse_private.c:283-2700 | The tables name an operation and its format exactly for the code words that carry the fixed bits of that operation, so none carries the bits of two |
| Assembler.AssembleThenParse | src/cpu/cpu_dec/op_parse.c:5-38 | For every operation and all operands that fit it, parsing the assembled code word gives the operation and every field back |
| Assembler.ParsesIffAssembled | src/cpu/cpu_dec/op_parse.c:5-38 | On any code word op_parse returns an operation and fields if and only if the fields fit, carry the opcode and sub-opcode numbers of that operation and assemble to the front of the code word |
| Assembler.FieldsComeBack | src/cpu/cpu_dec/op_dec.c:54-283 | Every decoder undoes the placing of fields, for all fields that fit their widths |
| Assembler.ListComesBack | src/cpu/cpu_dec/op_dec.c:207-241 | A register list is recovered from its twelve bits |
| Assembler.RegisterOperations | src/cpu/cpu_dec/op_parse_private.c:283-2700 | The nine two-register operations without excluded registers, by opcode number, for all registers and whatever follows |
| Decode.ListRoundTrip | src/cpu/cpu_dec/op_dec.c:207-241 | The register list can be read back into its twelve bits |
| DecodeCore.DecodedCode.DecodeList | src/cpu/cpu_dec/op_dec.c:207-241 | The clearing loop and the twelve stores give the specified list |
| DecodeCore.DecodedCode.OpParse | src/cpu/cpu_dec/op_parse.c:5-38 | Succeeds exactly on the codes the specification accepts, with its operation and fields; otherwise returns -1 and changes nothing |
| Frames.PopUndoesPush | src/cpu/cpu_exec/op_exec_spec.c:605-625 | The pop loop of DISPOSE restores what the push loop of PREPARE stored, register by register |
| Frames.DisposeUndoesPrepare | src/cpu/cpu_exec/op_exec_spec.c:697-745 | With the frame words and sp intact, DISPOSE restores every listed register and sp, changes nothing else, and jumps to the restored register if one is named |
| Frames.PreparedFrameIsIntact | src/cpu/cpu_exec/op_exec_spec.c:591-668 | Right after a successful PREPARE the frame holds the listed registers |
| Frames.FrameLayout | src/cpu/cpu_exec/op_exec_spec.c:605-625 | Where PREPARE puts each listed register: one word further down for every listed register before it; and where sp ends |
| Frames.EpFromCodeBytes | src/cpu/cpu_exec/op_exec_spec.c:626-668 | What PREPARE puts in ep for each ff and where it goes on, from the code bytes, and exactly when it fails |
| Frames.FrameClocks | src/cpu/cpu_exec/op_exec_spec.c:605-745 | What PREPARE and DISPOSE add to the clocks of the instruction |
| NestedFrames.CallRestores | src/cpu/cpu_exec/op_exec_spec.c:591-745 | At any nesting depth, also with frames that wrap round address zero, a call gives back sp and every listed register whatever its body did, cannot fail, and DISPOSE [lp] returns to the saved lp |
| NestedFrames.RunKeepsFrames | src/cpu/cpu_exec/op_exec_spec.c:591-745 | No run of nested calls writes into a frame that is open around it |
| NestedFrames.OpenFramesAreDisjoint | src/cpu/cpu_exec/op_exec_spec.c:591-668 | At every call of every run the frames open at that moment share no address |
| FrameCore.Core.PushListed | src/cpu/cpu_exec/op_exec_spec.c:605-625 | The push loop leaves the memory, sp and clocks of the specification, also when the bus refuses a word midway |
| FrameCore.Core.PopListed | src/cpu/cpu_exec/op_exec_spec.c:712-732 | The pop loop, from r31 down, likewise |
| FrameCore.Core.ExecPrepare | src/cpu/cpu_exec/op_exec_spec.c:591-668 | PREPARE with its push loop in place is the specification's |
| FrameCore.Core.ExecDispose | src/cpu/cpu_exec/op_exec_spec.c:697-745 | DISPOSE with its pop loop in place is the specification's |
| Arithmetic.CompareDecidesOrder | src/cpu/cpu_exec/op_exec_branch.c:5-103 | After CMP each of the ten order conditions holds exactly when the unsigned or signed order does |
| Arithmetic.CompareOtherConditions | src/cpu/cpu_exec/op_exec_branch.c:5-103 | What the other six conditions say after CMP: overflow, sign, always and saturation |
| Arithmetic.AddDigit | src/cpu/cpu_exec/op_exec_arithm.c:1274-1322 | ADF: value and carry give the exact sum, OV says exactly when the signed sum does not fit, S xor OV is its sign; Z and S describe the low 32 bits whatever the carry, SAT stays |
| Arithmetic.SubtractDigit | src/cpu/cpu_exec/op_exec_arithm.c:1324-1374 | The same for SBF with borrow |
| Arithmetic.CountdownEnds | src/cpu/cpu_exec/op_exec_arithm.c:247-275 | A loop of ADD -1 and BNE started at n runs n rounds, and 2^32 from zero |
| MultiWord.AdditionIsExact | src/cpu/cpu_exec/op_exec_arithm.c:247-275 | ADD then ADF(C) on any number of words is the exact sum with CY its carry; OV says exactly when the signed sum does not fit |
| MultiWord.SubtractionIsExactAndCompares | src/cpu/cpu_exec/op_exec_arithm.c:161-189 | SUB then SBF(C) is the exact difference with CY its borrow; L and LT afterwards compare the whole numbers unsigned and signed |
| ArithmeticCore.Core.ExecSub | src/cpu/cpu_exec/op_exec_arithm.c:161-189 | SUB in place: register, flags and PC as specified, nothing else |
| ArithmeticCore.Core.ExecCmp1 | src/cpu/cpu_exec/op_exec_arithm.c:219-245 | CMP in place: the flags of SUB, registers untouched |
| ArithmeticCore.Core.ExecAdd1 | src/cpu/cpu_exec/op_exec_arithm.c:247-275 | ADD in place as specified |
| ArithmeticCore.Core.ExecAdf11 | src/cpu/cpu_exec/op_exec_arithm.c:1274-1322 | ADF in place as specified |
| ArithmeticCore.Core.ExecSbf11 | src/cpu/cpu_exec/op_exec_arithm.c:1324-1374 | SBF in place as specified |
| Psw.WordRoundTrip | src/cpu/cpu_common/cpu_ops.h:37-87 | The field view of PSW loses and merges no 32-bit value |
| Psw.FieldPositions | src/cpu/cpu_common/cpu_ops.h:19-41 | Every flag and protection field is the bit of the word that the macros name |
| SysRegs.ReachableCoherent | src/cpu/cpu_exec/op_exec_spec.c:8-86 | Over every LDSR run from reset the selected group and bank are the decoding of BSEL |
| SysRegs.ReachableInSync | src/cpu/cpu_exec/op_exec_spec.c:164-226 | If BSEL is only written with a zero upper half, the region tables always equal the tables rebuilt from the setting registers |
| SysRegs.InSyncIffUpperHalfIsZero | src/cpu/cpu_exec/op_exec_spec.c:215-217 | An upper half is safe for all runs if and only if it is zero; for any other a run leaves the tables stale |
| SysRegs.StaleExactlyWhen | src/cpu/cpu_exec/op_exec_spec.c:215-217 | From tables in step, one LDSR leaves them so if and only if it is not a permitted write to the setting bank under a BSEL with a nonzero upper half, or it keeps bits 27 to 4 and the flag bits of the written register |
| SysRegs.TablesSeeBits | src/cpu/config/cpu_config.c:367-459 | A write to one setting register changes the rebuilt tables exactly when it changes bits 27 to 4 or one of the two flag bits that register contributes |
| SysRegs.LdsrStoresIff | src/cpu/cpu_exec/op_exec_spec.c:99-226 | LDSR stores if and only if PSW.NPV is clear or it writes PSW in CPU bank 0 and keeps bits 31 to 6; otherwise only the violation record changes |
| SysRegs.UntrustedRunKeepsProtected | src/cpu/cpu_exec/op_exec_spec.c:99-160 | Over every LDSR run begun with the NPV bit of PSW set, PSW bits 31 to 6, BSEL, the bank, the tables and all registers but PSW and VSECR, VSTID, VSADR never change, and NPV stays set |
| SysRegs.FirstDenialIsKept | src/cpu/cpu_exec/op_exec_spec.c:194-202 | In such a run from VSECR = 0, VSECR counts the stores that NPV refused modulo 2^32 and VSADR and VSTID keep the first one's address and task until the counter wraps |
| SysRegs.ResetAt | src/cpu/config/cpu_config.c:529-598 | What reset leaves in every register, from any earlier contents |
| SysRegs.NothingIsOpenAfterReset | src/cpu/config/cpu_config.c:529-598 | After reset every region is disabled: with IMP and DMP on, no table allows any access |
| SysRegCore.Core.ConstructContainers | src/cpu/config/cpu_config.c:388-459 | The two construction loops build the specified tables and change nothing else |
| SysRegCore.Core.CpuReset | src/cpu/config/cpu_config.c:529-598 | Reset in place is the specification's |
| SysRegCore.Core.SetSysregGrpBnk | src/cpu/cpu_exec/op_exec_spec.c:8-86 | The nested switch on the group and bank bytes is the table of ten banks keyed by the low sixteen bits; any other value fails and changes nothing |
| SysRegCore.Core.OpExecLdsr | src/cpu/cpu_exec/op_exec_spec.c:164-226 | LDSR in place is one step of the specification, and fails exactly when that step faults |
| Mpu.IntervalIsBlockIffLowMask | src/cpu/config/cpu_config.c:45-69 | The interval is_overlap uses is exactly the address block of a mask region if and only if the mask is contiguous from bit 0 |
| Mpu.OverlapMeansSharedByte | src/cpu/config/cpu_config.c:45-69 | A non-wrapping access overlaps a region exactly when some byte of it is covered |
| Mpu.FastCheckAgrees | src/cpu/config/cpu_config.c:143-280 | Both checks allow a fetch exactly when IMP is off or an executable region overlaps it; then the fault record stays, and otherwise the general check records MIP with the program counter, the clock-path check MDP with the address |
| Protection.FetchFollowsRegisters | src/cpu/config/cpu_config.c:143-280 | After any LDSR run from reset with zero upper halves of BSEL, a fetch is allowed if and only if IMP is off or some byte of it lies in an enabled executable region read directly from the setting registers |
| Protection.AccessFollowsRegisters | src/cpu/config/cpu_config.c:143-216 | The same for the general check of fetches, writes and reads over the instruction and data regions, and for devices, where PP alone decides |
| Protection.RecordNamesTheRefusal | src/cpu/config/cpu_config.c:143-280 | Which fault a refused access records: PPI for a device, MDP with the address when the data regions refuse, else MIP with the program counter; an allowed access records nothing |
| Protection.RegionCoversItsGranules | src/cpu/config/cpu_config.c:367-386 | A table entry covers exactly the bytes of the 16-byte granules its two registers describe |
| Timer.FiresPeriodically | src/device/peripheral/timer/timer32.c:81-109 | From a READY tick an interval channel counts j mod (compare0 + 1) at tick j and interrupts exactly at compare0 + k (compare0 + 1) |
| Timer.FreerunCountsLiveTicks | src/device/peripheral/timer/timer32.c:81-100 | A free-running channel counts the ticks that found it not stopped, minus one, modulo 2^32, across any writes |
| Timer.SkipNeverOvershoots | src/device/peripheral/timer/timer32.c:112-162 | Whenever an update lowers the skip interval it is within the true distance of every served channel still counting |
| Timer.SkipIsSafeIff | src/device/peripheral/timer/timer32.c:112-162 | From a given start value the interval stays within the distance of every served counting channel, for all channels and clocks, if and only if the start value is at most 2^32 |
| Timer.OvershootsExactlyWhenWrappedToZero | src/device/peripheral/timer/timer32.c:112-162 | The interval exceeds a channel's distance exactly when the start value and every nonzero wrapped product of the served channels exceed it, which needs a distance that is a multiple of 2^32 |
| Timer.HalfWayOvershoots | src/device/peripheral/timer/timer32.c:112-162 | One free-running channel half way round makes every start value above 2^32 overshoot |
| TimerUnit.Unit.DeviceSupplyClockTimer | src/device/peripheral/timer/timer32.c:153-162 | The channel loop updates the served channels, the skip interval and the raised interrupts as specified |
| TimerUnit.Unit.DeviceTimerDoUpdate | src/device/peripheral/timer/timer32.c:81-109 | One update in place: the channel as specified, and its interrupt raised exactly when it matched |
| TimerUnit.Unit.DeviceTimerDoCalcMinInterval | src/device/peripheral/timer/timer32.c:112-151 | The interval is lowered exactly as specified |
| TimerUnit.Unit.PutData8 | src/device/peripheral/timer/timer32.c:188-222 | A control write changes the first channel whose register has the address, and no other |
| TimerUnit.Unit.PutData32 | src/device/peripheral/timer/timer32.c:229-243 | A compare write sets compare0 and rearms exactly the addressed channel |
| TimerUnit.OnlyLowChannelsHaveControl | src/device/peripheral/timer/timer32.c:188-222 | A CTL0 address selects its own channel exactly for channels 0 to 3 |
| TimerControl.StartedIntervalFires | src/device/peripheral/timer/timer32.c:188-222 | After a CTL1 byte with low bits 0 and a CTL0 byte with bit 7 set the channel counts and interrupts periodically from the next tick on |
| TimerControl.StartedFreerunCounts | src/device/peripheral/timer/timer32.c:188-222 | After any other CTL1 byte and a start byte it counts its ticks modulo 2^32 and never interrupts |
| TimerControl.StoppedFreerunHolds | src/device/peripheral/timer/timer32.c:81-109 | A stop byte holds the count of a free-running channel for any number of ticks |
| TimerControl.UnstartedStays | src/device/peripheral/timer/timer32.c:81-109 | A free-running channel that was never started stays so however many stopped ticks it sees |
| TimerControl.RestartedFreerunGoesOn | src/device/peripheral/timer/timer32.c:81-109 | A start byte goes on where the count was held |
| TimerControl.StopIsIgnoredInIntervalMode | src/device/peripheral/timer/timer32.c:81-109 | A stop byte changes no later count or interrupt of an interval channel that is counting |
| TimerControl.InterruptsAreDistinct | src/device/peripheral/timer/timer32.c:60-75 | Each channel raises an interrupt line of its own |
| YamlRoundTrip.LoadOfDump | tools/hako.py:316-335 | For every nested mapping with plain, distinct keys, parsing the printed text gives the mapping back in order if and only if no string leaf holds U+0085, U+2028 or U+2029; otherwise the parser reports an error |
| YamlRoundTrip.BlockLoads | tools/hako.py:81-111 | Feeding the printed lines of a mapping at any indent into any parser state adds exactly its items, or fails |
| YamlScalars.ScalarRoundTrip | tools/hako.py:56-78 | Every scalar printed after a colon parses back to itself |
| YamlScalars.KeyLine | tools/hako.py:92-110 | A line with a plain key is put under that key in the mapping its indent selects |
| YamlScalars.IdentifiersArePlain | tools/hako.py:326-334 | Every identifier is a key the format carries |
| YamlText.JsonRoundTrip | tools/hako.py:316-323 | Unescaping the escaped form of any string gives it back (section 7 of RFC 8259) |
| YamlText.PrefixIsUnterminated | tools/hako.py:66-73 | No prefix of an escaped string is accepted as a string |
| YamlLines.FoldIsFeed | tools/hako.py:81-91 | Splitting into lines and folding equals feeding the text character by character |
| YamlLines.FeedTrimmed | tools/hako.py:330-331 | The printer's rstrip of nested text does not change what the parser sees |
| YamlInput.SingleQuotedIsText | tools/hako.py:56-78 | Any text between single quotes, its own quotes doubled, parses to that text |
| YamlInput.CommentChangesNothing | tools/hako.py:32-53 | Blanks and a comment behind a printed line change nothing |
| YamlInput.BlankLineIsSkipped | tools/hako.py:84-91 | A line of blanks, with or without a comment, is skipped |
| YamlInput.RepeatedKeyIsRefused | tools/hako.py:92-110 | A key its level already has is refused |
| YamlInput.SequenceIsRefused | tools/hako.py:92-97 | A line that begins with a dash is refused as a sequence |
| YamlInput.MissingColonIsRefused | tools/hako.py:92-97 | A line without a colon is refused |
| YamlInput.TabIsRefused | tools/hako.py:84-91 | A line is refused for tabs if and only if it has one |
| YamlInput.GroupedIsNumber | tools/hako.py:56-78 | The unsigned integers read are exactly digits with single underscores between them |
| YamlInput.PrintedNesting | tools/hako.py:326-335 | A nested setting is printed two spaces further in than its section |
| YamlTool.StripCommentLoop | tools/hako.py:32-53 | The quote-tracking loop keeps exactly the part before a comment |
| YamlTool.LoadSimpleYaml | tools/hako.py:81-111 | The line loop with its stack is the specification's parser, errors included |
| YamlTool.DumpYaml | tools/hako.py:326-335 | The printing loop is the specification's printer |
| Config.MergeSucceedsIffPathsAgree | tools/hako.py:114-129 | A merge succeeds exactly when at every path where the defaults have a mapping and the overrides have something, the override is a mapping whose keys the default has |
| Config.SelfMerge | tools/hako.py:114-129 | A mapping with distinct keys merged with itself is itself |
| Config.MergedShape | tools/hako.py:114-129 | The result has the keys of the defaults in their order |
| Config.MergeIsIdempotent | tools/hako.py:114-129 | A merged configuration merges to itself |
| Config.OverrideWins | tools/hako.py:119-128 | A scalar default gives way to its override |
| ConfigChecks.OverrideWinsAtEveryPath | tools/hako.py:114-129 | At every path to a scalar default the merged value is the manifest's, if it has one, and else the default |
| Config.ResolveIsIdempotent | tools/hako.py:132-155 | A configuration that passed all checks resolves to itself |
| ConfigChecks.ResolveAcceptsIff | tools/hako.py:132-155 | A manifest is accepted if and only if its paths agree with the defaults and each of its ten settings, or its default, is of its kind; those are then the settings of the result |
| Config.MergeKnownLoop | tools/hako.py:114-129 | The recursive loop is the specification's merge |

## Left out

- Host I/O and foreign code: serial and file cache, CAN, virtual devices, debugger printing, external devices, CMake and process driving in `tools/hako.py`.
- Floating-point instructions. The register copy that follows LDSR to FPST, FPCC and FPCFG is kept as a step that may store any two words.
- Athrill's bus, object containers and cache allocation are not part of this repository: memory is a map, containers are sequences searched for the first match, and each cached address has one slot.
- Several cores at once. `nmi_reqnum` is shared between cores, so all NMI statements are for one core.
- The meaning of watchdog (INTWDT2) acceptance: its gate is modelled as written and only what a clock does is stated; handler bracketing assumes no watchdog request.
- Direct guest writes to ISPR, and 8-bit writes to the high byte of an IMR, which the source does not propagate.
- Which xxICn byte ends an interrupt: as in the source, any 8-bit write does.
- Handlers in `IntcNesting.dfy` always save their return registers, those in `Exceptions.dfy` say which pairs they save; in both the saved values are in storage that the bodies leave alone.
- PREPARE and DISPOSE under an untrusted PSW, whose permission helper checks upwards from sp.
- `NestedFrames` calls are made with sp below the open frames, and the whole stack does not go all the way round the address space.
- The board of `SelfModifying.dfy` executes ST.H, JMP and NOP only, without the check of sp against the end of the stack.
- The cached fields of other formats: an operation is taken to read only the fields of its own format. No decoder sets `type_id`, so the permission size of a fetch is that of format 1.
- Executing the other instructions: logical, shift, bit, multiply, divide and memory operations, SETF, MAC, SCH, byte swaps and CAXI.
- The VMECR, VMTID and VMADR record of a protection exception; only its entry and return state is modelled.
- Periodic firing is stated for channels without register writes between the ticks; an interval channel stopped between its interrupt and the next tick is not followed further.
- The interval a device clock starts from is a parameter (`DEVICE_CLOCK_MAX_INTERVAL` is not part of this model).
- `int()` on digits outside ASCII, its limit of 4300 digits, and lone surrogates in JSON escapes, which Dafny's characters cannot hold; such escapes are refused. Line numbers in error messages and file access are left out.
- The parser's dictionaries are shared between its stack and their parents; the model keeps the open level beside its parent and puts it back when the level closes.
- Which error `resolve_config` reports first has no theorem; a mapping where Python would raise TypeError is refused like any other wrong value.
