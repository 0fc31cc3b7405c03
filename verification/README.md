# CubeSim, modelled and verified

CubeSim simulates a 3-D stacked system cycle by cycle: a five-stage MIPS
processor with write-back caches, a chain of virtual-channel routers that joins
it to stacked accelerator chips, a DMA controller, and the accelerators' own
engines.  Much of its code is a clever mechanism whose meaning is simple.  This
project writes the mechanisms down as they are coded, writes the meaning down
next to them, and proves that the two agree.

| mechanism | meaning | result |
|---|---|---|
| the pipeline: forwarding by pointers into live records, load-use bubbles, stalls, HI/LO scoreboard, branches in ID, exceptions in WB | one instruction at a time with one delay slot | same register writes, stores, registers, EPC and memory for every program and every stall pattern, HI and LO included; precise exceptions; progress |
| the write-back, set-associative cache with word-by-word transfers | flat memory | a waiting processor cannot tell the difference |
| the router chain: wormhole switching, locked crossbar, credits packed into acknowledgement flits | lossless, ordered, non-interleaved channels | conservation, buffer bound, order, one sender per output, shortest route, on a chain of any length under any schedule |
| remote DMA between two network interfaces | a copy | exactly L packets and one notice, field by field, routed by their heads, and the destination equals the source |
| the DMA controller | a block-by-block copy or clear | prefix invariant, exact outcome, a bound on the cycles |
| the list of delays with tasks that add tasks | a queue of deadlines | each call runs exactly what is due, once, in order |
| the topological sort of the PE array | the node equations | the unique solution, whatever order the map is walked in |
| the saturating multiply-add | exact products under true saturation | equal, for any mask, count and latency, in a number of cycles that is exactly known |
| the integer, branch, load and store instructions, down to LWL/LWR/SWL/SWR, the 32-bit multiplication, shifts, overflow tests and jumps | the instruction-set manual | equal, or equal exactly when a stated condition holds |

## How it is laid out

Every mechanism that the source changes in place is a class (`Cpu`, `Cache`,
`OutputChannel`, `RouterCore`, `Clock`, `Dmac`, `Nif`, `MadUnit`, `PeArray`)
whose methods follow the source's functions.  The processor and the router
classes are proved equal to functions on a value (`Pipeline`, `Router`), and the
theorems are about those functions; the other classes carry their invariants
themselves.

* `Isa`, `Sequential` give the instruction set as decoded and the reference
  interpreter.  `InstructionFacts`, `ControlFacts` and `MemoryFacts` say what a
  step of it leaves, instruction by instruction, in fields, bits, exact sums and
  bytes; `IsaFacts`, `AluFacts`, `UnalignedAccess`, `Multiply` measure the
  routines as coded against the manual.
* `Pipeline` is the machine; `PipelineInvariant` says what every stage knows;
  `PipelineChecks`, `PipelineSettle`, `PipelineMove`, `PipelineRetire`,
  `PipelineAdvance` carry the invariant through the parts of a cycle;
  `PipelineRefinement`, `PipelineRuns`, `PipelineTraps`, `PipelineProgress`
  hold the results; `PipelineShadow` follows the instruction behind a trapping
  one and `PipelineLoss` what it does to HI and LO; `Cpu` is the class.
* `CacheGeometry`, `Cache`, `CacheFacts`.
* `Flits`, `Packets`, `Router`, then `RouterCredit`, `RouterWormhole`,
  `RouterFlow`, `RouterTidy`, `RouterBudget`, `RouterRoute` for one router each
  with one concern, `RouterNetwork` for the chain, `RouterTheorems` for the
  readable results, `RouterAcks` and `RouterInputs` for all that one cycle of an
  output and of an input does, `RouterTrack` and `RouterLeak` for a run that
  reaches the leak, `RouterObjects` for the classes.
* `Nif`, `NifFacts`, `RemoteDma`; `BlockCopy`, `Dmac`; `Clock`, `ClockFacts`;
  `Dataflow`, `PeArray`, `PeArrayFacts`; `FixedPoint`, `MadUnit`, `MadFacts`.

The safety theorems alone would also hold of a machine that keeps silent or sends
things the wrong way round.  The modules named `...Facts`, `RouterAcks` and
`RouterInputs` therefore say what each operation does in literal fields, offsets
and numbers, without the functions that the models share.

## Where the code departs from its intent

Each of these is kept in the model as it is coded, and the theorem beside it
says exactly when the intended behaviour holds.

* J and JAL to word index 0 of a region other than the first go astray, because
  `|` binds weaker than `-` (`IsaFacts.JumpTargetIff`; cpu.cc:2212, 2219).
* BLTZAL lands one instruction too far (`IsaFacts.BranchTargetIff`; cpu.cc:2571).
* JALR runs the jump-and-link routine: it goes where its register points if and
  only if its own index bits say the same (`IsaFacts.JalrTarget`, `JalrLinkIff`;
  cpu.cc:2156, ISA.h:184).
* MTHI and MTLO read the register named by rd: the value is right if and only if
  the two registers agree (`IsaFacts.MoveToHiLoSource`, `MoveToHiLoIff`;
  ISA.h:134).
* A big-endian SWL at an unaligned address stores the wrong bytes: byte k of the
  word receives byte k of the register wherever the access starts
  (`UnalignedAccess.StoreLoadPair`, `BigEndianLoss`; cpu.cc:1203-1207).
* LWL and LWR into register 0 take their old value from behind the register file,
  or through a null pointer when the instruction ahead has no destination either
  (`PipelineTraps.NoDangling`; cpu.cc:949-955).
* HI and LO are not restored at an exception: the instruction behind the trapping
  one has been executed by then, unless a faulting load holds it back
  (`PipelineLoss.KeptIff`, `PipelineTraps.HiSurvivesIff`, `LoSurvivesIff`).  The
  reference that the pipeline is proved against says what is left in them
  (`Sequential.NextArch`); `PipelineLoss.ProductAtHandler` is a BREAK ahead of a
  MULT that loses both.
* An ACK2 flit does not reduce a count above 15, so credit is duplicated
  (`RouterTheorems.LeakIff`; router.cc:473-474).  Two routers whose packets have
  17 flits or more get there (`RouterLeak.LeakReached`).  Credit conservation is
  therefore stated for channels 0 to 3, and for all channels when no buffer
  exceeds 15 flits.
* `reset_stat` is safe exactly when no transfer has started that has not ended
  (`CacheModel.Cache.ResetStat`; cache.cc:81-89).
* HIT_FWB on a cached line never lets the processor go on: every retry starts
  another write-back (`CacheModel.Cache.ExecCacheOp`; cache.cc:349).
* A clearing DMA has its source checked instead of its destination; a misaligned
  destination is reported as a success and nothing is written
  (`BlockCopy.ClearsIff`, `ClearMisaligned`; dmac.cc:64-65).  A length of zero
  never ends (`DmacModel.Dmac.Run`; dmac.cc:172).
* The negative overflow test of the fixed-point sum misses a sum that wraps to
  exactly zero (`FixedPoint.PlusSaturatesIff`; snaccmodules.cc:229).  It cannot
  happen in a multiply-add (`FixedPoint.MacSaturates`).
* A multiply-add without look-up clears the four low bits of the FR registers
  (`MadModel.PlainRunTrimsFr`; snaccmodules.cc:390-399).
* In 16-bit mode with four lanes in use the multiply-add unit takes no notice of
  an access that crosses a boundary, because four lanes are counted as none
  (`MadFacts.BoundarySeenIff`, `FourLanesUnseen`; snaccmodules.cc:298-300).
* With a table latency of 0 the wait for the second look-up of an 8-bit run wraps
  around to 2^32 - 1 cycles (`MadFacts.TailMeans`; snaccmodules.cc:377).
* A clean line survives HIT_WBINV and HIT_FWBINV
  (`CacheModel.Cache.ExecCacheOp`, `FlushLine`; cache.cc:345-352).
* A selector of the PE array that is wired more than once to the node it selects
  is counted down from 1 past 0 and never scheduled; nothing else runs below zero
  (`Dataflow.NegativeIff`, `CountersHoldIff`, `TakenIff`; cmamodules.cc:453).

## Model

| member | source | states |
|---|---|---|
| PipelineRuns.PipelineRefines | cpu.cc:1331-1433 | from reset, for every program and every pattern of fetch and data stalls, there is a path of the deterministic one-at-a-time reference whose register writes and memory stores are those of the pipeline, in order, the stores at most one instruction ahead, and whose end has the pipeline's registers, EPC and memory; at a trap the reference fixes HI and LO too; MFCz, CFCz and CACHE instructions take part with a stand-in meaning (a zero result, no suspension, no effect on a cache) |
| PipelineRuns.RunFollows | cpu.cc:1331-1433 | the same from any state the invariant covers, with the path given by the retired instructions |
| PipelineRefinement.CycleStep | cpu.cc:1331-1433 | the pipeline invariant survives every cycle, stalled, trapping, bubbling or moving |
| PipelineShadow.CycleArch | cpu.cc:1359-1427 | a cycle performs exactly one step of the reference when an instruction retires or traps, and none otherwise; at a trap HI and LO are what the instruction behind has made of them |
| PipelineShadow.ShadowStep | cpu.cc:1331-1433 | every cycle keeps track of the instruction behind a trapping one: in ID, in EX or held back, and executed on the operands it had by the time of the trap |
| PipelineRefinement.CycleCommit | cpu.cc:1322-1329 | what a cycle writes to the register file is what the retiring instruction writes in the reference, and nothing in a cycle without one |
| PipelineRefinement.CycleStore | cpu.cc:1162-1320 | stores happen one stage early: what the cycle stores is the store, if any, of the instruction that retires next, so each instruction of the reference stores once and a trapping one, or one behind it, not at all |
| PipelineRefinement.ResetInv | cpu.cc:125-151 | the state after reset satisfies the invariant for any register and memory contents |
| PipelineMove.Forwarding | cpu.cc:819-985 | a pointer bound by the forwarding network reads, when it is followed, the value that the newest older writer gave to the register |
| PipelineMove.Operands | cpu.cc:819-985 | both ALU operands of a bound record are those of its instruction in the reference, whether register, immediate or shift amount |
| PipelineMove.CommitStep | cpu.cc:1322-1329 | write-back performs exactly the retiring instruction's write |
| PipelineMove.MemStep | cpu.cc:1080-1320 | the data access leaves memory and the loaded value as the reference has them, suppresses the store of a trapping instruction, and the record is fit to retire |
| PipelineMove.ExecStep | cpu.cc:1048-1078 | the execute stage leaves the reference's result and exception, HI and LO included; what these are is said by RegisterForm, ImmediateForm, ShiftForm and HiLoForm |
| PipelineAdvance.BranchResolved | cpu.cc:987-1035 | ID redirects the fetch exactly when its instruction takes the branch, on forwarded operands |
| PipelineAdvance.MoveStep | cpu.cc:1397-1427 | one move retires the instruction in WB and re-establishes the invariant for the next one |
| PipelineRetire.BubbleStep | cpu.cc:1406-1414 | a load-use hazard costs one bubble and changes nothing else |
| PipelineSettle.TrapStep | cpu.cc:324-438 | an exception in WB empties the pipeline at the handler with the registers and memory the trapping instruction started from |
| PipelineSettle.TickHiLo | cpu.cc:1361-1369 | a result that becomes due moves from pending to visible; the architectural HI and LO do not change |
| PipelineChecks.PreDecodeWiring | cpu.cc:819-985 | pre_decode gives a record its own write port and live operand pointers, whatever an earlier, stalled pre_decode left in it |
| PipelineTraps.PreciseException | cpu.cc:324-438 | an exception is taken exactly when the instruction in WB traps in the reference; registers and memory are then those before it, EPC is its address or, in a taken delay slot, the branch's |
| PipelineTraps.ExactException | cpu.cc:324-438 | with no HI/LO writer right behind it, the handler starts in exactly the reference's state, HI and LO included |
| PipelineTraps.CycleSpares | cpu.cc:1048-1078 | every cycle establishes what ExactException needs of HI and LO |
| PipelineTraps.HiSurvivesIff | cpu.cc:1048-1078 | HI survives a trap if and only if the instruction behind it does not write HI or writes the value it had |
| PipelineTraps.LoSurvivesIff | cpu.cc:1048-1078 | the same for LO |
| PipelineLoss.KeptIff | cpu.cc:324-438 | when the exception is taken HI (LO) is that of the trapping instruction if and only if its successor is held back, or faults in the front, or does not write HI (LO), or writes the same value; all in terms of the reference |
| PipelineLoss.ProductAtHandler | cpu.cc:1048-1078 | from reset, for any registers and memory, a BREAK followed by a MULT enters the handler with the product in HI and LO, whatever they held |
| PipelineLoss.HiLoLost | cpu.cc:1048-1078 | a program, registers and a run in which both HI and LO are lost |
| PipelineTraps.NoDangling | cpu.cc:942-985 | every pointer that is followed leads to a register or a record that still exists; the old-value pointer of LWL and LWR does so if and only if the target is not register 0 |
| PipelineProgress.InterlockEnds | cpu.cc:1037-1046 | a HI/LO instruction waits for the pending result, one cycle of the delay at a time, and keeps its place |
| PipelineProgress.Scoreboard | cpu.cc:1037-1069 | when a HI/LO instruction executes, nothing is pending and HI and LO are those of the reference at that instruction |
| PipelineProgress.CycleProgress | cpu.cc:1331-1433 | without a miss every cycle that retires nothing brings the oldest instruction closer to WB |
| PipelineProgress.StepsWithin | cpu.cc:1331-1433 | the distance to WB bounds the miss-free cycles until the next reference step |
| PipelineProgress.Progress | cpu.cc:1331-1433 | after any run from reset, 140 cycles without a miss let an instruction retire or trap |
| CpuModel.Cpu.PreDecode | cpu.cc:819-985 | changes the record in ID as the pipeline function does, and nothing else |
| CpuModel.Cpu.PreMemAccess | cpu.cc:1080-1160 | alignment check of the record in MEM |
| CpuModel.Cpu.PreExecute | cpu.cc:1037-1046 | interlock answer |
| CpuModel.Cpu.Fetch | cpu.cc:754-817 | fills the empty IF slot, or reports a miss |
| CpuModel.Cpu.VolatilizePipeline | cpu.cc:143-151 | seven fresh no-operations, by the loop over the stages |
| CpuModel.Cpu.ExcHandle | cpu.cc:324-438 | EPC, handler address and flush when the record in WB carries an exception |
| CpuModel.Cpu.ClockMulDiv | cpu.cc:1361-1369 | the mult/div clock |
| CpuModel.Cpu.RegCommit | cpu.cc:1322-1329 | write-back through the record's pointer |
| CpuModel.Cpu.MemAccess | cpu.cc:1162-1320 | loads, stores and the byte loops, as the pipeline function has them |
| CpuModel.Cpu.StoreLeftBytes | cpu.cc:1197-1212 | the SWL loop stores what the recursive specification stores |
| CpuModel.Cpu.StoreRightBytes | cpu.cc:1216-1231 | the SWR loop likewise |
| CpuModel.Cpu.Execute | cpu.cc:1048-1078 | result, exception and mult/div start of the record in EX, as the pipeline function has them; RegisterForm and its companions say what they are |
| CpuModel.Cpu.Decode | cpu.cc:987-1035 | control transfer of the record in ID |
| CpuModel.Cpu.Step | cpu.cc:1331-1433 | one call is one cycle of the pipeline function, keeps the invariant and takes the reference along |
| CpuModel.Cpu.RunFor | cpu.cc:1331-1433 | a run of any length ends in the state the run function describes and follows a path of the deterministic reference |
| IsaFacts.JumpTargetIff | cpu.cc:2209-2222 | J and JAL reach the manual's target if and only if the index is not 0 or the delay slot lies in the first region |
| IsaFacts.BranchTargetIff | cpu.cc:2224-2585 | a branch reaches the manual's target if and only if it is not BLTZAL |
| IsaFacts.RegisterJump | cpu.cc:2363-2368 | JR goes where its register points |
| IsaFacts.JalrTarget | cpu.cc:2152-2170 | JALR jumps by its own index bits within the region, so it goes where its register points if and only if the register holds just that address |
| IsaFacts.JalrLinkIff | ISA.h:184 | the link goes where the manual says if and only if rd names register 31 |
| IsaFacts.MoveToHiLoSource | ISA.h:134 | MTHI and MTLO read the manual's register if and only if rd and rs are the same |
| IsaFacts.MoveToHiLoIff | ISA.h:134 | HI (LO) gets the manual's value if and only if the registers named by rd and rs hold the same; with rd 0 it gets 0 |
| AluFacts.LogicalShift | cpu.cc:2053-2063 | the arithmetic shift and mask of srl amount to a logical shift, for every word and amount |
| AluFacts.ArithmeticShift | cpu.cc:2065-2074 | filling in the sign twice leaves an arithmetic shift |
| AluFacts.AddOverflowIff | cpu.cc:2450-2462 | ADD and ADDI trap if and only if the exact 33-bit sum is not the wrapped one |
| AluFacts.SubOverflowIff | cpu.cc:2476-2488 | SUB traps if and only if the wrapped difference is not the exact one |
| AluFacts.SignedLessIff | cpu.cc:2524-2534 | SLT compares by sign, then by size |
| InstructionFacts.Fields | cpu.h:388-398 | a word laid out in the six fields of the manual decodes to them |
| InstructionFacts.Immediates | cpu.h:394-395 | the immediate has the 16 low bits of the word, filled up with zeros or with bit 15 |
| InstructionFacts.RegisterForm | cpu.cc:2450-2544 | what ADD, ADDU, SUB, SUBU, AND, OR, XOR, NOR, SLT and SLTU leave: rd holds the exact sum or difference of rs and rt, or its low 32 bits, or bit by bit the logical result, or the comparison; nothing else changes but the program counter |
| InstructionFacts.ImmediateForm | cpu.cc:2172-2268 | the same for ADDI, ADDIU, SLTI, SLTIU with the immediate sign extended, ANDI, ORI, XORI and LUI with it zero extended |
| InstructionFacts.ShiftForm | cpu.cc:2345-2361 | SLL, SRL, SRA and SLLV, SRLV, SRAV: bit k of rd is the bit of rt that the manual names, for an amount from the instruction or from the low five bits of rs |
| ControlFacts.HiLoForm | cpu.cc:2394-2448 | MULT and MULTU leave the halves of the exact product in HI and LO, DIV and DIVU by a divisor other than 0 the quotient cut off towards zero and its remainder, MTHI and MTLO the register named by rd; nothing else changes |
| ControlFacts.QuotientIs | cpu.cc:2430-2448 | there is one such quotient and remainder, and the division gives it |
| ControlFacts.MoveFromForm | cpu.cc:2388-2405 | MFHI and MFLO leave HI and LO in rd |
| ControlFacts.BranchForm | cpu.cc:2192-2260 | each branch is taken on the condition of its name over rs and rt, goes to its target past the delay slot (BLTZAL one instruction further) and links in register 31 where it should |
| ControlFacts.JumpForm | cpu.cc:2209-2222 | J, JAL and JR go where the manual says when the index is not 0 or the region is the first; JALR goes by its index bits; the link is the address past the delay slot |
| ControlFacts.TrapsIff | cpu.cc:1048-1160 | an instruction traps if and only if its address is misaligned, its encoding is not implemented, it is SYSCALL or BREAK, its exact sum or difference is no word, it needs a coprocessor of the table, or its data address is misaligned for its width |
| ControlFacts.TrapForm | cpu.cc:376-438 | at a trap the next instruction is that of the vector, EPC is the address of the instruction or, in a delay slot, four less, and registers and memory are untouched |
| ControlFacts.BusyCycles | ISA.h:304-321 | the HI/LO unit is busy for 3 cycles after MULT and MULTU, 9 after DIV and DIVU, 2 after MTHI and MTLO, and not at all after MFHI and MFLO |
| ControlFacts.RaisedCode | cpu.cc:1048-1078 | which exception the record in EX picks up, its own before one left pending by a data access |
| MemoryFacts.LoadForm | cpu.cc:1251-1320 | LB, LBU, LH, LHU and LW leave the bytes at the address in rt, in either byte order, with the sign where the name says so |
| MemoryFacts.PartialLoadForm | cpu.cc:1841-1898 | LWL and LWR leave in rt the two halves that LoadPair speaks of |
| MemoryFacts.StoreForm | cpu.cc:1188-1240 | SB, SH and SW change exactly the bytes at the address, in either byte order, to those of rt |
| MemoryFacts.PartialStoreForm | cpu.cc:1197-1231 | SWL and SWR change memory as the halves that PairWrites speaks of |
| UnalignedAccess.LoadPair | cpu.cc:1841-1898 | LWL and LWR, in either order and either byte order, load the unaligned word at any address whatever the register held |
| UnalignedAccess.PairWrites | cpu.cc:1197-1231 | what SWL then SWR leave in each of the four bytes |
| UnalignedAccess.PairKeeps | cpu.cc:1197-1231 | no other byte of memory changes |
| UnalignedAccess.StoreLoadPair | cpu.cc:1197-1231 | store-then-load is the identity for every register value if and only if the byte order is little-endian or the address aligned |
| UnalignedAccess.BigEndianLoss | cpu.cc:1203-1207 | a register value that comes back changed at every unaligned big-endian address |
| UnalignedAccess.StoreByteAt | cpu.cc:1197-1231 | a stored byte changes that byte only |
| Multiply.Mult64 | cpu.cc:2076-2113 | the 16-bit schoolbook scheme gives hi and lo of the product for all unsigned inputs |
| Multiply.Mult64s | cpu.cc:2115-2150 | magnitudes, then negation half by half, give the two's-complement double word of the signed product |
| Multiply.MultiplySigned | cpu.cc:2414-2420 | the fallback leaves in HI and LO what the 64-bit path leaves there |
| Multiply.MultiplyUnsigned | cpu.cc:2422-2428 | the same for MULTU |
| CacheGeometry.Separate | cache.cc:91-96 | the tag and the index are the quotient and a remainder by the sizes, which the shifts and masks of the code compute for powers of two |
| CacheGeometry.DivisionIs | cache.cc:91-96 | the quotients and remainders by repeated subtraction of which the invariants speak are those of division |
| CacheGeometry.Recombine | cache.cc:98-101 | tag and index determine the line and are determined by it |
| CacheGeometry.WordAddress | cache.cc:98-101 | the k-th word of a line has the line's tag and index and offset 4k |
| CacheGeometry.Injective | cache.cc:91-101 | two addresses with the same tag, index and offset are equal |
| CacheModel.Cache.CacheHit | cache.cc:110-127 | finds the one valid way that holds the address, if there is one |
| CacheModel.Cache.FindVictim | cache.cc:138-173 | the first invalid way, or else the first of those with the least last access |
| CacheModel.Cache.RequestBlock | cache.cc:129-176 | sets up a write-back exactly for a valid dirty victim, and a refill otherwise, of the way that FindVictim finds, keeping flat memory |
| CacheModel.Cache.WriteWord | cache.cc:178-217 | a word of the victim goes out and the written prefix grows |
| CacheModel.Cache.FinishOpWriteBack | cache.cc:197-213 | the write-back asked for ends: the entry is clean, and gone exactly when it is to be invalidated |
| CacheModel.Cache.ReadWord | cache.cc:219-253 | a word of the line comes in and the filled prefix grows; no other entry changes |
| CacheModel.Cache.Step | cache.cc:67-79 | one step a cycle, that is, with mem_bandwidth 1, keeps the invariant: at most one way holds a tag, clean lines equal memory, flat memory unchanged; only the entry of the transfer changes, and a line leaves the cache exactly when its write-back ends with the mark to invalidate it |
| CacheModel.Cache.ResetStat | cache.cc:81-89 | the invariant survives if and only if the current or the next status is idle, that is, unless a transfer has started and has not ended |
| CacheModel.Cache.FetchWord | cache.cc:375-402 | a hit returns the word of flat memory and marks its entry, and no other, as used now |
| CacheModel.Cache.StoreWord | cache.cc:468-496 | a hit updates flat memory at that word only and marks its entry as used and dirty |
| CacheModel.Cache.FetchHalfword | cache.cc:404-438 | a hit returns the halfword of flat memory |
| CacheModel.Cache.FetchByte | cache.cc:440-466 | a hit returns the byte of flat memory |
| CacheModel.Cache.StoreHalfword | cache.cc:498-529 | a hit updates that half only |
| CacheModel.Cache.StoreByte | cache.cc:531-557 | a hit updates that byte only |
| CacheModel.Cache.ExecCacheOp | cache.cc:255-372 | the operations by hit keep flat memory, except an invalidation of a dirty line, which loses exactly that line; a write-back starts exactly when the line is cached and dirty, or forced by HIT_FWB, and will invalidate the line exactly for HIT_WBINV and HIT_FWBINV |
| CacheModel.Cache.FlushLine | cache.cc:340-352 | HIT_WB or HIT_WBINV retried until it lets the processor go on leaves the line in memory; the line has left the cache if and only if it was not cached, or it was dirty and is to be invalidated, and every other line stays as it was; with the bus granted it is over after a line length of ready cycles and two more |
| CacheModel.Cache.WaitFor | cache.cc:67-253 | a processor that keeps asking, and is granted the bus, has its line after two line lengths of ready cycles |
| CacheModel.Cache.RunClient | cache.cc:67-557 | any run of a waiting processor, under any answers of the memory, reads and leaves what it would without a cache; it completes all accesses when each is granted the bus and enough ready cycles |
| CacheModel.HalfPut | cache.cc:498-557 | a stored half is read back, the other half is unchanged |
| CacheModel.HalfBytes | cache.cc:404-438 | halfword n of a word is made of its bytes 2n and 2n + 1 |
| CacheFacts.SameWordIff | cache.cc:91-96 | two addresses fall on the same word of the same line if and only if they fall on the same word of memory |
| CacheFacts.ByteWritten | cache.cc:531-557 | the flat memory that the cache is proved against is one of bytes: a byte written is read back there, and every other byte reads as before |
| CacheFacts.HalfWritten | cache.cc:498-529 | the same for a halfword, lower byte first, and not at all when it is misaligned |
| CacheFacts.WordWritten | cache.cc:468-496 | the same for a word |
| CacheFacts.WordRead | cache.cc:375-402 | a word is read as its four bytes |
| CacheFacts.HalfRead | cache.cc:404-438 | a halfword is read as its two bytes |
| Flits.AckRoundTrip | router.cc:53-92 | decoding an encoded acknowledgement gives each count cut to 15, for the channels its type speaks of |
| Flits.HeadRoundTrip | router.cc:29-80 | a head flit gives back every field cut to its width |
| Flits.HeadLayout | router.cc:29-51 | where each field of a head flit lies |
| Flits.AckLayout | router.cc:53-66 | where each count of an acknowledgement lies |
| RouterCredit.OutputLedger | router.cc:438-527 | an output channel's step keeps what it counts as sent and what it owes, but for the flit it sends and the leak |
| RouterCredit.RouterLedger | router.cc:238-256 | the same for a whole router cycle and every port and channel |
| RouterAcks.OutputMeans | router.cc:438-527 | an output channel sends the flit that waits, or else, when acknowledgements are on and some count due in this cycle is not 0, exactly one flit from which the receiver decodes every due count cut to 15; it takes these off the counts, except one above 15 in channels 4 to 7, credits one received acknowledgement, and is ready for a channel if and only if a whole packet fits |
| RouterAcks.RouterSends | router.cc:238-256 | so does every output in every cycle of a router |
| RouterInputs.InputMeans | router.cc:320-408 | one cycle of an input in closed form: which flit crosses and to which output, which channel asks, which is granted (the first in line, when the input is free and was not released in this cycle), which output is locked and when, and what is acknowledged upstream |
| RouterInputs.RouterMeans | router.cc:238-256 | a router cycle is that of its three inputs, local, upper, lower, after the outputs, and then closed outputs are free |
| RouterWormhole.RestStep | router.cc:320-408 | between any two cycles a sending channel holds its input and its output, and at most one flit waits in each output |
| RouterFlow.StepFlow | router.cc:320-408 | a router fed with whole packets passes every flit on in order, packet by packet, losing and inventing nothing |
| RouterTidy.TidyStep | router.cc:558-693 | packets are never interleaved on an output |
| RouterBudget.BudgetStep | router.cc:482-527 | every send count stays within the receiver's buffer |
| RouterRoute.HopsCloser | router.h:228-231 | each hop brings a packet one router closer; it leaves at its destination only |
| RouterRoute.ShortestPath | router.h:228-231 | a packet takes exactly as many hops as its endpoints are apart |
| RouterRoute.NoTurn | router.h:228-231 | a packet never turns back |
| RouterRoute.RoutedStep | router.cc:365-369 | a router keeps the route it computed for each packet until its tail has crossed |
| RouterNetwork.NetStep | router.cc:238-256 | a cycle of any router keeps every router and every link of the chain in order |
| RouterNetwork.NetworkSafe | router.cc:238-256 | so does every run from a fresh chain of any length, under any schedule and any whole packets |
| RouterTheorems.CreditConservation | router.cc:438-527 | in every state NetworkSafe covers, on every link and channel, the sender's count is the flits on the wire, the flits buffered, the acknowledgements unsent, in transit and waiting |
| RouterTheorems.BufferBound | router.cc:351-363 | no buffer ever holds, or has coming, more flits than it has room for |
| RouterTheorems.InOrder | router.cc:558-693 | what was put on a channel is what the next router passed on, holds, and has on the wire, in that order |
| RouterTheorems.WholePackets | router.cc:320-408 | on every output packets follow one another whole |
| RouterTheorems.OneSenderPerOutput | router.cc:641-676 | at most one channel of one input sends to an output |
| RouterTheorems.LeakIff | router.cc:456-480 | credit leaks if and only if an ACK2 flit is sent for a count above its field |
| RouterLeak.LeakReached | router.cc:456-480 | for any packet length from 17 flits on, a run of two routers, covered by NetworkSafe, to a state with 16 unsent acknowledgements on channel 4 and nothing else to send; the next odd cycle duplicates 15 credits |
| RouterTheorems.NeverTurnsBack | router.h:228-231 | in every reachable state a packet that came from above never goes back up |
| RouterTheorems.NeverTurnsDown | router.h:228-231 | one that came from below never goes back down, and leaves at its destination only |
| RouterObjects.OutputChannel.AckSend | router.cc:438-480 | the class does what the value function does; OutputMeans says what that is |
| RouterObjects.OutputChannel.Step | router.cc:482-527 | likewise for a whole step |
| RouterObjects.RouterCore.Traverse | router.cc:607-639 | switch traversal |
| RouterObjects.RouterCore.Allocate | router.cc:351-363 | switch allocation, including the reservation for an ungranted channel |
| RouterObjects.RouterCore.InputStep | router.cc:320-408 | the loop over the channels, arrival, ready signal and arbitration |
| RouterObjects.RouterCore.CrossbarStep | router.cc:569-583 | closed outputs become free |
| RouterObjects.RouterCore.Step | router.cc:238-256 | a cycle of the router |
| NifModel.Nif.Step | accelerator.cc:195-353 | while sending, what has been sent and what is still to be sent form the same stream; while receiving, what the waiting flits will do to this node is unchanged; with the router ready something moves |
| NifModel.Nif.SendBlockWord | accelerator.cc:299-316 | one word of a block, then the next block or the notice |
| NifModel.Nif.StepBurstIn | accelerator.cc:271-288 | up to mem_bandwidth words are stored, never past the packet |
| NifModel.PacketAt | accelerator.cc:289-316 | a remote DMA of L blocks sends L packets, packet k its head and packetMaxSize words, the last a tail; DmaPacket gives every field |
| NifModel.PendingWord | accelerator.cc:299-316 | after one word the rest of the stream is what is due |
| NifFacts.DmaPacket | accelerator.cc:289-316 | for a destination register that holds node r and address a, packet k is a block write from this node to node r, address a + 4k packetMaxSize, followed by the words behind the source register, all on the DMA channel |
| NifFacts.DmaStream | accelerator.cc:289-324 | behind its packets a remote DMA sends one notice, to the node that asked for it |
| NifFacts.SingleReply | accelerator.cc:217-247 | a single read is answered to the node that asked, with a write packet for the address that was read and the word found there |
| NifFacts.BlockReply | accelerator.cc:220-258 | a block read likewise, with packetMaxSize words from that address on |
| NifFacts.DoneMessage | accelerator.cc:325-339 | the end of a run is told to node 0, and a DMA that waits for it follows |
| NifFacts.WriteWord | accelerator.cc:259-270 | a single write changes the word at its address and no other |
| NifFacts.RegistersWritten | accelerator.cc:146-166 | the configuration registers by their offsets and widths |
| NifFacts.RegistersRead | accelerator.cc:121-144 | what reading them returns |
| NifFacts.ChannelsReadBack | accelerator.cc:121-166 | the channel register reads back as it was written |
| NifFacts.RemoteKick | accelerator.cc:259-270 | a write to the kick register starts a DMA if and only if DMA is enabled and a length is set, and the node that wrote is the one to be told |
| NifFacts.OthersDropped | accelerator.cc:203-232 | packets of other types, and words without a head, change nothing |
| NifFacts.Mapped | accelerator.cc:76-106 | what is stored in memory is read back there, every other word reads as before, and the registers keep their values |
| NifFacts.Unmapped | accelerator.cc:76-106 | where nothing is mapped a read returns ones and a write does nothing |
| RemoteDma.AbsorbWords | accelerator.cc:271-288 | the words of a write packet go where its head said, and the interface is idle again |
| RemoteDma.AbsorbBlocks | accelerator.cc:195-316 | the whole stream leaves the source words at the destination and changes no other word |
| RemoteDma.StreamMeans | accelerator.cc:289-324 | the stream of a DMA about to start, notice included, does the same |
| RemoteDma.Link.Transfer | accelerator.cc:195-353 | under every interleaving of sender, network and receiver, for any bandwidths, over a network that delivers a packet to the node its head names and to no other: the destination equals the source, all else is unchanged, and the sender has sent its packets and one notice |
| BlockCopy.CopyMeans | dmac.cc:81-184 | a copy that never writes what it has still to read leaves the original source at the destination and nothing else changed |
| BlockCopy.DisjointUnspoiled | dmac.cc:81-184 | disjoint ranges meet that condition |
| BlockCopy.MoveDownUnspoiled | dmac.cc:81-184 | so does a move to a lower address, overlapping or not |
| BlockCopy.ClearMeans | dmac.cc:147-170 | a clearing run zeroes exactly its range when dst is word aligned |
| BlockCopy.ClearMisaligned | dmac.cc:64-70 | and changes nothing when it is not |
| BlockCopy.ClearsIff | dmac.cc:64-70 | the range is cleared for all memory contents if and only if dst is word aligned |
| DmacModel.Dmac.StepReading | dmac.cc:98-116 | the buffer holds the prefix of the block read so far |
| DmacModel.Dmac.StepWriting | dmac.cc:147-170 | memory holds the counted blocks and the written prefix of the next |
| DmacModel.Dmac.StepWriteDone | dmac.cc:171-184 | a block is counted; ends on the length, on abort, or goes on |
| DmacModel.Dmac.Step | dmac.cc:51-205 | a cycle keeps the prefix invariant; how the state may move and why a transfer ends |
| DmacModel.Dmac.Run | dmac.cc:51-199 | left to itself a transfer with good addresses ends only with all blocks done, one with bad addresses touches nothing, and both end within a stated number of helpful cycles; in terms of the registers, the words behind dst are then those that were behind src when the ranges are disjoint, or zero for an aligned clearing run, and every other word is unchanged; good addresses with length zero never end |
| DmacModel.Dmac.Drive | dmac.cc:51-199 | under any register writes and bus errors a stopped transfer has moved exactly the blocks it counts, and only a bus error leaves part of the next; without a fault there is none, and one shows in the status register until the CPU clears its bit |
| DmacModel.MovesWork | dmac.cc:51-199 | every move keeps or lowers the remaining work, a helpful cycle lowers it |
| DmacModel.OutcomeOf | dmac.cc:51-199 | the blocks that the machine copies come to that outcome, stated over the registers by name |
| DmacModel.AcceptedIs | dmac.cc:395-400 | which registers the address check looks at |
| DmacModel.TransferRegisters | dmac.cc:348-356 | stores at 0x14, 0x18 and 0x1C set length, source and destination and nothing else |
| DmacModel.AttributeRegister | dmac.cc:344-347 | the attribute register holds clearing and burst |
| DmacModel.ControlRegisters | dmac.cc:326-337 | enable, interrupt enable, kick (ignored while busy) and abort |
| DmacModel.StatusWritten | dmac.cc:338-343 | a 1 written to a status bit clears it, a 0 leaves it |
| ClockModel.InsertSplits | clock.cc:106-143 | a new deadline goes behind all that are due no later |
| ClockModel.RunsExactlyTheDue | clock.cc:48-71 | a call runs exactly what was due when it began, once, in order, and nothing that was added meanwhile |
| ClockModel.LeavesTheRest | clock.cc:48-71 | what remains is what was not due, with everything the tasks added due relative to the new present |
| ClockModel.CallRunsTheDue | clock.cc:48-71 | both, for any delta list, told in deadlines |
| ClockFacts.InsertMeans | clock.cc:106-143 | at every moment a new task is due exactly when it should be, behind those due at the same moment |
| ClockFacts.AddedMeans | clock.cc:106-143 | so are all that a task adds, in the order in which it adds them |
| ClockFacts.Determined | clock.cc:106-143 | what is due at each moment, in order, determines the queue |
| ClockFacts.CallMeans | clock.cc:48-71 | after a call nothing is left that is due by the new time, and at every later moment there is what was due then before the call, followed by what the tasks that ran have added for it |
| ClockModel.AddRefines | clock.cc:106-143 | insertion into the delta list is insertion by deadline, also while the head group runs with a delay of zero or less |
| ClockModel.AddKeepsShape | clock.cc:106-143 | delays stay positive and a running head stays untouched |
| ClockModel.GroupRuns | clock.cc:176-186 | running a group keeps list and queue in step, through everything its tasks add |
| ClockModel.ListIsSorted | clock.cc:106-143 | a delta list always stands for a sorted queue |
| ClockModel.Clock.AddDeferredTask | clock.cc:106-143 | the search loop computes that insertion and never runs a task |
| ClockModel.Clock.PassTime | clock.cc:176-186 | time passes for a group; the tasks of a due one run, each adding its own |
| ClockModel.Clock.IncrementTime | clock.cc:48-71 | list and history become what the deadline queue and its run give |
| FixedPoint.PlusSaturatesIff | snaccmodules.cc:222-234 | the checked sum is the saturated exact sum if and only if not both operands are the most negative number, and then it is zero |
| FixedPoint.Times | snaccmodules.cc:215-220 | a product stays within 2^30 in size |
| FixedPoint.MacSaturates | snaccmodules.cc:215-234 | adding a product always saturates truly |
| FixedPoint.ToRegisterClamps | snaccmodules.cc:244-262 | writing a register multiplies by 16 and saturates |
| FixedPoint.RegisterRoundTrip | snaccmodules.h:204-212 | reading and writing back clears the four low bits and nothing else |
| FixedPoint.NumberRoundTripIff | snaccmodules.h:204-212 | writing and reading back is the identity if and only if the number fits 28 bits |
| MadModel.PlainRunTrimsFr | snaccmodules.cc:390-399 | what a run without look-up does to the FR registers, that it keeps one if and only if its low bits are zero, and the clamped TR values |
| MadModel.MadUnit.DoMad | snaccmodules.cc:474-505 | the lane loops compute the fold of exact products under true saturation over the masked lanes |
| MadModel.MadUnit.Start | snaccmodules.cc:281-321 | settles what the run will leave, at least one iteration with addresses advancing by the steps, and how many cycles it takes: first stall, stalls between iterations, wait for the table, write-back |
| MadModel.MadUnit.Step | snaccmodules.cc:341-406 | a cycle keeps that outcome and brings the end closer by exactly one cycle |
| MadModel.MadUnit.RunToIdle | snaccmodules.cc:341-406 | when the unit stops the registers hold it, after exactly the number of cycles that Start settled |
| MadModel.StretchBounds | snaccmodules.cc:354-365 | n iterations take at least n cycles and at most 1 + (n - 1)(latency + 1), and exactly n when the latency is 0 or 1 |
| MadFacts.FourLanes | snaccmodules.cc:474-505 | TR0 takes lanes 0 to 3 and TR1 lanes 4 to 7 with the weights of lanes 0 to 3, one after the other, each saturating, masked lanes left out |
| MadFacts.LastIteration | snaccmodules.cc:335-339 | iteration n reads data at its base address plus n times the data step, weights at theirs plus n times the weight step, in 32 bits |
| MadFacts.RegistersMean | snaccmodules.cc:390-412 | TR is written as 16 times the sum, saturated; after a look-up FR holds, in its upper half, the table entry at twice the ten upper bits of TR; the second pair is written in 8-bit mode only |
| MadFacts.StretchStep | snaccmodules.cc:354-365 | the cycles between two iterations: latency - 1, one more when an access crosses a boundary at the new addresses, none for a latency of 0 or 1 |
| MadFacts.TailMeans | snaccmodules.cc:366-398 | the cycles behind the last iteration in closed form, also for a latency of 0, where the second wait wraps around |
| MadFacts.RegisterRead | snaccmodules.h:204-206 | a run starts from TR divided by 16 and rounded down |
| MadFacts.BoundarySeenIff | snaccmodules.cc:293-333 | for all addresses the unit sees that an access crosses a boundary just when it does, if and only if the mode is 8-bit or fewer than four lanes count |
| MadFacts.FourLanesUnseen | snaccmodules.cc:298-333 | with four 16-bit lanes it never sees it, and every unaligned access crosses |
| Dataflow.UseCount | cmamodules.cc:945-960 | a node stands in a use list as often as it is wired to that node, when it is wanted and reads it, and not at all otherwise |
| Dataflow.UnservedStep | cmamodules.cc:442-457 | taking a node lowers every counter by the occurrences in its use list, and the counters are then right for the nodes taken |
| Dataflow.NegativeIff | cmamodules.cc:453 | a counter is below zero if and only if it is that of a selector wired more than once to the node it selects, and that node has been taken |
| Dataflow.CountersHoldIff | cmamodules.cc:451-454 | no counter is below zero if and only if no node stands in the use list of a node taken more often than its in-degree |
| Dataflow.TakenIff | cmamodules.cc:435-462 | the sort takes a node if and only if it is wanted, all that it reads is taken, and it is not such a selector |
| Dataflow.ResolutionUnique | cmamodules.cc:435-462 | any two complete runs of the sort take the same nodes |
| Dataflow.DoubledLink | cmamodules.cc:453 | the smallest such graph: the counter stands at -1 and the selector is not taken |
| PeArrayModel.ScheduleDistinct | cmamodules.cc:435-462 | every scheduled node is listed once |
| PeArrayModel.ScheduleBehind | cmamodules.cc:435-462 | and behind all that it reads |
| PeArrayModel.SolutionsEqual | cmamodules.cc:467-487 | the node equations have one solution at most, whatever resolution they are written for |
| PeArrayModel.ComputedSolves | cmamodules.cc:473-476 | evaluating a schedule solves them |
| PeArrayModel.OrderIndependent | cmamodules.cc:442-457 | two orders of walking the map give the same scheduled nodes and the same values |
| PeArrayModel.PeArray.AnalyzeDataflow | cmamodules.cc:401-465 | for any wiring and configuration, cyclic or not, the sort ends, leaves a schedule that nothing can be added to and counters that are right, below zero exactly for a doubled selector |
| PeArrayModel.PeArray.CountDown | cmamodules.cc:451-454 | every counter of the list is there and is lowered by its occurrences, no other changes |
| PeArrayModel.PeArray.Exec | cmamodules.cc:467-487 | memory ports and active pipeline registers take the value of their input from the unique solution, buffers are empty again, launched data moves up by one |
| PeArrayModel.PeArray.Configure | cmamodules.cc:987-1018 | a selector takes an index in range, an ALU an opcode below 16, other values are ignored; a pipeline register is switched by any value other than 0 |
| PeArrayFacts.NodeMeans | cmamodules.cc:982-1043 | in the solution a scheduled ALU has its operation applied to the inputs in the order they were connected, a selector the selected input, a pipeline register its input or, when active, its latch; leaves hold their data, all else reads as 0 |
| PeArrayFacts.FrontMeans | cmamodules.cc:1045-1060 | a constant is its 17 bits sign extended to 25, a memory port the oldest entry of its buffer |
| PeArrayFacts.TakenMeans | cmamodules.cc:982-1043 | whom the sort takes, kind by kind, over the inputs of the node |
| PeArrayFacts.ScheduledIff | cmamodules.cc:945-960 | a node taken is scheduled if and only if some successor reads it, which is said kind by kind |

## Left out

- Interrupts, CP0 to CP3 instructions with their delays and suspension, the FPU, TLB and bus errors of the processor: asynchronous or not precise in the code; LWCz and SWCz raise the coprocessor exception, as they do without a coprocessor.
- Uncached accesses, among them SWL and SWR storing a whole word (cpu.cc:1243-1247): the data side of the pipeline is flat memory.
- Self-modifying code: the program is a fixed function of the fetch address.
- The exception code: there is no Cause register, and the model does not say which exception of a record is delivered (`max_prio` is never updated, cpu.cc:354-360); what it says holds for any.
- ControlFacts.HiLoForm: does not say what a division by zero leaves; the C++ behaviour is undefined there, and the model takes 0 for the quotient.
- The initial value of `hi_write` and `lo_write`, which the constructor leaves open: taken as false.
- Caches inside the pipeline: the pipeline sees arbitrary stalls and flat memory, the cache is proved against flat memory on its own.
- Cache isolation and swapping, byte swapping, SETLINE and the index operations.
- More than one cache step per cycle (`mem_bandwidth` above 1): a second step in the cycle that ends a transfer would use the operation record after its deletion.
- Allocation and deletion order of the cache's operation record beyond that.
- Deadlock freedom of the router network: a reservation can be taken for a channel that is not granted, so only safety is claimed.
- CreditConservation: not stated for channels 4 to 7 when buffers exceed 15 flits, where the code leaks credit; `RouterTheorems.LeakIff` says when and `RouterLeak.LeakReached` that it happens.
- The history fields `log` and `taken` of the router model and `tx`, `ran` of the interface and the clock do not exist in the source; they record what happened.
- The network between two interfaces in `RemoteDma` is an ordered, non-interleaving channel that drops what is not for the receiver, which is what `RouterTheorems` provides for one virtual channel; the two models are not composed into one.
- Writes to an accelerator's memory by its own core during a transfer.
- The other bus masters during a DMA transfer, and the address map: memory is one flat array of words.
- The DMA controller's register block is a value inside its class, not an object of its own.
- Wrap-around of the DMA controller's block counter after 2^32 blocks.
- Tasks of the clock are finite trees of what they add; real-time passing and `set_time` are not modelled.
- Constants of the PE array are fixed; the ALU operations are an arbitrary function of opcode and operands.
- Pooling modes of the multiply-add unit, the buffers' address swizzling (lanes are an arbitrary function of address and lane), the write-buffer arbiter and the configuration registers.
- The instruction interpreters of the CMA and SNACC cores, their debuggers, devices, profiling and I/O.
- PipelineSettle.TrapStep: does not say which exception code CP0 receives, nor how the handler address is chosen; the vector in force is part of `Env`.
- PipelineTraps.PreciseException: the exception code is not stated, as above.
- CpuModel.Cpu.PreMemAccess: address translation, the cache request and the bus are the stall of the cycle; the alignment check is as coded.
- CpuModel.Cpu.Fetch: translation and cache faults are left out; the alignment check is as coded.
- CpuModel.Cpu.ExcHandle: the exception code, the resets of the caches and the release of the bus are left out.
- CpuModel.Cpu.MemAccess: the uncached branch is left out.
- CpuModel.Cpu.Decode: the suspension for a coprocessor is left out.
- CpuModel.Cpu.Step: interrupts, coprocessor suspension and the caches are left out.
- CpuModel.Cpu.RunFor: the same.
- CacheModel.Cache.Step: one call a cycle only (`now > lastUpdate`), as above.
- CacheModel.Cache.FetchHalfword: the byte-swapped branch is left out, as it is in FetchByte, StoreHalfword and StoreByte.
- CacheModel.Cache.ExecCacheOp: SETLINE and the index operations are left out; the latter only print that they are not implemented.
- MadModel.MadUnit.Start: the pooling modes are left out, as they are in Step and RunToIdle.
- RemoteDma.Link.Transfer: over an ordered channel that routes by destination, not over the router model.
- RouterLeak.LeakReached: router 0 works until its packet is on the link, router 1 after it; a schedule in which both work in every cycle is not given.
