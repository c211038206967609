# BeaNES core in Dafny

A model of the emulation core of BeaNES, a NES emulator written in Java, with
proofs about it. The model covers:

- the 6502 interpreter (`CPU`): registers, status flags, the page-one stack,
  the interrupt latch, the thirteen addressing modes, the 151 decoded opcodes,
  and the joypad strobe registers;
- the picture processor (`PPU`): the video-memory mirror tables, the ports
  0x2000-0x2007 and sprite DMA at 0x4014, the loopy T/V/X scroll registers,
  background and sprite rendering of a scanline, and the cycle-driven
  scanline and frame state machine;
- the iNES loader (`ROM`): the magic number, the header fields, cutting PRG
  and CHR banks, bank reads, mapper selection and mapper names;
- the memory mappers `NESMapper`, `AOROMMapper`, `GNROMMapper` and
  `UNIROMMapper`;
- `JoypadInput`: the key map and the button states;
- the `SquareChannel` sound generator.

Code that changes state in place keeps that form. `Processor.Cpu`,
`Picture.Ppu`, `Joypad.JoypadInput`, `Square.SquareChannel`, `Cartridge.Rom`
and the mapper classes are Dafny classes over the Java fields and arrays.
Each method is proved against a pure function of the old state: `CpuSpec`
for the interpreter, `PpuPorts`, `PpuRegs` and `PpuRender` for the picture
processor, and the functions of `Square`, `Cartridge` and `Mappers`. The
properties of the program are then proved as lemmas about those functions.

Java integers become mathematical integers. Every mask, shift and wrap the
source writes is written out: `& 0xFF` and `& 0xFFFF` are remainders, and the
PPU registers are 16-bit vectors. A Java exception (an array index out of
bounds, a read past the end of memory) becomes an explicit error result: an
`Option`, a `Fault`, a `Crashed` step or an `ok` flag that is false.

The opcode tables are modelled as written. `initOpcodes` writes the size and
cycle count meant for 0x6C (JMP indirect) to 0x2C. It also never sets a size or
cycle count for 0x28 (PLP). Both entries stay at Java's default 0
(`Opcodes.UnassignedEntries`). `processNextInstruction` returns that 0 as the
instruction size; it advances PC through the addressing mode, so PC is not
affected (`CpuSpec.StepSizeIsLength`). The VRAM mirror table is also modelled
as written. It is one level deep, so 0x3800 resolves to 0x2800 even when
0x2800 itself is folded onto 0x2000 (`PpuMirror.UpperNameTablesSkipFolding`).

Interrupts follow the code of `processIRQ`, not its comment. The comment at
`CPU.java:144-145` says every taken interrupt sets the interrupt-disable flag.
Only the normal IRQ branch (`CPU.java:164-177`) sets it (and clears break).
The NMI branch (`CPU.java:179-188`) pushes the frame and jumps but leaves every
flag as it was, and `CpuSpec.ProcessIrq` states exactly that.

## Model

| member | source | states |
|---|---|---|
| Alu.UnpackPack | BeaNES/src/beanes/CPU.java:1050-1080 | PLP after PHP restores every flag: unpacking a packed status byte gives back all eight flags |
| Alu.PackUnpack | BeaNES/src/beanes/CPU.java:1050-1080 | every status byte is the packing of the flags it unpacks to, so the pack/unpack pair is a bijection |
| Alu.GetFlags | BeaNES/src/beanes/CPU.java:128-138 | `getFlags` yields a value below 0x80 (seven bits) |
| Alu.GetFlagsDropsBreak | BeaNES/src/beanes/CPU.java:128-138 | the `getFlags` layout is the pushed status byte with the break bit removed: bits 0-3 agree, bits 4-6 are bits 5-7 of the pushed byte, and toggling break does not change it |
| CpuSpec.LoadSetsSignZero | BeaNES/src/beanes/CPU.java:710-890 | every load, transfer other than TXS and X/Y step writes the loaded byte into its register, sets sign iff that byte is 0x80 or more and zero iff it is 0, and keeps the other six flags |
| CpuSpec.LogicSetsSignZero | BeaNES/src/beanes/CPU.java:373-380 | AND, ORA and EOR leave the bitwise AND/OR/XOR of A and the operand in A, set sign iff it is 0x80 or more and zero iff it is 0, and keep the other flags |
| CpuSpec.PlaSetsSignZero | BeaNES/src/beanes/CPU.java:1038-1046 | PLA moves SP up one and loads A with the byte there, sets sign iff it is 0x80 or more and zero iff it is 0, and keeps the other flags |
| Alu.AdcUnsignedSum | BeaNES/src/beanes/CPU.java:355-362 | ADC: value + 256 * carry-out equals A + M + carry-in, zero and sign describe the value, and no flag but carry, zero, sign and overflow changes |
| Alu.AdcSignedOverflow | BeaNES/src/beanes/CPU.java:355-362 | ADC sets overflow iff the signed sum lies outside -128..127, and then the value is the signed sum wrapped by 256 |
| Alu.SbcUnsignedDifference | BeaNES/src/beanes/CPU.java:987-994 | SBC: carry-out is set iff A >= M + borrow, and the value is A - M - borrow, plus 256 when carry is clear |
| Alu.SbcSignedOverflow | BeaNES/src/beanes/CPU.java:987-994 | SBC sets overflow iff the signed difference lies outside -128..127 |
| Alu.SbcIsAdcOfComplement | BeaNES/src/beanes/CPU.java:983-1000 | SBC of M is ADC of 0xFF - M, in the value and in every flag |
| Alu.CompareOrders | BeaNES/src/beanes/CPU.java:529-569 | CMP/CPX/CPY set carry iff reg >= M and zero iff reg == M, so carry without zero means reg > M; no flag but carry, zero and sign changes |
| Alu.ShiftsScale | BeaNES/src/beanes/CPU.java:387-400 | ASL doubles with the lost bit 7 in carry; LSR halves with the lost bit 0 in carry |
| Alu.RolUndoesRor | BeaNES/src/beanes/CPU.java:892-941 | ROL after ROR through carry gives back the operand and the original carry |
| Alu.RorUndoesRol | BeaNES/src/beanes/CPU.java:892-941 | ROR after ROL through carry gives back the operand and the original carry |
| Opcodes.SizeAgreesWithMode | BeaNES/src/beanes/CPU.java:1230-1433 | for every decoded opcode except 0x6C and 0x28, the size table is 1 + the operand bytes of its addressing mode, and the cycle count is at least 2 |
| Opcodes.UnassignedEntries | BeaNES/src/beanes/CPU.java:1328 | JMP (indirect, 0x6C) and PLP (0x28) are decoded, but their size and cycle entries are 0 |
| Opcodes.IllegalOpcode | BeaNES/src/beanes/CPU.java:1219-1224 | an opcode outside the switch has mode 0 (zero page), size 0 and cycles 0, Java's array defaults |
| Opcodes.BranchesAreRelative | BeaNES/src/beanes/CPU.java:1648-1857 | every conditional branch opcode uses the relative mode |
| Opcodes.RelativeOnlyForBranches | BeaNES/src/beanes/CPU.java:1648-1857 | the relative mode is used only by conditional branches |
| Opcodes.AccumulatorModeOnlyForShifts | BeaNES/src/beanes/CPU.java:1648-1857 | the accumulator mode is used only by ASL, LSR, ROL and ROR |
| CpuSpec.PullAfterPush | BeaNES/src/beanes/CPU.java:1121-1133 | a pull right after a push returns the pushed byte and restores SP |
| CpuSpec.StackDepthAfterPush | BeaNES/src/beanes/CPU.java:1128-1133 | a push moves every stack cell one slot closer to SP, and SP's own cell to the bottom of the 256-slot ring |
| CpuSpec.PullNState | BeaNES/src/beanes/CPU.java:1121-1126 | pulling n bytes moves SP up by n within page one and returns n bytes |
| CpuSpec.PullNAt | BeaNES/src/beanes/CPU.java:1121-1126 | the i-th pulled byte is the cell i + 1 above SP, wrapping within page one |
| CpuSpec.PushAllRegisters | BeaNES/src/beanes/CPU.java:1128-1133 | pushes move SP down by their count within page one and change no register |
| CpuSpec.PushAllCell | BeaNES/src/beanes/CPU.java:1128-1133 | after pushes, each page-one cell holds the byte pushed onto it last, or its old value |
| CpuSpec.PushedCellAboveSp | BeaNES/src/beanes/CPU.java:1128-1133 | after pushing vs, the cell i above SP holds the i-th byte from the end of vs |
| CpuSpec.PullAllAfterPushAll | BeaNES/src/beanes/CPU.java:1121-1133 | pulling up to 256 pushed bytes returns them in reverse order and restores SP |
| CpuSpec.RequestIrq | BeaNES/src/beanes/CPU.java:1205-1211 | `requestIRQ` leaves a request pending and changes nothing but the latch |
| CpuSpec.PendingNormalIrqBlocks | BeaNES/src/beanes/CPU.java:1205-1211 | while a normal IRQ is pending, any sequence of further requests is ignored |
| CpuSpec.LastRequestWins | BeaNES/src/beanes/CPU.java:1205-1211 | with no normal IRQ pending, the last of a sequence of requests of other kinds decides the pending kind |
| CpuSpec.ProcessIrq | BeaNES/src/beanes/CPU.java:141-200 | `processIRQ` always clears the latch; it does nothing without a request; it drops a normal IRQ while I is set; on reset it jumps through 0xFFFC without pushing; a taken NMI or IRQ pushes PC high, PC low and the status byte (writing only those three cells), jumps through its vector and keeps A, X, Y and the request kind; an IRQ then sets I and clears break, while an NMI leaves every flag as it was |
| CpuSpec.HardResetEntersResetVector | BeaNES/src/beanes/CPU.java:110-125 | after `hardReset`, the next interrupt service jumps through the reset vector with nothing pushed |
| CpuSpec.ResetLostBehindPendingIrq | BeaNES/src/beanes/CPU.java:91-107 | `reset` while a normal IRQ is pending leaves that IRQ pending, so the reset request is lost |
| CpuSpec.Fetch | BeaNES/src/beanes/CPU.java:203-311 | `processAddressingMode` changes only PC, which advances by the operand bytes of the mode, modulo 0x10000 |
| CpuSpec.FetchFaults | BeaNES/src/beanes/CPU.java:203-311 | operand fetch faults iff an operand byte or an indirect address byte lies past 0xFFFF; zero-page modes give addresses below 0x100 |
| CpuSpec.RelativeTarget | BeaNES/src/beanes/CPU.java:288-300 | a relative operand is the signed displacement added to the address after the operand |
| CpuSpec.ArithmeticOut | BeaNES/src/beanes/CPU.java:352-417 | the compares and BIT leave A as it is |
| CpuSpec.Arithmetic | BeaNES/src/beanes/CPU.java:352-417 | ADC, SBC, AND, ORA, EOR, the compares and BIT change only A and the flags, and the compares and BIT not A |
| CpuSpec.ReadModifyWrite | BeaNES/src/beanes/CPU.java:387-400 | a shift or rotate on the accumulator changes only A and the flags; INC, DEC and memory-mode shifts change only the one addressed byte and the flags |
| CpuSpec.RegisterOp | BeaNES/src/beanes/CPU.java:802-890 | loads, stores, transfers and X/Y increments touch no PC or latch; only TXS moves SP, only stores write memory |
| CpuSpec.FlagOp | BeaNES/src/beanes/CPU.java:604-665 | CLC .. SED change only the flags |
| CpuSpec.StackOp | BeaNES/src/beanes/CPU.java:1030-1080 | PHA, PLA, PHP and PLP keep PC, X, Y and the interrupt latch |
| CpuSpec.QuietStep | BeaNES/src/beanes/CPU.java:314-340 | with no request pending and PC in 16 bits, a step is just the instruction at PC |
| CpuSpec.StraightLineAdvancesPc | BeaNES/src/beanes/CPU.java:314-340 | an instruction that does not load PC moves PC past its opcode and operand bytes |
| CpuSpec.Decoded | BeaNES/src/beanes/CPU.java:329-333 | a step looks its opcode up in the decode, mode and size tables |
| CpuSpec.RunStepped | BeaNES/src/beanes/CPU.java:335-338 | a step crashes exactly when its operand fetch does |
| CpuSpec.RunAdvancesPc | BeaNES/src/beanes/CPU.java:335-338 | a step of a straight-line operation that does not crash leaves PC past its operand |
| CpuSpec.IllegalOpcodeStep | BeaNES/src/beanes/CPU.java:1104-1116 | an undecoded opcode steps PC by 2 (zero-page fetch), changes nothing else and returns size 0 |
| CpuSpec.StepSizeIsLength | BeaNES/src/beanes/CPU.java:1116 | the returned size is the instruction length for decoded opcodes other than 0x6C and 0x28, and 0 for those two and for undecoded opcodes |
| CpuSpec.ExecuteKeepsPc | BeaNES/src/beanes/CPU.java:342-1108 | only the branches and JMP/JSR/RTS/RTI/BRK load PC |
| CpuSpec.BranchStep | BeaNES/src/beanes/CPU.java:418-488 | a branch changes only PC: to the relative target when its condition holds, otherwise past the operand |
| CpuSpec.BranchFetch | BeaNES/src/beanes/CPU.java:418-488 | a branch opcode fetches its relative operand and returns size 2 |
| CpuSpec.ExecuteBranch | BeaNES/src/beanes/CPU.java:418-488 | a branch sets PC to the target iff its condition holds on the flags |
| CpuSpec.JsrThenRts | BeaNES/src/beanes/CPU.java:692-699 | JSR followed at the target by RTS returns to the instruction after the JSR with SP restored |
| CpuSpec.PullAddressAfterPushes | BeaNES/src/beanes/CPU.java:967-972 | pushing hi then lo and pulling an address gives the word lo/hi and restores SP |
| CpuSpec.JsrStep | BeaNES/src/beanes/CPU.java:692-699 | JSR pushes the address of its last operand byte, high byte first, and jumps to the operand |
| CpuSpec.RtsStep | BeaNES/src/beanes/CPU.java:967-972 | RTS pulls the return address, low byte first, and continues one byte after it |
| CpuSpec.MaskedIrqIsDiscarded | BeaNES/src/beanes/CPU.java:141-150 | a normal IRQ requested while I is set has no effect on the step |
| CpuSpec.RtiReturnsFromInterrupt | BeaNES/src/beanes/CPU.java:947-963 | RTI right after a taken interrupt restores PC, SP and every flag except break, which reads back as pushed |
| CpuSpec.BrkThenRti | BeaNES/src/beanes/CPU.java:493-516 | RTI right after BRK resumes at the BRK address + 2 (one past the PC BRK sees, wrapped to 16 bits), with SP, A, X and Y restored and every flag as before BRK except break, which reads back as set |
| CpuSpec.ExecuteRti | BeaNES/src/beanes/CPU.java:947-963 | RTI pulls the status byte first and then the return address |
| CpuSpec.PullFrame | BeaNES/src/beanes/CPU.java:947-963 | pulling a byte then an address from an interrupt frame gives back the saved status and PC and restores SP |
| CpuSpec.PushFrameLayout | BeaNES/src/beanes/CPU.java:141-200 | an interrupt frame has PC high at SP, PC low below it, then the status byte, SP ends three below, and no other register, flag or memory cell changes |
| CpuSpec.PlpAfterPhp | BeaNES/src/beanes/CPU.java:1050-1080 | PHP then PLP restores every flag and SP, except that break reads back as set |
| Processor.StrobeCycle | BeaNES/src/beanes/CPU.java:1151-1202 | one cycle of 24 reads reports the eight button states, ten zeros, the signature pair (0, 1) for the first pad or (1, 0) for the second, then four zeros |
| Processor.ReportSuffix | BeaNES/src/beanes/CPU.java:1151-1202 | a report from read i on is the suffix of the full cycle |
| Processor.Cpu.constructor | BeaNES/src/beanes/CPU.java:82-89 | a new CPU is the hard reset of a zeroed machine, with clear strobe counters |
| Processor.Cpu.Reset | BeaNES/src/beanes/CPU.java:91-107 | `reset` is `CpuSpec.Reset` on the state |
| Processor.Cpu.HardReset | BeaNES/src/beanes/CPU.java:110-125 | `hardReset` is `CpuSpec.HardReset` and clears the strobe state and the instruction count |
| Processor.Cpu.GetFlags | BeaNES/src/beanes/CPU.java:128-138 | returns `Alu.GetFlags` of the flags |
| Processor.Cpu.RequestIrq | BeaNES/src/beanes/CPU.java:1205-1211 | `requestIRQ` is `CpuSpec.RequestIrq` on the state |
| Processor.Cpu.Push | BeaNES/src/beanes/CPU.java:1128-1133 | `push` is `CpuSpec.Push` on the state |
| Processor.Cpu.Pull | BeaNES/src/beanes/CPU.java:1121-1126 | `pull` is `CpuSpec.Pull`, byte and state |
| Processor.Cpu.PullAddress | BeaNES/src/beanes/CPU.java:967-972 | two pulls give the address of `CpuSpec.PullAddress` |
| Processor.Cpu.PushReturn | BeaNES/src/beanes/CPU.java:696-697 | two pushes of a return address, high byte first |
| Processor.Cpu.PushFrame | BeaNES/src/beanes/CPU.java:160-175 | the three pushes of a taken interrupt |
| Processor.Cpu.ServeIrq | BeaNES/src/beanes/CPU.java:150-197 | the switch on the kind of request is `CpuSpec.ServeIrq` |
| Processor.Cpu.ProcessIrq | BeaNES/src/beanes/CPU.java:141-200 | `processIRQ` is `CpuSpec.ProcessIrq` on the state |
| Processor.Cpu.AddressOf | BeaNES/src/beanes/CPU.java:203-311 | computes `CpuSpec.OperandAddress` for the mode, or None where a read would pass 0xFFFF |
| Processor.Cpu.OperandWord | BeaNES/src/beanes/CPU.java:225-230 | the little-endian operand at PC, or None past 0xFFFF |
| Processor.Cpu.TwoByteAddress | BeaNES/src/beanes/CPU.java:225-286 | the 16-bit operand cases of `processAddressingMode` |
| Processor.Cpu.OneByteAddress | BeaNES/src/beanes/CPU.java:207-224 | the 8-bit operand cases of `processAddressingMode` |
| Processor.Cpu.ProcessAddressingMode | BeaNES/src/beanes/CPU.java:203-311 | `ok` iff `CpuSpec.Fetch` has an operand; then the address and the new state are the fetch's |
| Processor.Cpu.Arithmetic | BeaNES/src/beanes/CPU.java:352-417 | `CpuSpec.Arithmetic` on the state |
| Processor.Cpu.ReadModifyWrite | BeaNES/src/beanes/CPU.java:387-400 | `CpuSpec.ReadModifyWrite` on the state |
| Processor.Cpu.ModifyMemory | BeaNES/src/beanes/CPU.java:573-591 | the addressed byte and the flags become `ReadModifyWriteOut` of that byte |
| Processor.Cpu.Write | BeaNES/src/beanes/CPU.java:1214-1217 | `write` stores one byte and changes nothing else |
| Processor.Cpu.RegisterOp | BeaNES/src/beanes/CPU.java:802-890 | `CpuSpec.RegisterOp` on the state |
| Processor.Cpu.Load | BeaNES/src/beanes/CPU.java:710-754 | loads, transfers and X/Y steps are `CpuSpec.RegisterOp` |
| Processor.Cpu.FlagOp | BeaNES/src/beanes/CPU.java:604-665 | `CpuSpec.FlagOp` on the state |
| Processor.Cpu.StackOp | BeaNES/src/beanes/CPU.java:1030-1080 | `CpuSpec.StackOp` on the state |
| Processor.Cpu.Control | BeaNES/src/beanes/CPU.java:683-699 | `CpuSpec.Control` on the state |
| Processor.Cpu.Jsr | BeaNES/src/beanes/CPU.java:692-699 | `CpuSpec.Jsr` on the state |
| Processor.Cpu.Rts | BeaNES/src/beanes/CPU.java:967-972 | `CpuSpec.Rts` on the state |
| Processor.Cpu.Rti | BeaNES/src/beanes/CPU.java:947-963 | `CpuSpec.Rti` on the state |
| Processor.Cpu.Brk | BeaNES/src/beanes/CPU.java:493-516 | `CpuSpec.Brk` on the state |
| Processor.Cpu.Execute | BeaNES/src/beanes/CPU.java:342-1108 | the semantics switch is `CpuSpec.Execute` on the state |
| Processor.Cpu.ProcessNextInstruction | BeaNES/src/beanes/CPU.java:314-1118 | `ok` iff `CpuSpec.Step` does not crash; then state and size are the step's, and the instruction count goes up by one |
| Processor.Cpu.RunInstruction | BeaNES/src/beanes/CPU.java:329-338 | `CpuSpec.RunInstruction` on the state |
| Processor.Cpu.Run | BeaNES/src/beanes/CPU.java:335-1116 | `CpuSpec.Run` on the state, returning the table size |
| Processor.Cpu.WriteJoypadInput | BeaNES/src/beanes/CPU.java:1141-1148 | writing 0 right after a 1 restarts both strobe counts; the last write is recorded; nothing else changes |
| Processor.Cpu.ReadJoypadInput | BeaNES/src/beanes/CPU.java:1151-1202 | the read reports `StrobeBit` for the current count, which then advances modulo 24 |
| Joypad.Bind | BeaNES/src/beanes/JoypadInput.java:87-90 | the map after binding: only the entry of `key` changes, and a key outside the map changes nothing |
| Joypad.UnbindAll | BeaNES/src/beanes/JoypadInput.java:92-96 | unbinding keeps the map's length |
| Joypad.UnbindAllClears | BeaNES/src/beanes/JoypadInput.java:92-96 | after unbinding a button no key is bound to it; keys bound to it become -1 and every other binding is kept |
| Joypad.UnbindAllIdempotent | BeaNES/src/beanes/JoypadInput.java:92-96 | unbinding a button no key is bound to changes nothing |
| Joypad.DefaultsBindEachButtonOnce | BeaNES/src/beanes/JoypadInput.java:65-83 | each controller's default layout binds every button to exactly one key |
| Joypad.JoypadInput.constructor | BeaNES/src/beanes/JoypadInput.java:47-85 | a new controller has the default layout of its number and all buttons released |
| Joypad.JoypadInput.BindKey | BeaNES/src/beanes/JoypadInput.java:87-90 | the map becomes `Bind` of the old map |
| Joypad.JoypadInput.UnbindButton | BeaNES/src/beanes/JoypadInput.java:92-96 | the map becomes `UnbindAll` of the old map |
| Joypad.JoypadInput.UnbindKey | BeaNES/src/beanes/JoypadInput.java:98-100 | a key in 0..254 has its entry become -1 and `ok` is true; a key outside the map (where the Java array access throws) gives `ok` false and changes nothing |
| Joypad.JoypadInput.UnbindKeys | BeaNES/src/beanes/JoypadInput.java:102-105 | every key becomes unbound |
| Joypad.JoypadInput.GetBoundedButton | BeaNES/src/beanes/JoypadInput.java:107-109 | the button of a key in the map, None (the Java exception) for any other key |
| Joypad.JoypadInput.GetBoundedKey | BeaNES/src/beanes/JoypadInput.java:111-117 | the smallest key bound to the button, or -1 iff no key is |
| Joypad.JoypadInput.GetButtonState | BeaNES/src/beanes/JoypadInput.java:120-125 | 1 while a valid button is held, 0 otherwise and for any other index |
| Joypad.JoypadInput.KeyPressed | BeaNES/src/beanes/JoypadInput.java:128-134 | the button bound to the key becomes 1; a key bound to no button changes nothing; a key outside 0..254 (where the Java array access throws) gives `ok` false and changes nothing |
| Joypad.JoypadInput.KeyReleased | BeaNES/src/beanes/JoypadInput.java:137-143 | the button bound to the key becomes 0; a key bound to no button changes nothing; a key outside 0..254 (where the Java array access throws) gives `ok` false and changes nothing |
| Square.LatchKeepsWf | BeaNES/src/beanes/sound/SquareChannel.java:36-66 | a register write keeps every field in range |
| Square.ControlDecode | BeaNES/src/beanes/sound/SquareChannel.java:38-45 | 0x4000/0x4004 set duty from bits 7-6, halt from bit 5, envelope disable from bit 4 and the decay rate from bits 3-0 |
| Square.SweepDecode | BeaNES/src/beanes/sound/SquareChannel.java:47-53 | 0x4001/0x4005 set sweep enable from bit 7, the counter from bits 6-4, the mode from bit 3 and the shift from bits 2-0 |
| Square.TimerLatches | BeaNES/src/beanes/sound/SquareChannel.java:55-66 | 0x4002/0x4006 replace the timer's low byte and 0x4003/0x4007 its high three bits; the timer stays below 0x8000 |
| Square.ShrBounds | BeaNES/src/beanes/sound/SquareChannel.java:84-96 | Java's `x >> n` of a non-negative value lies between 0 and the value, and -1 stays -1 |
| Square.ProcessStep | BeaNES/src/beanes/sound/SquareChannel.java:84-96 | `process` sets the sample to 120 iff the channel is audible in duty mode 3, else 0, and counts the timer down by at least one; nothing else changes |
| Square.WriteKeepsWf | BeaNES/src/beanes/sound/SquareChannel.java:36-72 | `write` keeps every field in range |
| Square.ClockLengthCounterStep | BeaNES/src/beanes/sound/SquareChannel.java:74-81 | `clockLengthCounter` decrements an enabled, running length counter and runs `process` only when it reaches 0 |
| Square.SilentWhenLengthZero | BeaNES/src/beanes/sound/SquareChannel.java:84-96 | once the length counter is 0 the sample is 0 |
| Square.SquareChannel.constructor | BeaNES/src/beanes/sound/SquareChannel.java:32-34 | every field starts at its Java default |
| Square.SquareChannel.Write | BeaNES/src/beanes/sound/SquareChannel.java:36-72 | the new state is `Written` of the old |
| Square.SquareChannel.ClockLengthCounter | BeaNES/src/beanes/sound/SquareChannel.java:74-81 | the new state is `Clocked` of the old |
| Square.SquareChannel.Process | BeaNES/src/beanes/sound/SquareChannel.java:84-96 | the new state is `Processed` of the old |
| Cartridge.MagicOnPaddedCopy | BeaNES/src/beanes/ROM.java:139 | the magic check on the padded copy holds iff the file starts with "NES" and 0x1A |
| Cartridge.MapperType | BeaNES/src/beanes/ROM.java:146 | the mapper number's low nibble is byte 6's high nibble and its high nibble is byte 7's |
| Cartridge.DecodeHeader | BeaNES/src/beanes/ROM.java:142-152 | the CHR count is even, the mirroring is vertical iff bit 0 of byte 6 is set, trainer is bit 2 and four-screen is bit 3 |
| Cartridge.Parse | BeaNES/src/beanes/ROM.java:111-220 | not iNES iff the magic is missing; truncated iff the magic is present but the header is shorter than 7 bytes; otherwise byte 4 PRG banks and 2 x byte 5 CHR banks |
| Cartridge.FlattenIndex | BeaNES/src/beanes/ROM.java:155-199 | laid end to end, equal-size banks put byte r of bank q at q * size + r |
| Cartridge.BanksPartitionBody | BeaNES/src/beanes/ROM.java:155-199 | the PRG banks are the file from byte 16 on, and the CHR banks follow right after them, zero past the end |
| Cartridge.BankRead | BeaNES/src/beanes/ROM.java:232-240 | `read` gives the stored byte, or -1 iff the bank or address is out of range |
| Cartridge.ReadIsFileByte | BeaNES/src/beanes/ROM.java:232-240 | reading a loaded PRG bank gives the file byte at 16 + bank * 0x4000 + address |
| Cartridge.SelectMapper | BeaNES/src/beanes/ROM.java:201-207 | mapper 2 gets UNROM, 7 AOROM and 66 GNROM (3 has its own mapper too), and every other number the base mapper |
| Cartridge.MapperNinetyTwoThrows | BeaNES/src/beanes/ROM.java:254-258 | the as-written guard lets mapper 92 (header bytes 0xC0, 0x50) index past the 92-entry table |
| Cartridge.MapperNameCorrected | BeaNES/src/beanes/ROM.java:254-258 | with `>=` the name is defined for every number, agrees with the as-written one wherever that does not throw, and the throw happens only at 92 |
| Cartridge.Rom.constructor | BeaNES/src/beanes/ROM.java:53-62 | a loader with every field at its initial value and nothing decoded |
| Cartridge.Rom.ReadBank | BeaNES/src/beanes/ROM.java:163-172 | the bank loop copies `Chunk` of the file, zero past its end |
| Cartridge.Rom.CutBanks | BeaNES/src/beanes/ROM.java:155-199 | both bank loops give `PrgBanks` and `ChrBanks` |
| Cartridge.Rom.ReadHeader | BeaNES/src/beanes/ROM.java:142-152 | the header fields become those of `DecodeHeader`; a header shorter than 7 bytes throws after setting the fields it reached |
| Cartridge.Rom.Load | BeaNES/src/beanes/ROM.java:111-220 | `load` gives `Parse` of the file: a non-iNES file changes nothing; a header cut short before byte 7 sets PRG count, then CHR count, then trainer as far as the padded copy reaches, keeps the other fields and sets no banks or mapper; a loaded image sets the banks, header fields and the selected mapper |
| Mappers.BusRead | BeaNES/src/beanes/mappers/NESMapper.java:36-68 | RAM mirrored every 2 KiB below 0x2000, the PPU ports 0x2000-0x2007, 0 up to 0x4015, the joypads at 0x4016/0x4017, memory above |
| Mappers.BusWrite | BeaNES/src/beanes/mappers/NESMapper.java:74-105 | RAM below 0x2000 (mirrored), PPU ports and 0x4014 to the PPU, sound registers to the APU, joypads, illegal 0x2008-0x3FFF, memory above 0x4017; port writes leave memory alone |
| Mappers.RamMirrorsAgree | BeaNES/src/beanes/mappers/NESMapper.java:36-105 | a RAM write is read back at every address of its 2 KiB mirror and changes no other read |
| Mappers.MemoryWriteReadBack | BeaNES/src/beanes/mappers/NESMapper.java:98-103 | a write above 0x4017 (ROM included) is read back and changes no other cell |
| Mappers.Splice | BeaNES/src/beanes/mappers/NESMapper.java:121-127 | a bank copy writes exactly the bank's bytes at the target offset |
| Mappers.CopyInto | BeaNES/src/beanes/mappers/NESMapper.java:121-127 | `System.arraycopy` leaves the array as `Splice` says |
| Mappers.LoadedBanksWellFormed | BeaNES/src/beanes/ROM.java:155-199 | every decoded image has 16 KiB PRG banks and an even number of 4 KiB CHR banks |
| Mappers.NesMapper.constructor | BeaNES/src/beanes/mappers/NESMapper.java:29-31 | the mapper over the given memories and banks |
| Mappers.NesMapper.Write | BeaNES/src/beanes/mappers/NESMapper.java:74-105 | memory and target as `BusWrite` says |
| Mappers.NesMapper.LoadRomBank | BeaNES/src/beanes/mappers/NESMapper.java:121-123 | copies exactly PRG bank `bank` to `address`; throws (nothing changed) iff the bank or the window is out of range |
| Mappers.NesMapper.LoadVromBank | BeaNES/src/beanes/mappers/NESMapper.java:125-127 | copies exactly CHR bank `bank` to PPU memory; throws (nothing changed) iff out of range |
| Mappers.NesMapper.LoadRom | BeaNES/src/beanes/mappers/NESMapper.java:107-119 | bank 0 at 0x8000 and bank 1 (or 0 again) at 0xC000, CHR 0 and 1 at 0x0000/0x1000 when present; fails iff there is no PRG bank |
| Mappers.LoadRomFillsBothWindows | BeaNES/src/beanes/mappers/NESMapper.java:107-119 | after `loadROM` 0x8000-0xBFFF holds bank 0, 0xC000-0xFFFF the second (or only) bank, and lower memory is kept |
| Mappers.AoromSelectsBank | BeaNES/src/beanes/mappers/AOROMMapper.java:54-71 | with the offset of a write of v, address 0x8000 + k reads entry (v & 0xF) * 0x8000 + k of the PRG array |
| Mappers.AoromMapper.constructor | BeaNES/src/beanes/mappers/AOROMMapper.java:32-43 | the PRG array is the PRG banks laid end to end, offset 0 and no mirroring chosen |
| Mappers.CopyBanks | BeaNES/src/beanes/mappers/AOROMMapper.java:38-41 | the copy loop fills a new array with the banks laid end to end, each at its multiple of 0x4000 |
| Mappers.AoromMapper.Read | BeaNES/src/beanes/mappers/AOROMMapper.java:45-52 | below 0x8000 the base read; above, the window entry, faulting iff it lies outside the array |
| Mappers.AoromMapper.Write | BeaNES/src/beanes/mappers/AOROMMapper.java:54-71 | below 0x8000 the base write; above, the offset and mirroring change and the PPU is told the mirroring when it changes |
| Mappers.AoromMapper.ReadAfterSelect | BeaNES/src/beanes/mappers/AOROMMapper.java:45-71 | after selecting bank v, 0x8000 + k reads PRG byte (v & 0xF) * 0x8000 + k, or faults when that is outside the image |
| Mappers.GnromChrPairInRange | BeaNES/src/beanes/mappers/GNROMMapper.java:32-51 | the CHR bank chosen and the one after it both exist |
| Mappers.GnromMapper.constructor | BeaNES/src/beanes/mappers/GNROMMapper.java:28-30 | wraps the base mapper |
| Mappers.GnromMapper.Write | BeaNES/src/beanes/mappers/GNROMMapper.java:32-51 | below 0x8000 the base write; above, a PRG pair at 0x8000/0xC000 and a CHR pair at 0x0000/0x1000, each from the written bits modulo the bank count |
| Mappers.UniromMapper.constructor | BeaNES/src/beanes/mappers/UNIROMMapper.java:9-11 | wraps the base mapper |
| Mappers.UniromMapper.LoadRom | BeaNES/src/beanes/mappers/UNIROMMapper.java:13-16 | bank 0 at 0x8000 and the last bank at 0xC000; fails iff there is no PRG bank |
| Mappers.UniromMapper.Write | BeaNES/src/beanes/mappers/UNIROMMapper.java:18-26 | below 0x8000 the base write; above, PRG bank v at 0x8000, throwing (nothing changed) iff v is no bank |
| Mappers.UniromSwitchKeepsFixedBank | BeaNES/src/beanes/mappers/UNIROMMapper.java:18-26 | a bank switch replaces 0x8000-0xBFFF only, keeping the fixed bank at 0xC000 and everything below |
| PpuMirror.MirrorTable | BeaNES/src/beanes/PPU.java:93-152 | the table for a mode has 0x8000 entries, each `MirrorOf` |
| PpuMirror.NtMirror | BeaNES/src/beanes/PPU.java:107-152 | four name-table entries, each 0..3 |
| PpuMirror.MirrorInRange | BeaNES/src/beanes/PPU.java:93-152 | every entry of the table is an address of the 0x8000-cell memory |
| PpuMirror.UpperNameTablesSkipFolding | BeaNES/src/beanes/PPU.java:104-110 | under vertical mirroring 0x2800 resolves to 0x2000 but 0x3800 only to 0x2800 |
| PpuMirror.VerticalAliases | BeaNES/src/beanes/PPU.java:108-115 | vertical: 0x2800+i reads 0x2000+i and 0x2C00+i reads 0x2400+i; the first two are kept |
| PpuMirror.HorizontalAliases | BeaNES/src/beanes/PPU.java:117-124 | horizontal: 0x2400+i reads 0x2000+i and 0x2C00+i reads 0x2800+i; 0x2000 and 0x2800 are kept |
| PpuMirror.SingleScreenAliases | BeaNES/src/beanes/PPU.java:126-134 | single screen: every name table reads 0x2000+i |
| PpuMirror.SingleScreen2LeavesFirstTable | BeaNES/src/beanes/PPU.java:136-144 | second single-screen mode: tables 1-3 read 0x2400+i, table 0 keeps 0x2000+i, while `ntMirror` says table 1 |
| PpuMirror.PaletteWindows | BeaNES/src/beanes/PPU.java:99-102 | 0x3F20, 0x3F40, 0x3F80 and 0x3FC0 fold onto 0x3F00, while 0x3F60, 0x3FA0 and 0x3FE0 are left alone |
| PpuMirror.UpperHalfSkipsFolding | BeaNES/src/beanes/PPU.java:105 | 0x4000-0x7FFF resolves to the plain address 0x4000 lower |
| PpuPorts.PortWriteKeepsValid | BeaNES/src/beanes/PPU.java:551-638 | every port write keeps fine X in three bits and T below 0x8000 |
| PpuPorts.PortReadKeepsValid | BeaNES/src/beanes/PPU.java:505-548 | every port read keeps the same invariant |
| PpuPorts.ScrollPair | BeaNES/src/beanes/PPU.java:589-604 | two 0x2005 writes set coarse/fine X then coarse/fine Y in T, and restore the toggle |
| PpuPorts.AddressPair | BeaNES/src/beanes/PPU.java:608-619 | two 0x2006 writes set T and V to the 14-bit address and restore the toggle |
| PpuPorts.StatusRead | BeaNES/src/beanes/PPU.java:522-526 | reading 0x2002 returns the status, then clears bit 7 and resets the toggle |
| PpuPorts.VramReadBuffered | BeaNES/src/beanes/PPU.java:538-541 | reading 0x2007 returns the buffered byte, buffers the byte at V, and steps V |
| PpuPorts.SpriteAddressWraps | BeaNES/src/beanes/PPU.java:530-534 | 0x2004 reads and writes step the sprite address modulo 256 |
| PpuRegs.ControlT | BeaNES/src/beanes/PPU.java:555-558 | a 0x2000 write sets T bits 10-11 from the value's bits 0-1, keeps the rest |
| PpuRegs.ScrollXT | BeaNES/src/beanes/PPU.java:591-595 | the first 0x2005 write sets T bits 0-4 from the value's top five bits, keeps the rest |
| PpuRegs.ScrollYT | BeaNES/src/beanes/PPU.java:597-602 | the second 0x2005 write sets coarse Y and fine Y of T, keeps the rest |
| PpuRegs.AddressHighT | BeaNES/src/beanes/PPU.java:609-611 | the first 0x2006 write sets bits 8-13, clears 14-15, keeps the low byte |
| PpuRegs.AddressLowT | BeaNES/src/beanes/PPU.java:612-616 | the second 0x2006 write replaces T's low byte only |
| PpuRegs.AddressPairSetsT | BeaNES/src/beanes/PPU.java:608-619 | two 0x2006 writes give the low six bits of the first value as the high byte and the second value as the low byte, whatever T held before |
| PpuRegs.VramStep | BeaNES/src/beanes/PPU.java:641-655 | a 0x2007 access steps V by 1, or by 32 when bit 2 of control register 1 is set |
| PpuRegs.ReloadHorizontal | BeaNES/src/beanes/PPU.java:231-232 | before a line V takes exactly bits 0x41F from T |
| PpuRegs.ReloadSelf | BeaNES/src/beanes/PPU.java:185-189 | reloading T's horizontal bits into T changes nothing (the frame start copies all of T) |
| PpuRegs.NextLineKeepsHorizontal | BeaNES/src/beanes/PPU.java:242-271 | the end-of-line step never changes coarse X, the horizontal name-table bit or bit 15 |
| PpuRegs.NextLineInsideTile | BeaNES/src/beanes/PPU.java:269-271 | inside a tile the step increments fine Y and changes nothing else |
| PpuRegs.NextLineNextTileRow | BeaNES/src/beanes/PPU.java:242-265 | at the bottom of a tile fine Y wraps; coarse Y 29 wraps to 0 switching the vertical table, 31 wraps without switching, other rows step by one |
| PpuRegs.Position | BeaNES/src/beanes/PPU.java:166-224 | the counters stand at a position inside the 89683-cycle frame |
| PpuRegs.PositionInjective | BeaNES/src/beanes/PPU.java:166-224 | the position determines the counters |
| PpuRegs.TickAdvances | BeaNES/src/beanes/PPU.java:169-221 | one cycle keeps the counters valid and moves one step round the frame; it ends the frame iff it is the frame's last cycle |
| PpuRegs.ScanlineStatus | BeaNES/src/beanes/PPU.java:185-205 | a line end past the wait keeps status bits 0-5; scanline 0 clears bits 7 and 6, scanline 243 sets bit 7 and keeps bit 6, and other lines change nothing |
| PpuRegs.CycleStatus | BeaNES/src/beanes/PPU.java:169-221 | over one cycle, status bits 7 and 6 are cleared exactly at a frame start, bit 7 is set at a frame end, and no other cycle changes the status before drawing |
| PpuRegs.TicksAdvance | BeaNES/src/beanes/PPU.java:166-224 | n cycles move n steps round the frame |
| PpuRegs.FrameEndsCount | BeaNES/src/beanes/PPU.java:166-224 | the frame ends among n cycles are (position + n) / 89683 |
| PpuRegs.OneFrameEndPerFrame | BeaNES/src/beanes/PPU.java:202-213 | every 89683 cycles there is exactly one vertical blank |
| PpuRegs.FramePeriod | BeaNES/src/beanes/PPU.java:166-224 | after 263 lines of 341 cycles the counters are back where they were |
| PpuRegs.WholeFrames | BeaNES/src/beanes/PPU.java:166-224 | after any whole number of frames of cycles the counters are back where they were |
| PpuRender.PixelPattern | BeaNES/src/beanes/PPU.java:319 | a pixel's 2-bit pattern is 0 iff both plane bits are clear |
| PpuRender.CursorAtShape | BeaNES/src/beanes/PPU.java:283-375 | every name-table and attribute address of the tile loop stays inside its table, below 0x8000 |
| PpuRender.NextCursorMovesRight | BeaNES/src/beanes/PPU.java:345-359 | the cursor moves one tile right; after column 31 it wraps to the other horizontal name table |
| PpuRender.AttributeOf | BeaNES/src/beanes/PPU.java:297-307 | the attribute bits are a multiple of 4, at most 12 |
| PpuRender.AttributeAt | BeaNES/src/beanes/PPU.java:348-372 | the attribute in force at each tile is a multiple of 4, at most 12 |
| PpuRender.TileRowAddress | BeaNES/src/beanes/PPU.java:312 | a tile's pattern row lies below 0x2000 - 8, so both planes are pattern memory |
| PpuRender.LineTiles | BeaNES/src/beanes/PPU.java:310-314 | a line draws 33 tiles |
| PpuRender.ColorAddress | BeaNES/src/beanes/PPU.java:322 | background colours come from 0x3F00-0x3F1F, and from 0x3F10 iff the pattern is 0 |
| PpuRender.PixelAt | BeaNES/src/beanes/PPU.java:293-341 | column col shows pixel 7 - (col + fineX) % 8 of tile (col + fineX) / 8 |
| PpuRender.TileSolidAt | BeaNES/src/beanes/PPU.java:331-334 | a tile sets exactly the on-screen columns it covers, each to whether its pixel there is opaque |
| PpuRender.TileRasterAt | BeaNES/src/beanes/PPU.java:331-339 | a tile draws exactly the on-screen cells it covers, when the background is shown |
| PpuRender.LineSolidAt | BeaNES/src/beanes/PPU.java:308-342 | after k tiles the covered columns hold their pixel's solidity, the rest are as before |
| PpuRender.LineRasterAt | BeaNES/src/beanes/PPU.java:310-377 | after k tiles the covered cells hold their pixel's colour (when shown), the rest are as before |
| PpuRender.BackgroundSolidLine | BeaNES/src/beanes/PPU.java:277-381 | after `renderBackground` every column is solid iff the background pixel there is opaque |
| PpuRender.BackgroundRasterLine | BeaNES/src/beanes/PPU.java:277-381 | after `renderBackground` every cell of the line holds the background colour there, when shown |
| PpuRender.SpriteHeight | BeaNES/src/beanes/PPU.java:405 | sprites are 8 or 16 lines high |
| PpuRender.SpriteRow | BeaNES/src/beanes/PPU.java:425-429 | the sprite row drawn lies inside the sprite, flipped when bit 7 is set |
| PpuRender.SpritePatternAddress | BeaNES/src/beanes/PPU.java:434-457 | 8x8 and 8x16 sprite pattern rows lie below 0x2000 - 8 |
| PpuRender.SpritePattern | BeaNES/src/beanes/PPU.java:465-472 | a sprite pixel's pattern is 0..3 |
| PpuRender.SpritePixelsOkStep | BeaNES/src/beanes/PPU.java:467-474 | each pixel needs a colour lookup iff it is on screen |
| PpuRender.OnLineCount | BeaNES/src/beanes/PPU.java:428-432 | at most n of the first n sprites cover the line |
| PpuRender.SpriteStatus | BeaNES/src/beanes/PPU.java:407-480 | after sprites, bit 5 is set iff more than eight cover the line, bit 6 iff a sprite-0 hit happened or it was set, other bits kept |
| PpuRender.SpriteStatusBits | BeaNES/src/beanes/PPU.java:407-480 | setting bit 5 or 6, or clearing bit 5, moves between sprite statuses |
| PpuRender.SpriteRaster | BeaNES/src/beanes/PPU.java:461-491 | drawing a sprite keeps the raster's size |
| PpuRender.SpriteRasterStep | BeaNES/src/beanes/PPU.java:461-491 | each pixel changes only its own cell, to the sprite's colour when it paints there |
| PpuRender.SpriteRasterOffLine | BeaNES/src/beanes/PPU.java:428 | a sprite not covering the line draws nothing |
| PpuRender.SpriteRasterAt | BeaNES/src/beanes/PPU.java:461-491 | after a sprite, each cell holds the sprite's colour where it paints and its old value elsewhere |
| PpuRender.SpritesRasterAt | BeaNES/src/beanes/PPU.java:410-495 | after all sprites, each cell holds the colour of the last sprite that paints it |
| PpuRender.HiddenSpritesKeepColumn | BeaNES/src/beanes/PPU.java:485 | with sprites hidden no sprite changes a column |
| PpuRender.LineSolidBG | BeaNES/src/beanes/PPU.java:235 | the background flags are redrawn iff the background is shown |
| PpuRender.ScanlineRaster | BeaNES/src/beanes/PPU.java:229-274 | drawing a line keeps the raster's size |
| PpuRender.SpritesOverAt | BeaNES/src/beanes/PPU.java:236 | the sprite layer at a cell is the last painting sprite, or the cell under it |
| PpuRender.ScanlineAt | BeaNES/src/beanes/PPU.java:235-236 | a cell of the line is the sprite colour over the background colour over the old cell, each layer only when shown |
| Picture.Dma | BeaNES/src/beanes/PPU.java:627-636 | sprite DMA copies the page's entries from the sprite address to 0xFF and keeps the rest |
| Picture.WriteMirror | BeaNES/src/beanes/PPU.java:658-661 | entries src .. src + length - 1 point at dest .. dest + length - 1, all others kept |
| Picture.WriteCommonMirror | BeaNES/src/beanes/PPU.java:97-105 | the shared writes give `CommonMirror` everywhere |
| Picture.NewMirror | BeaNES/src/beanes/PPU.java:93-152 | a fresh table equal to `MirrorTable(mode)` |
| Picture.Ppu.constructor | BeaNES/src/beanes/PPU.java:74-86 | zeroed memories and registers, toggle on first write, and the tables of the cartridge's mode |
| Picture.Ppu.SetMirroringMode | BeaNES/src/beanes/PPU.java:88-153 | the tables become those of the mode, rebuilt only when the mode changes |
| Picture.Ppu.ReadVram | BeaNES/src/beanes/PPU.java:649-655 | the byte at V, then V steps; throws iff V is 0x8000 or more |
| Picture.Ppu.WriteVram | BeaNES/src/beanes/PPU.java:641-646 | the byte goes to the cell V resolves to, then V steps; throws iff V is 0x8000 or more |
| Picture.Ppu.ExternalRead | BeaNES/src/beanes/PPU.java:505-548 | value and registers as `PortRead`; throws iff a 0x2007 read finds V out of range |
| Picture.Ppu.SpriteDma | BeaNES/src/beanes/PPU.java:627-636 | sprite memory becomes `Dma` of the old |
| Picture.Ppu.ExternalWrite | BeaNES/src/beanes/PPU.java:551-638 | registers as `PortWrite`; 0x2004 and 0x4014 write sprite memory, 0x2007 video memory; throws iff 0x2007 finds V out of range |
| Picture.Ppu.PortMemoryWrite | BeaNES/src/beanes/PPU.java:581-636 | the memory side of `externalWrite` for 0x2004, 0x2007 and 0x4014 |
| Picture.Ppu.ClearLine | BeaNES/src/beanes/PPU.java:308 | every flag of the line buffer is cleared |
| Picture.Ppu.DrawTile | BeaNES/src/beanes/PPU.java:317-342 | one tile's eight pixels as `TileSolid` and `TileRaster`, failing iff a palette byte names no colour |
| Picture.Ppu.DrawPixel | BeaNES/src/beanes/PPU.java:317-342 | one more pixel of the tile |
| Picture.Ppu.FetchTile | BeaNES/src/beanes/PPU.java:312-314 | the pattern planes and attribute of tile k |
| Picture.Ppu.NextTile | BeaNES/src/beanes/PPU.java:345-372 | the cursor and attribute of tile k + 1 |
| Picture.Ppu.BackgroundTile | BeaNES/src/beanes/PPU.java:310-377 | tile k on top of tiles 0 .. k - 1 |
| Picture.Ppu.RenderBackground | BeaNES/src/beanes/PPU.java:277-381 | the background flags and raster of the line as `LineSolid` and `LineRaster`, failing iff a palette byte names no colour |
| Picture.Ppu.DrawTiles | BeaNES/src/beanes/PPU.java:310-377 | the 33-tile loop |
| Picture.Ppu.DrawSpritePixel | BeaNES/src/beanes/PPU.java:461-491 | one sprite pixel, with the sprite-0 hit test |
| Picture.Ppu.SpritePixelColor | BeaNES/src/beanes/PPU.java:472-474 | the pattern and palette byte of a sprite pixel |
| Picture.Ppu.PaintSpritePixel | BeaNES/src/beanes/PPU.java:485-489 | an opaque, shown, unhidden sprite pixel is drawn |
| Picture.Ppu.DrawSprite | BeaNES/src/beanes/PPU.java:434-491 | a sprite's row as `SpriteRaster`, reporting a sprite-0 hit iff `SpriteZeroHit` |
| Picture.Ppu.SpritePixels | BeaNES/src/beanes/PPU.java:461-491 | the eight pixels of a sprite |
| Picture.Ppu.SpriteStep | BeaNES/src/beanes/PPU.java:410-495 | sprite i on top of sprites 0 .. i - 1, with count and status |
| Picture.Ppu.CountSprite | BeaNES/src/beanes/PPU.java:432 | the ninth and every later sprite on the line set the overflow bit |
| Picture.Ppu.MarkHit | BeaNES/src/beanes/PPU.java:477-480 | a sprite-0 hit sets bit 6 |
| Picture.Ppu.RenderSprites | BeaNES/src/beanes/PPU.java:384-497 | raster as `SpritesRaster`, status bit 5 iff more than eight sprites cover the line, bit 6 on a sprite-0 hit |
| Picture.Ppu.DrawSprites | BeaNES/src/beanes/PPU.java:410-495 | the 64-sprite loop |
| Picture.Ppu.RenderScanline | BeaNES/src/beanes/PPU.java:229-274 | V reloaded from T, the line drawn as `ScanlineRaster`, then V stepped by `NextLine` |
| Picture.Ppu.DrawLine | BeaNES/src/beanes/PPU.java:235-236 | both layers of the line, each when shown |
| Picture.Ppu.BackgroundLayer | BeaNES/src/beanes/PPU.java:235 | the background drawn iff shown |
| Picture.Ppu.SpriteLayer | BeaNES/src/beanes/PPU.java:236 | the sprites drawn iff shown |
| Picture.Ppu.EndOfLine | BeaNES/src/beanes/PPU.java:173-217 | the line-end branch: counters as `LineEnd`, a frame handed over and an NMI when enabled at the frame end, vertical blank set then and cleared at the frame start; a drawn line leaves V on `NextLine` of the line start, `solidBGLine` and the raster as the line was drawn, and the sprite bits over `CycleStatus`; a line that is not drawn keeps V, raster and `solidBGLine` and changes status only as `CycleStatus` |
| Picture.Ppu.ActiveLine | BeaNES/src/beanes/PPU.java:182-216 | past the wait: the scanline steps (243 to 0), the wait restarts at the frame end; a drawn line leaves V on `NextLine` of the line start, the raster and `solidBGLine` as drawn and the sprite bits over `ScanlineStatus`; otherwise V and `solidBGLine` are kept and status moves only as `ScanlineStatus` |
| Picture.Ppu.VisibleLine | BeaNES/src/beanes/PPU.java:185-199 | on a visible line, the frame-start step on line 0 (V from T when shown, status bits 7 and 6 cleared), then the line drawn when shown: V on `NextLine` of the line start, raster and `solidBGLine` as drawn, sprite bits over the frame-start status; with nothing shown V, raster and `solidBGLine` are kept |
| Picture.Ppu.StartFrame | BeaNES/src/beanes/PPU.java:185-193 | V takes T when rendering is on, and status bits 7 and 6 are cleared |
| Picture.Ppu.EndFrame | BeaNES/src/beanes/PPU.java:202-213 | vertical blank set, the wait restarted, an NMI iff bit 7 of control register 1, one frame handed over |
| Picture.Ppu.Cycle | BeaNES/src/beanes/PPU.java:169-221 | one loop iteration: counters as `Tick`, one frame and NMI exactly at a frame end; at a line end that draws, V, raster, `solidBGLine` and status as `EndOfLine`; every other cycle keeps V, raster and `solidBGLine` and changes status only as `CycleStatus` (not at all mid-line) |
| Picture.Ppu.RunCycles | BeaNES/src/beanes/PPU.java:166-224 | returns the count given; the counters move as `Ticks`, and frames and NMIs counted by `FrameEnds`; with nothing shown no line is drawn, nothing fails, and V, raster and `solidBGLine` are kept |

## Left out

- Bus composition: the interpreter reads and writes a flat 64 KiB memory. `NESMapper.read`/`write` are modelled separately, so port side effects of CPU accesses are not composed. This includes the double operand read of ADC/SBC and reads of 0x2002/0x2007 or the joypads from an instruction.
- Cycle counting: the cycle table is modelled, but nothing uses the cycle counts (the interpreter reads them and never uses them).
- Console output (`System.out`) and the interpreter's debug counter are diagnostics only and are left out. The `System.exit(1)` of `NESMapper.write` for 0x2008-0x3FFF becomes the `Illegal` write target.
- `Clock.java`, `PAPU.java`, `GUI.java`, `VideoOutput.java` and the other sound channels are not part of this model. The PPU's calls into them (`requestIRQ(IRQ_NMI)`, `renderImage`, `signalVBlank`) are counted in `nmiRequests` and `framesShown`.
- JoypadInput.constructor: the saved key bindings read from the properties file are not modelled; the constructor always takes the default layout. `KeyEvent` becomes its key code.
- `CNROMMapper` is not part of this model; `SelectMapper` names it for mapper 3 only.
- Cartridge.Rom.Load: it does not call the chosen mapper's `loadROM`, and it does not model the exception `getMapperName` throws at `ROM.java:160` for mapper 92 (see Findings). File reading becomes the byte sequence of the file.
- Picture.Ppu.constructor: the Java object is created with a mirroring mode of -1 and gets its tables in `hardReset`; the model joins the two, so it needs a cartridge mode other than -1.
- Picture.Ppu.RunCycles: V, the status register and the raster after n cycles are stated per cycle (`Picture.Ppu.Cycle`) and per line, not as a closed function of n, except that with nothing shown V, raster and `solidBGLine` are kept.
- Picture.Ppu.ExternalWrite: the 256 bytes sprite DMA reads come in as a parameter (what the mapper's `read` returns at value * 0x100 onwards), not through the mapper.
- `rgbPalette` colours are integers; `VideoOutput` and the raster's display are left out.
- `getROMBank`, `getVROMBank`, `getMapper`, `getMirroringMode` and `ROM.write` are field accessors with no logic of their own.

## Findings

| source | as written | input that shows it | evidently intended | confidence | as-written member | corrected member |
|---|---|---|---|---|---|---|
| BeaNES/src/beanes/ROM.java:254-258 | the guard `mapperType > mapperNames.length` lets `mapperType == 92` through, so `mapperNames[92]` is read past the end of the 92-entry table and throws | an iNES header with byte 6 = 0xC0 and byte 7 = 0x50 (mapper 92) | `mapperType >= mapperNames.length`, so mapper 92 is "Unknown Mapper" | not executed | Cartridge.MapperNinetyTwoThrows | Cartridge.MapperNameCorrected |
