/**
 * The `CPU` object of the emulator: register and flag fields, the interrupt
 * latch, the joypad strobe counters and the 64 KiB bus, updated in place by
 * its methods. Each method is proved to do what the pure functions of
 * `CpuSpec` say, through the abstraction `State()`.
 */
module Processor {
  import opened Bytes
  import opened Opcodes
  import opened Alu
  import opened CpuSpec
  import Joypad

  /**
   * What the `readJoypadInput` read number `count` of controller `num` returns:
   * the eight buttons A, B, Select, Start, Up, Down, Left, Right, then a
   * signature bit pair in reads 18 and 19 that tells the two pads apart, and 0
   * for every other read.
   */
  function StrobeBit(count: int, num: int, states: seq<int>): int
    requires |states| == 8
  {
    if 0 <= count < 8 then states[count]
    else if count == 18 then (if num == 0 then 0 else 1)
    else if count == 19 then (if num == 0 then 1 else 0)
    else 0
  }

  /** The 24 reads of one strobe cycle, from read number `from` on. */
  function StrobeReport(from: nat, num: int, states: seq<int>): seq<int>
    requires |states| == 8 && from <= 24
    decreases 24 - from
  {
    if from == 24 then [] else [StrobeBit(from, num, states)] + StrobeReport(from + 1, num, states)
  }

  /**
   * One strobe cycle reports the eight button states, ten zeros, the
   * signature pair (0, 1) for the first pad and (1, 0) for the second, and
   * four zeros.
   */
  lemma StrobeCycle(num: int, states: seq<int>)
    requires |states| == 8
    ensures StrobeReport(0, num, states) ==
      states + seq(10, _ => 0) + (if num == 0 then [0, 1] else [1, 0]) + seq(4, _ => 0)
  {
    ReportSuffix(0, num, states, states + seq(10, _ => 0) + (if num == 0 then [0, 1] else [1, 0]) + seq(4, _ => 0));
  }

  lemma {:induction false} ReportSuffix(i: nat, num: int, states: seq<int>, want: seq<int>)
    requires |states| == 8 && i <= 24
    requires want == states + seq(10, _ => 0) + (if num == 0 then [0, 1] else [1, 0]) + seq(4, _ => 0)
    ensures StrobeReport(i, num, states) == want[i..]
    decreases 24 - i
  {
    if i < 24 {
      ReportSuffix(i + 1, num, states, want);
      assert want[i..] == [want[i]] + want[i + 1..];
    }
  }

  class Cpu {
    /** `cpuMemory`, the bus as the interpreter sees it. */
    const mem: array<Byte>

    var regAcc: Byte
    var regX: Byte
    var regY: Byte
    var regPC: Pc
    var regSP: StackPtr
    /** The eight flag fields `flagCarry` .. `flagSign`, kept together. */
    var flags: Flags

    var irqRequested: bool
    var irqRequestType: IrqKind

    /** `joypadsStrobeCount` and `joypadLastWrite`, one entry per controller. */
    var strobeCount: seq<int>
    var lastWrite: seq<int>

    /** `numInstructionsRan` */
    var instructionsRan: nat

    ghost predicate Valid()
      reads this
    {
      && mem.Length == 0x10000
      && |strobeCount| == 2 && |lastWrite| == 2
      && 0 <= strobeCount[0] < 24 && 0 <= strobeCount[1] < 24
    }

    /** The interpreter state the pure model works on. */
    ghost function State(): Machine
      reads this, mem
      requires Valid()
    {
      Machine(regAcc, regX, regY, regPC, regSP, flags, irqRequested, irqRequestType, mem[..])
    }

    /** `new CPU()`: a zeroed bus, then `hardReset`. */
    constructor ()
      ensures Valid() && fresh(mem)
      ensures State() == CpuSpec.HardReset(Machine(0, 0, 0, 0, 0x100, Flags(false, false, false, false, false, false, false, false),
                                                   false, IrqNormal, seq(0x10000, _ => 0)))
      ensures strobeCount == [0, 0] && lastWrite == [-1, -1] && instructionsRan == 0
    {
      mem := new Byte[0x10000](_ => 0);
      regAcc, regX, regY, regPC, regSP := 0, 0, 0, 0, 0x100;
      flags := Flags(false, false, false, false, false, false, false, false);
      irqRequested, irqRequestType := false, IrqNormal;
      strobeCount, lastWrite, instructionsRan := [0, 0], [0, 0], 0;
      new;
      assert mem[..] == seq(0x10000, _ => 0);
      HardReset();
    }

    /** `reset`: power-on registers and flags, then a reset request through the latch. */
    method Reset()
      requires Valid()
      modifies this`regAcc, this`regX, this`regY, this`regPC, this`regSP, this`flags
      modifies this`irqRequested, this`irqRequestType
      ensures State() == CpuSpec.Reset(old(State()))
    {
      ghost var m := State();
      regAcc, regX, regY := 0, 0, 0;
      regPC := 0xC000;
      regSP := 0x01FF;
      flags := PowerOnFlags;
      assert State() == m.(a := 0, x := 0, y := 0, pc := 0xC000, sp := 0x1FF, f := PowerOnFlags);
      RequestIrq(IrqReset);
    }

    /** `hardReset`: clear the counters, the strobe state and the latch, then `reset`. */
    method HardReset()
      requires Valid()
      modifies this
      ensures Valid()
      ensures strobeCount == [0, 0] && lastWrite == [-1, -1] && instructionsRan == 0
      ensures State() == CpuSpec.HardReset(old(State()))
    {
      instructionsRan := 0;
      strobeCount := [0, 0];
      lastWrite := [-1, -1];
      irqRequestType := IrqNormal;
      irqRequested := false;
      Reset();
    }

    /** `getFlags`: the seven-bit flag layout without break. */
    method GetFlags() returns (r: int)
      ensures r == Alu.GetFlags(flags)
    {
      r := Alu.GetFlags(flags);
    }

    /** `requestIRQ` */
    method RequestIrq(kind: IrqKind)
      requires Valid()
      modifies this`irqRequested, this`irqRequestType
      ensures State() == CpuSpec.RequestIrq(old(State()), kind)
    {
      if irqRequested && irqRequestType == IrqNormal {
        return;
      }
      irqRequested := true;
      irqRequestType := kind;
    }

    /** `push` */
    method Push(v: Byte)
      requires Valid()
      modifies this`regSP, mem
      ensures State() == CpuSpec.Push(old(State()), v)
    {
      mem[regSP] := v;
      var sp: int := regSP - 1;
      regSP := StackWrap(sp);
    }

    /** `pull` */
    method Pull() returns (v: Byte)
      requires Valid()
      modifies this`regSP
      ensures (State(), v) == CpuSpec.Pull(old(State()))
    {
      var sp: int := regSP + 1;
      regSP := StackWrap(sp);
      v := mem[regSP];
    }

    /** Pulls a little-endian address, low byte first. */
    method PullAddress() returns (w: Word)
      requires Valid()
      modifies this`regSP
      ensures (State(), w) == CpuSpec.PullAddress(old(State()))
    {
      var lo := Pull();
      var hi := Pull();
      w := Word16(lo, hi);
    }

    /** Pushes a return address, high byte first. */
    method PushReturn(ret: int)
      requires Valid()
      modifies this`regSP, mem
      ensures State() == CpuSpec.PushReturn(old(State()), ret)
    {
      Push(Low8(ret / 0x100));
      Push(Low8(ret));
    }

    /** The three pushes of a taken IRQ or NMI: PC high, PC low, then the status byte. */
    method PushFrame()
      requires Valid() && regPC < 0x10000
      modifies this`regSP, mem
      ensures State() == CpuSpec.PushFrame(old(State()))
    {
      PushReturn(regPC);
      Push(Pack(flags));
    }

    /** The `switch` of `processIRQ` on the kind of the pending request. */
    method ServeIrq()
      requires Valid() && regPC < 0x10000
      modifies this`regSP, this`regPC, this`flags, mem
      ensures State() == CpuSpec.ServeIrq(old(State()))
    {
      match irqRequestType {
      case IrqNormal =>
        if !flags.interrupt {
          PushFrame();
          flags := flags.(interrupt := true, brk := false);
          regPC := Word16(mem[0xFFFE], mem[0xFFFF]);
        }
      case IrqNmi =>
        PushFrame();
        regPC := Word16(mem[0xFFFA], mem[0xFFFB]);
      case IrqReset =>
        regPC := Word16(mem[0xFFFC], mem[0xFFFD]);
      }
    }

    /** `processIRQ`: serve a pending request, then clear the latch. */
    method ProcessIrq()
      requires Valid() && regPC < 0x10000
      modifies this`regSP, this`regPC, this`flags, this`irqRequested, mem
      ensures State() == CpuSpec.ProcessIrq(old(State()))
    {
      if irqRequested {
        ServeIrq();
        irqRequested := false;
      }
    }

    /**
     * The `switch` of `processAddressingMode`: the effective address, with the
     * operand bytes read at PC. `None` where the source reads past the end of
     * memory and throws.
     */
    method AddressOf(mode: Mode) returns (address: Option<Word>)
      requires Valid() && regPC < 0x10000
      ensures address == OperandAddress(State(), mode)
    {
      if OperandBytes(mode) == 2 {
        address := TwoByteAddress(mode);
      } else if OperandBytes(mode) == 1 {
        address := OneByteAddress(mode);
      } else if mode == Accumulator {
        address := Some(regAcc as Word);
      } else {
        address := Some(0);
      }
    }

    /** The 16-bit operand at PC, low byte first; `None` where its high byte would lie past 0xFFFF. */
    method OperandWord() returns (w: Option<Word>)
      requires Valid() && regPC < 0x10000
      ensures w == AbsoluteOperand(State())
    {
      if regPC + 1 < 0x10000 {
        w := Some(Word16(mem[regPC], mem[regPC + 1]));
      } else {
        w := None;
      }
    }

    /** The cases of `processAddressingMode` with a 16-bit operand. */
    method TwoByteAddress(mode: Mode) returns (address: Option<Word>)
      requires Valid() && regPC < 0x10000 && OperandBytes(mode) == 2
      ensures address == OperandAddress(State(), mode)
    {
      var op := OperandWord();
      if op.None? {
        return None;
      }
      var w := op.value;
      match mode {
      case Absolute =>
        address := op;
      case AbsoluteX =>
        address := Some(Low16(w + regX));
      case AbsoluteY =>
        address := Some(Low16(w + regY));
      case Indirect =>
        if w == 0xFFFF {
          return None;
        }
        address := Some(Word16(mem[w], mem[w + 1]));
      }
    }

    /** The cases of `processAddressingMode` with an 8-bit operand. */
    method OneByteAddress(mode: Mode) returns (address: Option<Word>)
      requires Valid() && regPC < 0x10000 && OperandBytes(mode) == 1
      ensures address == OperandAddress(State(), mode)
    {
      var pc := regPC;
      match mode {
      case ZeroPage =>
        address := Some(mem[pc]);
      case ZeroPageX =>
        address := Some(Low8(mem[pc] + regX));
      case ZeroPageY =>
        address := Some(Low8(mem[pc] + regY));
      case Immediate =>
        address := Some(pc);
      case IndirectX =>
        var p := Low8(regX + mem[pc]);
        address := Some(Word16(mem[p], mem[p + 1]));
      case IndirectY =>
        var p := mem[pc];
        address := Some(Low16(Word16(mem[p], mem[p + 1]) + regY));
      case Relative =>
        var off: int := mem[pc];
        var next := Low16(pc + 1);
        address := Some(Low16(if off < 0x80 then next + off else next + (off - 0x100)));
      }
    }

    /**
     * `processAddressingMode`: the effective address, with PC moved past the
     * operand bytes. `ok` is false where the source reads past the end of
     * memory and throws; then nothing has changed.
     */
    method ProcessAddressingMode(mode: Mode) returns (ok: bool, address: Word)
      requires Valid() && regPC < 0x10000
      modifies this`regPC
      ensures ok == Fetch(old(State()), mode).Operand?
      ensures ok ==> address == Fetch(old(State()), mode).address && State() == Fetch(old(State()), mode).next
      ensures !ok ==> regPC == old(regPC)
    {
      var a := AddressOf(mode);
      if a.None? {
        return false, 0;
      }
      address := a.value;
      regPC := Low16(regPC + OperandBytes(mode));
      ok := true;
    }

    /** ADC, SBC, AND, ORA, EOR, the compares and BIT: the result goes to A and the flags. */
    method Arithmetic(o: Mnemonic, address: Word)
      requires Valid() && IsArithmetic(o)
      modifies this`regAcc, this`flags
      ensures State() == CpuSpec.Arithmetic(old(State()), o, address)
    {
      var r := ArithmeticOut(o, regAcc, regX, regY, mem[address], flags);
      regAcc := r.value;
      flags := r.flags;
    }

    /** ASL, LSR, ROL, ROR (on A in accumulator mode, else on memory), INC and DEC. */
    method ReadModifyWrite(o: Mnemonic, mode: Mode, address: Word)
      requires Valid() && IsReadModifyWrite(o)
      modifies this`regAcc, this`flags, mem
      ensures State() == CpuSpec.ReadModifyWrite(old(State()), o, mode, address)
    {
      if OnAccumulator(o, mode) {
        var r := ReadModifyWriteOut(o, regAcc, flags);
        flags := r.flags;
        regAcc := r.value;
      } else {
        ModifyMemory(o, address);
      }
    }

    /** A read-modify-write instruction on the byte at `address`. */
    method ModifyMemory(o: Mnemonic, address: Word)
      requires Valid() && IsReadModifyWrite(o)
      modifies this`flags, mem
      ensures var m := old(State()); var r := ReadModifyWriteOut(o, m.mem[address], m.f);
        State() == m.(mem := m.mem[address := r.value], f := r.flags)
    {
      var r := ReadModifyWriteOut(o, mem[address], flags);
      flags := r.flags;
      Write(address, r.value);
    }

    /** `write`: one byte onto the bus. */
    method Write(address: Word, v: Byte)
      requires Valid()
      modifies mem
      ensures State() == old(State()).(mem := old(State()).mem[address := v])
    {
      mem[address] := v;
    }

    /** Loads, stores, transfers, and the increments and decrements of X and Y. */
    method RegisterOp(o: Mnemonic, address: Word)
      requires Valid() && IsRegisterOp(o)
      modifies this`regAcc, this`regX, this`regY, this`regSP, this`flags, mem
      ensures State() == CpuSpec.RegisterOp(old(State()), o, address)
    {
      if IsStore(o) {
        Write(address, Stored(o, regAcc, regX, regY));
      } else if o == TXS {
        regSP := regX + 0x100;
      } else {
        Load(o, address);
      }
    }

    /** The loads, the transfers other than TXS, and the increments and decrements of X and Y. */
    method Load(o: Mnemonic, address: Word)
      requires Valid() && IsRegisterOp(o) && !IsStore(o) && o != TXS
      modifies this`regAcc, this`regX, this`regY, this`flags
      ensures State() == CpuSpec.RegisterOp(old(State()), o, address)
    {
      var t := Loaded(o, regAcc, regX, regY, regSP, mem[address]);
      flags := SetSignZero(flags, t);
      match Target(o) {
      case RegA => regAcc := t;
      case RegX => regX := t;
      case RegY => regY := t;
      }
    }

    /** CLC, SEC, CLI, SEI, CLV, CLD and SED. */
    method FlagOp(o: Mnemonic)
      requires Valid() && IsFlagOp(o)
      modifies this`flags
      ensures State() == CpuSpec.FlagOp(old(State()), o)
    {
      flags := FlagOut(o, flags);
    }

    /** PHA, PLA, PHP and PLP. */
    method StackOp(o: Mnemonic)
      requires Valid() && IsStackOp(o)
      modifies this`regAcc, this`regSP, this`flags, mem
      ensures State() == CpuSpec.StackOp(old(State()), o)
    {
      match o
      case PHA =>
        Push(regAcc);
      case PLA =>
        var t := Pull();
        flags := SetSignZero(flags, t);
        regAcc := t;
      case PHP =>
        flags := flags.(brk := true);
        Push(Pack(flags));
      case PLP =>
        var t := Pull();
        flags := Unpack(t);
    }

    /** JMP, JSR, RTS, RTI and BRK. */
    method Control(o: Mnemonic, address: Word)
      requires Valid() && regPC < 0x10000 && IsControl(o)
      modifies this`regPC, this`regSP, this`flags, mem
      ensures State() == CpuSpec.Control(old(State()), o, address)
    {
      match o
      case JMP => regPC := address;
      case JSR => Jsr(address);
      case RTS => Rts();
      case RTI => Rti();
      case BRK => Brk();
    }

    /** JSR: push the address of the operand's last byte, high byte first, then jump. */
    method Jsr(address: Word)
      requires Valid() && regPC < 0x10000
      modifies this`regPC, this`regSP, mem
      ensures State() == CpuSpec.Jsr(old(State()), address)
    {
      PushReturn(regPC - 1);
      regPC := address;
    }

    /** RTS: pull the return address and continue one past it. */
    method Rts()
      requires Valid() && regPC < 0x10000
      modifies this`regPC, this`regSP
      ensures State() == CpuSpec.Rts(old(State()))
    {
      var w: int := PullAddress();
      regPC := w + 1;
    }

    /** RTI: pull the status byte, then the return address. */
    method Rti()
      requires Valid() && regPC < 0x10000
      modifies this`regPC, this`regSP, this`flags
      ensures State() == CpuSpec.Rti(old(State()))
    {
      var p := Pull();
      flags := Unpack(p);
      var w := PullAddress();
      regPC := w;
    }

    /** BRK: push PC + 1 and the status byte with break set, set I, and jump through 0xFFFE/0xFFFF. */
    method Brk()
      requires Valid() && regPC < 0x10000
      modifies this`regPC, this`regSP, this`flags, mem
      ensures State() == CpuSpec.Brk(old(State()))
    {
      PushReturn(regPC + 1);
      flags := flags.(brk := true);
      Push(Pack(flags));
      flags := flags.(interrupt := true);
      regPC := Word16(mem[0xFFFE], mem[0xFFFF]);
    }

    /** The semantics switch of `processNextInstruction` for one decoded opcode. */
    method Execute(op: Option<Mnemonic>, mode: Mode, address: Word)
      requires Valid() && regPC < 0x10000
      modifies this`regAcc, this`regX, this`regY, this`regPC, this`regSP, this`flags, mem
      ensures State() == CpuSpec.Execute(old(State()), op, mode, address)
    {
      if op.None? {
        return;
      }
      var o := op.value;
      if IsBranch(o) {
        if BranchTaken(o, flags) {
          regPC := address;
        }
      } else if IsArithmetic(o) {
        Arithmetic(o, address);
      } else if IsReadModifyWrite(o) {
        ReadModifyWrite(o, mode, address);
      } else if IsRegisterOp(o) {
        RegisterOp(o, address);
      } else if IsFlagOp(o) {
        FlagOp(o);
      } else if IsStackOp(o) {
        StackOp(o);
      } else if IsControl(o) {
        Control(o, address);
      }
    }

    /**
     * `processNextInstruction`: mask PC, service a pending interrupt, then run
     * the instruction at PC and return its table size. `ok` is false where the
     * source throws on a read past the end of memory.
     */
    method ProcessNextInstruction() returns (ok: bool, size: nat)
      requires Valid()
      modifies this, mem
      ensures Valid()
      ensures ok == Step(old(State())).Stepped?
      ensures ok ==> State() == Step(old(State())).next && size == Step(old(State())).size
      ensures strobeCount == old(strobeCount) && lastWrite == old(lastWrite)
      ensures instructionsRan == old(instructionsRan) + (if ok then 1 else 0)
    {
      regPC := Low16(regPC);
      ProcessIrq();
      ok, size := RunInstruction();
      if ok {
        instructionsRan := instructionsRan + 1;
      }
    }

    /** Read the opcode at PC and run it: the table lookups, then `Run`. */
    method RunInstruction() returns (ok: bool, size: nat)
      requires Valid() && regPC < 0x10000
      modifies this`regAcc, this`regX, this`regY, this`regPC, this`regSP, this`flags, mem
      ensures ok == CpuSpec.RunInstruction(old(State())).Stepped?
      ensures ok ==> State() == CpuSpec.RunInstruction(old(State())).next && size == CpuSpec.RunInstruction(old(State())).size
    {
      Decoded(State());
      var opcode := mem[regPC];
      ok, size := Run(Decode(opcode), ModeTable(opcode), SizeTable(opcode));
    }

    /** Step PC past the opcode, fetch the operand, execute; `size` is returned as given. */
    method Run(op: Option<Mnemonic>, mode: Mode, size: nat) returns (ok: bool, sizeOut: nat)
      requires Valid() && regPC < 0x10000
      modifies this`regAcc, this`regX, this`regY, this`regPC, this`regSP, this`flags, mem
      ensures ok == CpuSpec.Run(old(State()), op, mode, size).Stepped?
      ensures ok ==> State() == CpuSpec.Run(old(State()), op, mode, size).next && sizeOut == size
    {
      ghost var m0 := State();
      sizeOut := size;
      regPC := Low16(regPC + 1);
      var address;
      ok, address := ProcessAddressingMode(mode);
      RunStepped(m0, op, mode, size);
      if !ok {
        return;
      }
      RunFetched(m0, op, mode, size, address, State());
      Execute(op, mode, address);
    }

    /** `writeJoypadInput`: writing 0 right after a 1 restarts both strobe counts. */
    method WriteJoypadInput(num: int, value: int)
      requires Valid()
      modifies this
      ensures Valid()
      ensures strobeCount == if value == 0 && old(lastWrite[0]) == 1 then [0, 0] else old(strobeCount)
      ensures lastWrite == old(lastWrite)[0 := value]
      ensures State() == old(State()) && instructionsRan == old(instructionsRan)
    {
      if value == 0 && lastWrite[0] == 1 {
        strobeCount := [0, 0];
      }
      lastWrite := lastWrite[0 := value];
    }

    /** `readJoypadInput`: report the bit for the current read number, then count the read modulo 24. */
    method ReadJoypadInput(num: int, pad: Joypad.JoypadInput) returns (value: int)
      requires Valid() && pad.Valid()
      requires num == 0 || num == 1
      modifies this
      ensures Valid()
      ensures value == StrobeBit(old(strobeCount[num]), num, pad.buttonStates[..])
      ensures strobeCount == old(strobeCount)[num := (old(strobeCount[num]) + 1) % 24]
      ensures State() == old(State()) && lastWrite == old(lastWrite) && instructionsRan == old(instructionsRan)
    {
      var count := strobeCount[num];
      if count < 8 {
        value := pad.GetButtonState(count);
      } else if count == 18 {
        value := if num == 0 then 0 else 1;
      } else if count == 19 {
        value := if num == 0 then 1 else 0;
      } else {
        value := 0;
      }
      var next := count + 1;
      if next == 24 {
        next := 0;
      }
      strobeCount := strobeCount[num := next];
    }
  }
}
