/**
 * The 6502 interpreter of `CPU.java` as pure functions over a machine state:
 * the stack, the interrupt latch, the thirteen addressing modes, the semantics
 * switch of `processNextInstruction`, and one whole instruction step. The
 * imperative `Cpu` class is proved against these functions.
 *
 * Memory is the CPU's bus seen as a flat, side-effect-free 64 KiB array; the
 * address decoding of the mapper is modelled on its own in the `Mapper` module.
 */
module CpuSpec {
  import opened Bytes
  import opened Opcodes
  import opened Alu

  /** `IRQ_NORMAL` (0), `IRQ_NMI` (1) and `IRQ_RESET` (2). */
  datatype IrqKind = IrqNormal | IrqNmi | IrqReset

  /** `regSP` always addresses page one, `((sp) & 0xFF) | 0x100`. */
  type StackPtr = x: int | 0x100 <= x < 0x200 witness 0x100

  /**
   * `regPC` between instructions. RTS can leave it at 0x10000, which the next
   * `processNextInstruction` masks away.
   */
  type Pc = x: int | 0 <= x <= 0x10000

  type Memory = s: seq<Byte> | |s| == 0x10000 witness seq(0x10000, i => 0)

  datatype Machine = Machine(
    a: Byte, x: Byte, y: Byte, pc: Pc, sp: StackPtr, f: Flags,
    irqRequested: bool, irqType: IrqKind, mem: Memory)

  // ---------------------------------------------------------------- stack

  /** `(s & 0xFF) | 0x100` */
  function StackWrap(s: int): StackPtr
  {
    s % 0x100 + 0x100
  }

  /** `push`: write at SP, then step SP down within page one. */
  function Push(m: Machine, v: Byte): Machine
  {
    m.(mem := m.mem[m.sp := v], sp := StackWrap(m.sp - 1))
  }

  /** `pull`: step SP up within page one, then read at SP. */
  function Pull(m: Machine): (Machine, Byte)
  {
    var sp := StackWrap(m.sp + 1);
    (m.(sp := sp), m.mem[sp])
  }

  /** A pull right after a push returns the pushed byte and restores SP. */
  lemma PullAfterPush(m: Machine, v: Byte)
    ensures Pull(Push(m, v)) == (m.(mem := m.mem[m.sp := v]), v)
  {
  }

  /** Pushes `vs[0]` first. */
  function PushAll(m: Machine, vs: seq<Byte>): Machine
    decreases |vs|
  {
    if vs == [] then m else PushAll(Push(m, vs[0]), vs[1..])
  }

  /** Pulls `n` bytes and returns them in the order they were pulled. */
  function PullN(m: Machine, n: nat): (Machine, seq<Byte>)
    decreases n
  {
    if n == 0 then (m, [])
    else
      var (m1, v) := Pull(m);
      var (m2, rest) := PullN(m1, n - 1);
      (m2, [v] + rest)
  }

  lemma StackWrapIdentity(s: StackPtr)
    ensures StackWrap(s) == s
  {
  }

  lemma StackWrapShift(s: int, k: int)
    ensures StackWrap(StackWrap(s) + k) == StackWrap(s + k)
  {
  }

  /** How many pushes below `sp` the page-one cell `a` lies. */
  function StackDepth(sp: int, a: int): int
  {
    (sp - a) % 0x100
  }

  lemma StackDepthAfterPush(sp: StackPtr, a: int)
    requires 0x100 <= a < 0x200
    ensures StackDepth(StackWrap(sp - 1), a) == if a == sp then 0xFF else StackDepth(sp, a) - 1
  {
  }

  /** Pulling `n` bytes moves SP up by `n` within page one and returns `n` bytes. */
  lemma {:induction false} PullNState(m: Machine, n: nat)
    ensures PullN(m, n).0 == m.(sp := StackWrap(m.sp + n))
    ensures |PullN(m, n).1| == n
    decreases n
  {
    if n > 0 {
      var (m1, v) := Pull(m);
      PullNState(m1, n - 1);
      StackWrapShift(m.sp + 1, n - 1);
    }
  }

  /** The `i`-th of `n` pulled bytes is the cell `i + 1` above SP, wrapping within page one. */
  lemma {:induction false} PullNAt(m: Machine, n: nat, i: nat)
    requires i < n
    ensures |PullN(m, n).1| == n
    ensures PullN(m, n).1[i] == m.mem[StackWrap(m.sp + 1 + i)]
    decreases n
  {
    PullNState(m, n);
    var (m1, v) := Pull(m);
    if i > 0 {
      PullNAt(m1, n - 1, i - 1);
      StackWrapShift(m.sp + 1, i);
    }
  }

  /** Pushing moves SP down by the number of bytes pushed and changes no register. */
  lemma {:induction false} PushAllRegisters(m: Machine, vs: seq<Byte>)
    ensures PushAll(m, vs) == m.(mem := PushAll(m, vs).mem, sp := StackWrap(m.sp - |vs|))
    decreases |vs|
  {
    if vs != [] {
      PushAllRegisters(Push(m, vs[0]), vs[1..]);
      StackWrapShift(m.sp - 1, -(|vs| - 1));
    }
  }

  /**
   * Pushing up to 256 bytes stores `vs[d]` in the page-one cell `d` pushes
   * below the old SP and changes no other cell.
   */
  lemma {:induction false} PushAllCell(m: Machine, vs: seq<Byte>, a: Word)
    requires |vs| <= 0x100
    ensures PushAll(m, vs).mem[a] ==
      if 0x100 <= a < 0x200 && StackDepth(m.sp, a) < |vs| then vs[StackDepth(m.sp, a)] else m.mem[a]
    decreases |vs|
  {
    if vs != [] {
      PushAllCell(Push(m, vs[0]), vs[1..], a);
      if 0x100 <= a < 0x200 {
        StackDepthAfterPush(m.sp, a);
      }
    }
  }

  lemma StackDepthOfPulled(sp: StackPtr, n: nat, i: nat)
    requires i < n <= 0x100
    ensures StackDepth(sp, StackWrap(StackWrap(sp - n) + 1 + i)) == n - 1 - i
  {
    StackWrapShift(sp - n, 1 + i);
  }

  /** The `i`-th cell above SP after pushing `vs` holds `vs[|vs| - 1 - i]`. */
  lemma PushedCellAboveSp(m: Machine, vs: seq<Byte>, i: nat)
    requires i < |vs| <= 0x100
    ensures PushAll(m, vs).mem[StackWrap(PushAll(m, vs).sp + 1 + i)] == vs[|vs| - 1 - i]
  {
    PushAllRegisters(m, vs);
    StackDepthOfPulled(m.sp, |vs|, i);
    PushAllCell(m, vs, StackWrap(PushAll(m, vs).sp + 1 + i));
  }

  /**
   * The stack is last in, first out: after pushing up to 256 bytes, pulling as
   * many returns them in reverse order and restores SP.
   */
  lemma PullAllAfterPushAll(m: Machine, vs: seq<Byte>)
    requires |vs| <= 0x100
    ensures |PullN(PushAll(m, vs), |vs|).1| == |vs|
    ensures forall i :: 0 <= i < |vs| ==> PullN(PushAll(m, vs), |vs|).1[i] == vs[|vs| - 1 - i]
    ensures PullN(PushAll(m, vs), |vs|).0 == PushAll(m, vs).(sp := m.sp)
  {
    PulledSp(m, vs);
    forall i | 0 <= i < |vs|
      ensures PullN(PushAll(m, vs), |vs|).1[i] == vs[|vs| - 1 - i]
    {
      PullNAt(PushAll(m, vs), |vs|, i);
      PushedCellAboveSp(m, vs, i);
    }
  }

  lemma PulledSp(m: Machine, vs: seq<Byte>)
    ensures PullN(PushAll(m, vs), |vs|).0 == PushAll(m, vs).(sp := m.sp)
    ensures |PullN(PushAll(m, vs), |vs|).1| == |vs|
  {
    var p := PushAll(m, vs);
    PushAllRegisters(m, vs);
    PullNState(p, |vs|);
    StackWrapShift(m.sp - |vs|, |vs|);
    StackWrapIdentity(m.sp);
  }

  // ---------------------------------------------------------------- interrupts

  /** `requestIRQ`: ignored while a normal IRQ is pending, otherwise it replaces the request. */
  function RequestIrq(m: Machine, kind: IrqKind): (r: Machine)
    ensures r.irqRequested
    ensures r.(irqRequested := m.irqRequested, irqType := m.irqType) == m
  {
    if m.irqRequested && m.irqType == IrqNormal then m
    else m.(irqRequested := true, irqType := kind)
  }

  function RequestAll(m: Machine, kinds: seq<IrqKind>): Machine
    decreases |kinds|
  {
    if kinds == [] then m else RequestAll(RequestIrq(m, kinds[0]), kinds[1..])
  }

  /**
   * Once a normal IRQ is pending, every later request, an NMI or a reset
   * included, is dropped. With none pending, the last request wins unless a
   * normal one came before it.
   */
  lemma {:induction false} PendingNormalIrqBlocks(m: Machine, kinds: seq<IrqKind>)
    requires m.irqRequested && m.irqType == IrqNormal
    ensures RequestAll(m, kinds) == m
    decreases |kinds|
  {
    if kinds != [] {
      PendingNormalIrqBlocks(RequestIrq(m, kinds[0]), kinds[1..]);
    }
  }

  lemma {:induction false} LastRequestWins(m: Machine, kinds: seq<IrqKind>)
    requires kinds != [] && IrqNormal !in kinds[..|kinds| - 1]
    requires !(m.irqRequested && m.irqType == IrqNormal)
    ensures RequestAll(m, kinds).irqRequested
    ensures RequestAll(m, kinds).irqType == kinds[|kinds| - 1]
    decreases |kinds|
  {
    if |kinds| > 1 {
      assert kinds[1..][..|kinds[1..]| - 1] == kinds[1..|kinds| - 1];
      LastRequestWins(RequestIrq(m, kinds[0]), kinds[1..]);
    }
  }

  /** The vector at `a`, `read(a) | ((read(a + 1) << 8) & 0xFF00)`. */
  function Vector(mem: Memory, a: int): Word
    requires 0 <= a < 0xFFFF
  {
    Word16(mem[a], mem[a + 1])
  }

  /** Pushes a return address, high byte first. */
  function PushReturn(m: Machine, ret: int): Machine
  {
    Push(Push(m, Low8(ret / 0x100)), Low8(ret))
  }

  /** Pushes the return address and the status byte, as a taken IRQ or NMI does. */
  function PushFrame(m: Machine): Machine
  {
    Push(PushReturn(m, m.pc), Pack(m.f))
  }

  /** The `switch` of `processIRQ` on the kind of a pending request. */
  function ServeIrq(m: Machine): Machine
    requires m.pc < 0x10000
  {
    match m.irqType
    case IrqNormal =>
      if m.f.interrupt then m
      else
        var m1 := PushFrame(m);
        m1.(f := m1.f.(interrupt := true, brk := false), pc := Vector(m1.mem, 0xFFFE))
    case IrqNmi =>
      var m1 := PushFrame(m);
      m1.(pc := Vector(m1.mem, 0xFFFA))
    case IrqReset =>
      m.(pc := Vector(m.mem, 0xFFFC))
  }

  /** `processIRQ`, entered with `regPC` already masked to 16 bits. */
  function ProcessIrq(m: Machine): (r: Machine)
    requires m.pc < 0x10000
    ensures r.pc < 0x10000
    ensures !r.irqRequested
    ensures !m.irqRequested ==> r == m
    // a normal IRQ with I = 1 is discarded, not deferred
    ensures m.irqRequested && m.irqType == IrqNormal && m.f.interrupt ==> r == m.(irqRequested := false)
    // reset pushes nothing and jumps through 0xFFFC/0xFFFD
    ensures m.irqRequested && m.irqType == IrqReset ==>
      r == m.(irqRequested := false, pc := Word16(m.mem[0xFFFC], m.mem[0xFFFD]))
    // NMI and an enabled IRQ push PC and status and jump through their vector
    ensures m.irqRequested && (m.irqType == IrqNmi || (m.irqType == IrqNormal && !m.f.interrupt)) ==>
      && r.sp == StackWrap(m.sp - 3)
      && r.mem[m.sp] == Low8(m.pc / 0x100)
      && r.mem[StackWrap(m.sp - 1)] == Low8(m.pc)
      && r.mem[StackWrap(m.sp - 2)] == Pack(m.f)
      && r.pc == (if m.irqType == IrqNmi then Word16(m.mem[0xFFFA], m.mem[0xFFFB])
                  else Word16(m.mem[0xFFFE], m.mem[0xFFFF]))
      && r.f == (if m.irqType == IrqNmi then m.f else m.f.(interrupt := true, brk := false))
      // A, X, Y and the request kind are kept, and only the three frame cells are written
      && r == m.(irqRequested := false, sp := r.sp, mem := r.mem, pc := r.pc, f := r.f)
      && r.mem == m.mem[m.sp := Low8(m.pc / 0x100)][StackWrap(m.sp - 1) := Low8(m.pc)][StackWrap(m.sp - 2) := Pack(m.f)]
  {
    if !m.irqRequested then m
    else
      PushFrameLayout(m);
      ServeIrq(m).(irqRequested := false)
  }

  /** The flags `reset` sets: only interrupt disable and the unused bit are 1. */
  const PowerOnFlags := Flags(false, false, true, false, false, true, false, false)

  /** `reset`: registers and flags to their power-on values, then a reset request. */
  function Reset(m: Machine): Machine
  {
    RequestIrq(m.(a := 0, x := 0, y := 0, pc := 0xC000, sp := 0x1FF, f := PowerOnFlags), IrqReset)
  }

  /** `hardReset`: clear the interrupt latch, then `reset`. */
  function HardReset(m: Machine): Machine
  {
    Reset(m.(irqRequested := false, irqType := IrqNormal))
  }

  /** After a hard reset the next step enters the reset vector at 0xFFFC/0xFFFD, with nothing pushed. */
  lemma HardResetEntersResetVector(m: Machine)
    ensures ProcessIrq(HardReset(m)) ==
      m.(a := 0, x := 0, y := 0, sp := 0x1FF, f := PowerOnFlags, irqRequested := false,
         irqType := IrqReset, pc := Word16(m.mem[0xFFFC], m.mem[0xFFFD]))
  {
  }

  /**
   * A reset while a normal IRQ is pending is dropped by the latch, and the IRQ
   * is then discarded because reset sets I: execution goes on at 0xC000
   * instead of the reset vector.
   */
  lemma ResetLostBehindPendingIrq(m: Machine)
    requires m.irqRequested && m.irqType == IrqNormal
    ensures ProcessIrq(Reset(m)) ==
      m.(a := 0, x := 0, y := 0, sp := 0x1FF, f := PowerOnFlags, irqRequested := false, pc := 0xC000)
  {
  }

  // ---------------------------------------------------------------- addressing

  /** The effective address and the machine with PC past the operand, or a read past 0xFFFF. */
  datatype Operand = Operand(address: Word, next: Machine) | BusFault

  predicate IsZeroPageMode(mode: Mode)
  {
    mode == ZeroPage || mode == ZeroPageX || mode == ZeroPageY
  }

  /** The 16-bit operand at PC of the absolute modes; `None` when it would be read past 0xFFFF. */
  function AbsoluteOperand(m: Machine): Option<Word>
    requires m.pc < 0x10000
  {
    if m.pc + 1 < 0x10000 then Some(Word16(m.mem[m.pc], m.mem[m.pc + 1])) else None
  }

  /**
   * The effective address `processAddressingMode` computes for `mode` with PC
   * at the operand; `None` where it reads past 0xFFFF and throws. That happens
   * only for the two-byte operands at PC = 0xFFFF and for an indirect address
   * of 0xFFFF.
   */
  function OperandAddress(m: Machine, mode: Mode): Option<Word>
    requires m.pc < 0x10000
  {
    var pc1 := Low16(m.pc + 1);
    match mode
    case Absolute => AbsoluteOperand(m)
    case ZeroPage => Some(m.mem[m.pc])
    case ZeroPageX => Some(Low8(m.mem[m.pc] + m.x))
    case ZeroPageY => Some(Low8(m.mem[m.pc] + m.y))
    case AbsoluteX =>
      (match AbsoluteOperand(m)
       case None => None
       case Some(w) => Some(Low16(w + m.x)))
    case AbsoluteY =>
      (match AbsoluteOperand(m)
       case None => None
       case Some(w) => Some(Low16(w + m.y)))
    case Implied => Some(0)
    case Accumulator => Some(m.a)
    case Immediate => Some(m.pc)
    case Indirect =>
      (match AbsoluteOperand(m)
       case None => None
       case Some(p) => if p == 0xFFFF then None else Some(Word16(m.mem[p], m.mem[p + 1])))
    case IndirectX =>
      var p := Low8(m.x + m.mem[m.pc]);
      Some(Word16(m.mem[p], m.mem[p + 1]))
    case IndirectY =>
      var p := m.mem[m.pc];
      Some(Low16(Word16(m.mem[p], m.mem[p + 1]) + m.y))
    case Relative =>
      var off: int := m.mem[m.pc];
      Some(Low16(if off < 0x80 then pc1 + off else pc1 + (off - 0x100)))
  }

  /** `processAddressingMode`: the effective address and the machine with PC past the operand. */
  function Fetch(m: Machine, mode: Mode): (r: Operand)
    requires m.pc < 0x10000
    ensures r.Operand? ==> r.next == m.(pc := r.next.pc) && r.next.pc == (m.pc + OperandBytes(mode)) % 0x10000
  {
    match OperandAddress(m, mode)
    case None => BusFault
    case Some(a) => Operand(a, m.(pc := Low16(m.pc + OperandBytes(mode))))
  }

  /**
   * A fetch fails only for a two-byte operand at PC = 0xFFFF or an
   * indirect address of 0xFFFF; a zero-page mode always yields a page-zero address.
   */
  lemma FetchFaults(m: Machine, mode: Mode)
    requires m.pc < 0x10000
    ensures Fetch(m, mode).BusFault? <==>
      (OperandBytes(mode) == 2 && m.pc == 0xFFFF)
      || (mode == Indirect && m.pc < 0xFFFF && Word16(m.mem[m.pc], m.mem[m.pc + 1]) == 0xFFFF)
    ensures Fetch(m, mode).Operand? && IsZeroPageMode(mode) ==> Fetch(m, mode).address < 0x100
  {
  }

  /** A relative operand is a signed displacement from the byte after it. */
  lemma RelativeTarget(m: Machine)
    requires m.pc < 0x10000
    ensures Fetch(m, Relative).Operand?
    ensures Fetch(m, Relative).address == (m.pc + 1 + Signed(m.mem[m.pc])) % 0x10000
  {
  }

  // ---------------------------------------------------------------- execution

  /** Pulls a little-endian return address, low byte first. */
  function PullAddress(m: Machine): (Machine, Word)
  {
    var (m1, lo) := Pull(m);
    var (m2, hi) := Pull(m1);
    (m2, Word16(lo, hi))
  }

  /** Whether a branch mnemonic's condition holds for the flags. */
  function BranchTaken(b: Mnemonic, f: Flags): bool
    requires IsBranch(b)
  {
    match b
    case BMI => f.sign
    case BPL => !f.sign
    case BVS => f.overflow
    case BVC => !f.overflow
    case BCS => f.carry
    case BCC => !f.carry
    case BEQ => f.zero
    case BNE => !f.zero
  }

  predicate IsArithmetic(o: Mnemonic)
  {
    match o
    case ADC | SBC | AND | ORA | EOR | CMP | CPX | CPY | BIT => true
    case _ => false
  }

  predicate IsReadModifyWrite(o: Mnemonic)
  {
    match o
    case ASL | LSR | ROL | ROR | INC | DEC => true
    case _ => false
  }

  predicate IsRegisterOp(o: Mnemonic)
  {
    match o
    case LDA | LDX | LDY | STA | STX | STY | TAX | TXA | TAY | TYA | TSX | TXS | INX | INY | DEX | DEY => true
    case _ => false
  }

  predicate IsFlagOp(o: Mnemonic)
  {
    match o
    case CLC | SEC | CLI | SEI | CLV | CLD | SED => true
    case _ => false
  }

  predicate IsStackOp(o: Mnemonic)
  {
    match o
    case PHA | PLA | PHP | PLP => true
    case _ => false
  }

  predicate IsControl(o: Mnemonic)
  {
    match o
    case JMP | JSR | RTS | RTI | BRK => true
    case _ => false
  }

  /** The value left in A and the flags after ADC .. BIT with operand `v`; the compares and BIT leave A as it is. */
  function ArithmeticOut(o: Mnemonic, a: Byte, x: Byte, y: Byte, v: Byte, f: Flags): (r: AluOut)
    requires IsArithmetic(o)
    ensures o in {CMP, CPX, CPY, BIT} ==> r.value == a
  {
    match o
    case ADC => Adc(a, v, f)
    case SBC => Sbc(a, v, f)
    case AND => var t := And8(v, a); AluOut(t, SetSignZero(f, t))
    case ORA => var t := Or8(a, v); AluOut(t, SetSignZero(f, t))
    case EOR => var t := Xor8(v, a); AluOut(t, SetSignZero(f, t))
    case CMP => AluOut(a, Compare(a, v, f))
    case CPX => AluOut(a, Compare(x, v, f))
    case CPY => AluOut(a, Compare(y, v, f))
    case BIT => AluOut(a, f.(sign := v >= 0x80, overflow := BitAt(v, 6), zero := And8(v, a) == 0))
    case _ => assert false; AluOut(a, f)
  }

  /** ADC, SBC, the logic operations, the compares and BIT: only A and the flags change. */
  function Arithmetic(m: Machine, o: Mnemonic, address: Word): (r: Machine)
    requires IsArithmetic(o)
    ensures r == m.(a := r.a, f := r.f)
    ensures o in {CMP, CPX, CPY, BIT} ==> r.a == m.a
  {
    var r := ArithmeticOut(o, m.a, m.x, m.y, m.mem[address], m.f);
    m.(a := r.value, f := r.flags)
  }

  /** The byte and flags a shift, rotate, INC or DEC produces from the byte `t`. */
  function ReadModifyWriteOut(o: Mnemonic, t: Byte, f: Flags): AluOut
    requires IsReadModifyWrite(o)
  {
    match o
    case ASL => Asl(t, f)
    case LSR => Lsr(t, f)
    case ROL => Rol(t, f)
    case ROR => Ror(t, f)
    case INC => var r := Low8(t as int + 1); AluOut(r, SetSignZero(f, r))
    case DEC => var r := Low8(t as int - 1); AluOut(r, SetSignZero(f, r))
    case _ => assert false; AluOut(t, f)
  }

  /** A shift or rotate in accumulator mode works on A; INC, DEC and every other mode on memory. */
  predicate OnAccumulator(o: Mnemonic, mode: Mode)
  {
    mode == Accumulator && o != INC && o != DEC
  }

  /**
   * The shifts, rotates, INC and DEC: the operand (for the shifts and rotates A
   * in accumulator mode, else the byte at the address) is replaced and the
   * flags set; nothing else changes.
   */
  function ReadModifyWrite(m: Machine, o: Mnemonic, mode: Mode, address: Word): (r: Machine)
    requires IsReadModifyWrite(o)
    ensures r == m.(a := r.a, mem := r.mem, f := r.f)
    ensures mode == Accumulator && o !in {INC, DEC} ==> r.mem == m.mem
    ensures mode != Accumulator || o in {INC, DEC} ==> r.a == m.a && r.mem == m.mem[address := r.mem[address]]
  {
    if OnAccumulator(o, mode) then
      var r := ReadModifyWriteOut(o, m.a, m.f);
      m.(a := r.value, f := r.flags)
    else
      var r := ReadModifyWriteOut(o, m.mem[address], m.f);
      m.(mem := m.mem[address := r.value], f := r.flags)
  }

  /** The three registers a load, transfer, increment or decrement can write. */
  datatype Register = RegA | RegX | RegY

  predicate IsStore(o: Mnemonic)
  {
    o == STA || o == STX || o == STY
  }

  /** The register STA, STX or STY stores. */
  function Stored(o: Mnemonic, a: Byte, x: Byte, y: Byte): Byte
  {
    if o == STA then a else if o == STX then x else y
  }

  /** The register a load, transfer (other than TXS), increment or decrement writes. */
  function Target(o: Mnemonic): Register
  {
    match o
    case LDA | TXA | TYA => RegA
    case LDX | TAX | TSX | INX | DEX => RegX
    case _ => RegY
  }

  /** The byte a load, transfer (other than TXS), increment or decrement writes, from operand `v`. */
  function Loaded(o: Mnemonic, a: Byte, x: Byte, y: Byte, sp: StackPtr, v: Byte): Byte
  {
    match o
    case LDA | LDX | LDY => v
    case TAX | TAY => a
    case TXA => x
    case TYA => y
    case TSX => sp - 0x100
    case INX => Low8(x + 1)
    case DEX => Low8(x - 1)
    case INY => Low8(y + 1)
    case DEY => Low8(y - 1)
    case _ => v
  }

  /** Loads, stores, transfers, increments and decrements of X and Y; PC and the latch are untouched. */
  function RegisterOp(m: Machine, o: Mnemonic, address: Word): (r: Machine)
    requires IsRegisterOp(o)
    ensures r == m.(a := r.a, x := r.x, y := r.y, sp := r.sp, f := r.f, mem := r.mem)
    ensures o != TXS ==> r.sp == m.sp
    ensures o !in {STA, STX, STY} ==> r.mem == m.mem
  {
    if IsStore(o) then m.(mem := m.mem[address := Stored(o, m.a, m.x, m.y)])
    else if o == TXS then m.(sp := m.x + 0x100)
    else
      var t := Loaded(o, m.a, m.x, m.y, m.sp, m.mem[address]);
      var f := SetSignZero(m.f, t);
      match Target(o)
      case RegA => m.(a := t, f := f)
      case RegX => m.(x := t, f := f)
      case RegY => m.(y := t, f := f)
  }

  /** The flags after CLC, SEC, CLI, SEI, CLV, CLD or SED: one flag set or cleared. */
  function FlagOut(o: Mnemonic, f: Flags): Flags
    requires IsFlagOp(o)
  {
    match o
    case CLC => f.(carry := false)
    case SEC => f.(carry := true)
    case CLI => f.(interrupt := false)
    case SEI => f.(interrupt := true)
    case CLV => f.(overflow := false)
    case CLD => f.(decimal := false)
    case SED => f.(decimal := true)
    case _ => assert false; f
  }

  /** CLC, SEC, CLI, SEI, CLV, CLD and SED each set one flag and change nothing else. */
  function FlagOp(m: Machine, o: Mnemonic): (r: Machine)
    requires IsFlagOp(o)
    ensures r == m.(f := r.f)
  {
    m.(f := FlagOut(o, m.f))
  }

  /**
   * PHA, PLA, PHP and PLP. PHP sets the live break flag before pushing the
   * status byte; PLP loads all eight flags from the pulled byte.
   */
  function StackOp(m: Machine, o: Mnemonic): (r: Machine)
    requires IsStackOp(o)
    ensures r.pc == m.pc && r.irqRequested == m.irqRequested && r.irqType == m.irqType
    ensures r.x == m.x && r.y == m.y
  {
    match o
    case PHA => Push(m, m.a)
    case PLA => var (m1, t) := Pull(m); m1.(a := t, f := SetSignZero(m1.f, t))
    case PHP => var f1 := m.f.(brk := true); Push(m.(f := f1), Pack(f1))
    case PLP => var (m1, p) := Pull(m); m1.(f := Unpack(p))
    case _ => assert false; m
  }

  /** The register a load, transfer, X/Y step, PLA or logic operation leaves its result in. */
  function Written(r: Machine, o: Mnemonic): Byte
  {
    match o
    case LDX | TAX | TSX | INX | DEX => r.x
    case LDY | TAY | INY | DEY => r.y
    case _ => r.a
  }

  /**
   * Every load, every transfer other than TXS and every X/Y step writes the
   * loaded byte, sets sign exactly when that byte is 0x80 or more and zero
   * exactly when it is 0, and keeps the other six flags.
   */
  lemma LoadSetsSignZero(m: Machine, o: Mnemonic, address: Word)
    requires IsRegisterOp(o) && !IsStore(o) && o != TXS
    ensures var r := RegisterOp(m, o, address);
      && Written(r, o) == Loaded(o, m.a, m.x, m.y, m.sp, m.mem[address])
      && (r.f.sign <==> Written(r, o) >= 0x80)
      && (r.f.zero <==> Written(r, o) == 0)
      && r.f.(sign := m.f.sign, zero := m.f.zero) == m.f
  {
  }

  /**
   * AND, ORA and EOR leave the bitwise result in A, set sign exactly when it
   * is 0x80 or more and zero exactly when it is 0, and keep the other flags.
   */
  lemma LogicSetsSignZero(m: Machine, o: Mnemonic, address: Word)
    requires o in {AND, ORA, EOR}
    ensures var r := Arithmetic(m, o, address);
      && r.a == (if o == AND then And8(m.mem[address], m.a) else if o == ORA then Or8(m.a, m.mem[address]) else Xor8(m.mem[address], m.a))
      && (r.f.sign <==> r.a >= 0x80)
      && (r.f.zero <==> r.a == 0)
      && r.f.(sign := m.f.sign, zero := m.f.zero) == m.f
  {
  }

  /**
   * PLA moves SP up one, loads A with the byte found there, sets sign exactly
   * when it is 0x80 or more and zero exactly when it is 0, and keeps the
   * other flags.
   */
  lemma PlaSetsSignZero(m: Machine)
    ensures var r := StackOp(m, PLA);
      && r.sp == StackWrap(m.sp + 1)
      && r.a == m.mem[StackWrap(m.sp + 1)]
      && (r.f.sign <==> r.a >= 0x80)
      && (r.f.zero <==> r.a == 0)
      && r.f.(sign := m.f.sign, zero := m.f.zero) == m.f
  {
  }

  /** JSR: push the address of the operand's last byte, high byte first, then jump. */
  function Jsr(m: Machine, address: Word): Machine
    requires m.pc < 0x10000
  {
    PushReturn(m, m.pc - 1).(pc := address)
  }

  /** RTS: pull the return address and continue one past it. */
  function Rts(m: Machine): Machine
  {
    var (m1, w) := PullAddress(m);
    m1.(pc := w + 1)
  }

  /** RTI: pull the status byte into the flags, then pull the return address. */
  function Rti(m: Machine): Machine
  {
    var (m1, p) := Pull(m);
    var (m2, w) := PullAddress(m1.(f := Unpack(p)));
    m2.(pc := w)
  }

  /** BRK: push PC + 1 and the status byte with break set, set I, and jump through 0xFFFE/0xFFFF. */
  function Brk(m: Machine): Machine
    requires m.pc < 0x10000
  {
    var m1 := PushReturn(m, m.pc + 1);
    var f1 := m1.f.(brk := true);
    var m2 := Push(m1.(f := f1), Pack(f1));
    m2.(f := f1.(interrupt := true), pc := Vector(m2.mem, 0xFFFE))
  }

  /** JMP, JSR, RTS, RTI and BRK: the instructions that load PC. */
  function Control(m: Machine, o: Mnemonic, address: Word): Machine
    requires m.pc < 0x10000
    requires IsControl(o)
  {
    match o
    case JMP => m.(pc := address)
    case JSR => Jsr(m, address)
    case RTS => Rts(m)
    case RTI => Rti(m)
    case BRK => Brk(m)
    case _ => assert false; m
  }

  /**
   * The semantics switch of `processNextInstruction` for one decoded opcode,
   * after the operand has been fetched. `None` is the illegal-opcode branch,
   * which changes nothing.
   */
  function Execute(m: Machine, op: Option<Mnemonic>, mode: Mode, address: Word): Machine
    requires m.pc < 0x10000
  {
    if op.None? then m
    else
      var o := op.value;
      if IsBranch(o) then (if BranchTaken(o, m.f) then m.(pc := address) else m)
      else if IsArithmetic(o) then Arithmetic(m, o, address)
      else if IsReadModifyWrite(o) then ReadModifyWrite(m, o, mode, address)
      else if IsRegisterOp(o) then RegisterOp(m, o, address)
      else if IsFlagOp(o) then FlagOp(m, o)
      else if IsStackOp(o) then StackOp(m, o)
      else if IsControl(o) then Control(m, o, address)
      else m
  }

  /** The outcome of `processNextInstruction`: the new state and the returned size, or a fault. */
  datatype StepResult = Stepped(next: Machine, size: nat) | Crashed

  /**
   * The part of `processNextInstruction` after interrupt handling: fetch the
   * opcode at PC, advance PC, fetch the operand, execute, and return
   * `opcodeSizes[op]`.
   */
  function RunInstruction(m: Machine): StepResult
    requires m.pc < 0x10000
  {
    var op := m.mem[m.pc];
    Run(m, Decode(op), ModeTable(op), SizeTable(op))
  }

  /** A step once the opcode is decoded: fetch the operand, then execute. */
  function Run(m: Machine, op: Option<Mnemonic>, mode: Mode, size: nat): StepResult
    requires m.pc < 0x10000
  {
    Complete(Fetch(m.(pc := Low16(m.pc + 1)), mode), op, mode, size)
  }

  /** Execute the decoded opcode on the fetched operand, or crash with the fetch. */
  function Complete(fetched: Operand, op: Option<Mnemonic>, mode: Mode, size: nat): StepResult
    requires fetched.Operand? ==> fetched.next.pc < 0x10000
  {
    match fetched
    case BusFault => Crashed
    case Operand(address, m1) => Stepped(Execute(m1, op, mode, address), size)
  }

  /** `processNextInstruction`: mask PC, service a pending interrupt, then run one instruction. */
  function Step(m: Machine): StepResult
  {
    RunInstruction(ProcessIrq(m.(pc := Low16(m.pc))))
  }

  // ---------------------------------------------------------------- properties of a step

  /** No interrupt pending, PC already 16 bits: the state a step starts from in the lemmas below. */
  predicate Quiet(m: Machine)
  {
    !m.irqRequested && m.pc < 0x10000
  }

  /** With nothing pending and PC already 16 bits, a step is just the instruction at PC. */
  lemma QuietStep(m: Machine)
    requires Quiet(m)
    ensures Step(m) == RunInstruction(m)
  {
    assert m.(pc := Low16(m.pc)) == m;
  }

  /**
   * An opcode whose execution never writes PC: everything except the branches,
   * jumps, subroutine calls and returns, and BRK.
   */
  predicate StraightLine(op: Option<Mnemonic>)
  {
    op.None? || !(IsBranch(op.value) || IsControl(op.value))
  }

  /** The address after the opcode at `pc` and the operand bytes of `mode`, wrapping at 0x10000. */
  function PastOperand(pc: int, mode: Mode): Word
  {
    (pc + 1 + OperandBytes(mode)) % 0x10000
  }

  /** A straight-line instruction advances PC past its opcode and operand bytes. */
  lemma StraightLineAdvancesPc(m: Machine)
    requires m.pc < 0x10000
    requires StraightLine(Decode(m.mem[m.pc]))
    requires RunInstruction(m).Stepped?
    ensures RunInstruction(m).next.pc == PastOperand(m.pc, ModeTable(m.mem[m.pc]))
  {
    var op := m.mem[m.pc];
    var mode := ModeTable(op);
    Decoded(m);
    RunStepped(m, Decode(op), mode, SizeTable(op));
    assert Fetch(m.(pc := Low16(m.pc + 1)), mode).Operand?;
    RunAdvancesPc(m, Decode(op), mode, SizeTable(op));
  }

  /** A step looks its opcode up in the three tables and runs what it finds. */
  lemma Decoded(m: Machine)
    requires m.pc < 0x10000
    ensures RunInstruction(m) == Run(m, Decode(m.mem[m.pc]), ModeTable(m.mem[m.pc]), SizeTable(m.mem[m.pc]))
  {
  }

  /** A step crashes exactly when its operand fetch does. */
  lemma RunStepped(m: Machine, op: Option<Mnemonic>, mode: Mode, size: nat)
    requires m.pc < 0x10000
    ensures Run(m, op, mode, size).Stepped? <==> Fetch(m.(pc := Low16(m.pc + 1)), mode).Operand?
  {
  }

  lemma RunAdvancesPc(m: Machine, op: Option<Mnemonic>, mode: Mode, size: nat)
    requires m.pc < 0x10000
    requires StraightLine(op)
    requires Fetch(m.(pc := Low16(m.pc + 1)), mode).Operand?
    ensures Run(m, op, mode, size).Stepped?
    ensures Run(m, op, mode, size).next.pc == PastOperand(m.pc, mode)
  {
    var fetched := Fetch(m.(pc := Low16(m.pc + 1)), mode);
    FetchAdvancesPc(m, mode);
    RunFetched(m, op, mode, size, fetched.address, fetched.next);
    ExecuteKeepsPc(fetched.next, op, mode, fetched.address);
  }

  lemma FetchAdvancesPc(m: Machine, mode: Mode)
    requires m.pc < 0x10000
    requires Fetch(m.(pc := Low16(m.pc + 1)), mode).Operand?
    ensures Fetch(m.(pc := Low16(m.pc + 1)), mode).next.pc == PastOperand(m.pc, mode)
  {
    PcAdvance(m.pc, OperandBytes(mode));
  }

  /** An opcode the interpreter does not decode is executed as a two-byte no-op of size 0. */
  lemma IllegalOpcodeStep(m: Machine)
    requires m.pc < 0x10000 && Decode(m.mem[m.pc]).None?
    ensures RunInstruction(m).Stepped?
    ensures RunInstruction(m).next == m.(pc := (m.pc + 2) % 0x10000)
    ensures RunInstruction(m).size == 0
  {
    var op := m.mem[m.pc];
    IllegalOpcode(op);
    var next := m.(pc := Low16(m.pc + 1));
    var fetched := Fetch(next, ZeroPage);
    assert fetched == Operand(m.mem[next.pc], next.(pc := Low16(next.pc + 1)));
    RunFetched(m, Decode(m.mem[m.pc]), ModeTable(m.mem[m.pc]), SizeTable(m.mem[m.pc]), fetched.address, fetched.next);
  }

  /**
   * The size a step returns is the instruction's length in bytes for every
   * legal opcode except JMP indirect (0x6C) and PLP (0x28), whose size entries
   * are never assigned, and 0 for an illegal one.
   */
  lemma StepSizeIsLength(m: Machine)
    requires m.pc < 0x10000
    requires RunInstruction(m).Stepped?
    ensures Decode(m.mem[m.pc]).Some? && m.mem[m.pc] !in {0x6C, 0x28} ==>
      RunInstruction(m).size == 1 + OperandBytes(ModeTable(m.mem[m.pc]))
    ensures m.mem[m.pc] in {0x6C, 0x28} ==> RunInstruction(m).size == 0
    ensures Decode(m.mem[m.pc]).None? ==> RunInstruction(m).size == 0
  {
    var op := m.mem[m.pc];
    assert RunInstruction(m).size == SizeTable(op);
    if op in {0x6C, 0x28} {
      UnassignedEntries();
    }
    if Decode(op).Some? && op !in {0x6C, 0x28} {
      SizeAgreesWithMode(op);
    }
    if Decode(op).None? {
      IllegalOpcode(op);
    }
  }

  lemma PcAdvance(pc: int, k: nat)
    requires 0 <= pc < 0x10000
    ensures (Low16(pc + 1) + k) % 0x10000 == (pc + 1 + k) % 0x10000
  {
  }

  /** Only the branches and the control instructions load PC. */
  lemma ExecuteKeepsPc(m: Machine, op: Option<Mnemonic>, mode: Mode, address: Word)
    requires m.pc < 0x10000
    requires StraightLine(op)
    ensures Execute(m, op, mode, address).pc == m.pc
  {
  }

  /**
   * A branch at PC continues at PC + 2, or, when its condition holds, at
   * PC + 2 plus the signed offset byte, modulo 0x10000; nothing else changes.
   */
  lemma BranchStep(m: Machine)
    requires m.pc + 1 < 0x10000
    requires Decode(m.mem[m.pc]).Some? && IsBranch(Decode(m.mem[m.pc]).value)
    ensures RunInstruction(m).Stepped?
    ensures RunInstruction(m).next == m.(pc := RunInstruction(m).next.pc)
    ensures RunInstruction(m).next.pc ==
      if BranchTaken(Decode(m.mem[m.pc]).value, m.f)
      then (m.pc + 2 + Signed(m.mem[m.pc + 1])) % 0x10000
      else (m.pc + 2) % 0x10000
  {
    var after := m.(pc := (m.pc + 2) % 0x10000);
    var target := (m.pc + 2 + Signed(m.mem[m.pc + 1])) % 0x10000;
    BranchFetch(m);
    ExecuteBranch(after, Decode(m.mem[m.pc]).value, target);
  }

  /** A branch opcode fetches its relative operand and moves PC past it. */
  lemma BranchFetch(m: Machine)
    requires m.pc + 1 < 0x10000
    requires Decode(m.mem[m.pc]).Some? && IsBranch(Decode(m.mem[m.pc]).value)
    ensures RunInstruction(m) == Stepped(
      Execute(m.(pc := (m.pc + 2) % 0x10000), Decode(m.mem[m.pc]), Relative,
              (m.pc + 2 + Signed(m.mem[m.pc + 1])) % 0x10000),
      SizeTable(m.mem[m.pc]))
  {
    var op := m.mem[m.pc];
    Decoded(m);
    BranchesAreRelative(op);
    BranchOperand(m);
    RunFetched(m, Decode(op), Relative, SizeTable(op),
      (m.pc + 2 + Signed(m.mem[m.pc + 1])) % 0x10000, m.(pc := (m.pc + 2) % 0x10000));
  }

  lemma BranchOperand(m: Machine)
    requires m.pc + 1 < 0x10000
    ensures Fetch(m.(pc := Low16(m.pc + 1)), Relative) ==
      Operand((m.pc + 2 + Signed(m.mem[m.pc + 1])) % 0x10000, m.(pc := (m.pc + 2) % 0x10000))
  {
    var next := m.(pc := Low16(m.pc + 1));
    assert next.pc == m.pc + 1;
    RelativeTarget(next);
  }

  lemma ExecuteBranch(m: Machine, b: Mnemonic, address: Word)
    requires m.pc < 0x10000 && IsBranch(b)
    ensures Execute(m, Some(b), Relative, address) == if BranchTaken(b, m.f) then m.(pc := address) else m
  {
  }

  /**
   * JSR then RTS: when the subroutine's first instruction is RTS, the two steps
   * resume at the byte after the three-byte JSR with SP restored.
   */
  lemma JsrThenRts(m: Machine)
    requires Quiet(m) && m.pc + 3 < 0x10000
    requires m.mem[m.pc] == 0x20
    ensures var called := Step(m);
      called.Stepped? && called.next.pc < 0x10000 &&
      (called.next.mem[called.next.pc] == 0x60 ==>
         Step(called.next).Stepped? && Step(called.next).next.pc == m.pc + 3
         && Step(called.next).next.sp == m.sp)
  {
    QuietStep(m);
    JsrStep(m);
    var m1 := RunInstruction(m).next;
    if m1.mem[m1.pc] == 0x60 {
      QuietStep(m1);
      RtsStep(m1);
      var ret := m.pc + 2;
      PullAddressAfterPushes(m.(pc := m.pc + 3), Low8(ret / 0x100), Low8(ret), m1.pc);
      Word16Split(ret);
    }
  }

  /** Two pushes then a 16-bit pull: the address comes back, low byte first, and SP is restored. */
  lemma PullAddressAfterPushes(m: Machine, hi: Byte, lo: Byte, pc: Pc)
    ensures PullAddress(Push(Push(m, hi), lo).(pc := pc)).1 == Word16(lo, hi)
    ensures PullAddress(Push(Push(m, hi), lo).(pc := pc)).0.sp == m.sp
  {
    var m1 := Push(m, hi);
    var m2 := Push(m1, lo);
    StackBelow(m.sp);
    StackBelow(m1.sp);
    assert m2.mem[m1.sp] == lo && m2.mem[m.sp] == hi;
    var (m3, lo') := Pull(m2.(pc := pc));
    assert m3.sp == m1.sp && lo' == lo;
  }

  /** The slot below `s` is a different one, and stepping back up from it returns to `s`. */
  lemma StackBelow(s: StackPtr)
    ensures StackWrap(s - 1) != s
    ensures StackWrap(StackWrap(s - 1) + 1) == s
  {
    StackWrapShift(s - 3, 1);
    StackWrapShift(s - 2, 1);
    StackWrapShift(s - 1, 1);
    StackWrapIdentity(s);
  }

  /**
   * JSR: PC - 1 after the three instruction bytes (the address of the last one)
   * is pushed high byte first, and PC is loaded with the absolute operand.
   */
  lemma JsrStep(m: Machine)
    requires m.pc + 3 < 0x10000
    requires m.mem[m.pc] == 0x20
    ensures RunInstruction(m) == Stepped(
      Push(Push(m.(pc := m.pc + 3), Low8((m.pc + 2) / 0x100)), Low8(m.pc + 2))
        .(pc := Word16(m.mem[m.pc + 1], m.mem[m.pc + 2])),
      3)
  {
    var target := Word16(m.mem[m.pc + 1], m.mem[m.pc + 2]);
    var next := m.(pc := m.pc + 3);
    JsrDecoded(m);
    JsrFetch(m);
    RunFetched(m, Some(JSR), Absolute, 3, target, next);
    ExecuteJsr(next, target);
  }

  lemma JsrDecoded(m: Machine)
    requires m.pc < 0x10000
    requires m.mem[m.pc] == 0x20
    ensures RunInstruction(m) == Run(m, Some(JSR), Absolute, 3)
  {
    assert Decode(0x20) == Some(JSR) && ModeTable(0x20) == Absolute && SizeTable(0x20) == 3;
  }

  lemma JsrFetch(m: Machine)
    requires m.pc + 3 < 0x10000
    requires m.mem[m.pc] == 0x20
    ensures Fetch(m.(pc := Low16(m.pc + 1)), Absolute) ==
      Operand(Word16(m.mem[m.pc + 1], m.mem[m.pc + 2]), m.(pc := m.pc + 3))
  {
    var n := m.(pc := Low16(m.pc + 1));
    assert n.pc == m.pc + 1;
    assert AbsoluteOperand(n) == Some(Word16(m.mem[m.pc + 1], m.mem[m.pc + 2]));
    assert n.(pc := Low16(n.pc + 2)) == m.(pc := m.pc + 3);
  }

  lemma ExecuteJsr(m: Machine, target: Word)
    requires 0 < m.pc < 0x10000
    ensures Execute(m, Some(JSR), Absolute, target) ==
      Push(Push(m, Low8((m.pc - 1) / 0x100)), Low8(m.pc - 1)).(pc := target)
  {
  }

  /** Once the operand is fetched, a step is the execution of the decoded opcode on it. */
  lemma RunFetched(m: Machine, op: Option<Mnemonic>, mode: Mode, size: nat, address: Word, next: Machine)
    requires m.pc < 0x10000
    requires Fetch(m.(pc := Low16(m.pc + 1)), mode) == Operand(address, next)
    ensures Run(m, op, mode, size) == Stepped(Execute(next, op, mode, address), size)
  {
    assert Run(m, op, mode, size) == Complete(Operand(address, next), op, mode, size);
  }

  /** RTS: pulls the return address, low byte first, and continues one byte after it. */
  lemma RtsStep(m: Machine)
    requires m.pc < 0x10000
    requires m.mem[m.pc] == 0x60
    ensures RunInstruction(m) == Stepped(PullAddress(m).0.(pc := PullAddress(m).1 + 1), 1)
  {
    assert Decode(0x60) == Some(RTS) && ModeTable(0x60) == Implied && SizeTable(0x60) == 1;
    assert RunInstruction(m) == Run(m, Some(RTS), Implied, 1);
    RtsRun(m);
  }

  lemma RtsRun(m: Machine)
    requires m.pc < 0x10000
    ensures Run(m, Some(RTS), Implied, 1) == Stepped(PullAddress(m).0.(pc := PullAddress(m).1 + 1), 1)
  {
    var next := m.(pc := Low16(m.pc + 1));
    assert Fetch(next, Implied) == Operand(0, next);
    RunFetched(m, Some(RTS), Implied, 1, 0, next);
    ExecuteRts(next);
    PullAddressIgnoresPc(m, next.pc);
  }

  lemma PullAddressIgnoresPc(m: Machine, pc: Pc)
    ensures PullAddress(m.(pc := pc)) == (PullAddress(m).0.(pc := pc), PullAddress(m).1)
  {
  }

  lemma ExecuteRts(m: Machine)
    requires m.pc < 0x10000
    ensures Execute(m, Some(RTS), Implied, 0) == PullAddress(m).0.(pc := PullAddress(m).1 + 1)
  {
  }

  /**
   * A normal IRQ requested while I = 1 is lost: the step behaves as if it had
   * never been requested, and afterwards nothing is pending.
   */
  lemma MaskedIrqIsDiscarded(m: Machine)
    requires m.irqRequested && m.irqType == IrqNormal && m.f.interrupt
    ensures Step(m) == Step(m.(irqRequested := false))
  {
  }

  /**
   * RTI after a taken NMI or IRQ resumes at the interrupted PC with every flag
   * as it was and SP restored.
   */
  lemma RtiReturnsFromInterrupt(m: Machine)
    requires m.pc < 0x10000 && m.irqRequested
    requires m.irqType == IrqNmi || (m.irqType == IrqNormal && !m.f.interrupt)
    ensures var r := ProcessIrq(m);
      var back := Execute(r, Some(RTI), Implied, 0);
      back.pc == m.pc && back.f == m.f && back.sp == m.sp
  {
    var r := ProcessIrq(m);
    assert r.sp == PushFrame(m).sp && r.mem == PushFrame(m).mem;
    PullFrame(m, r);
    ExecuteRti(r);
    UnpackPack(m.f);
  }

  /**
   * BRK then RTI: with PC already past the BRK opcode, RTI resumes one byte
   * further on (the BRK address + 2), with SP and A, X, Y restored and every
   * flag as it was before BRK except break, which reads back as set.
   */
  lemma BrkThenRti(m: Machine)
    requires m.pc < 0x10000
    ensures var back := Rti(Brk(m));
      && back.pc == (m.pc + 1) % 0x10000
      && back.sp == m.sp
      && back.f == m.f.(brk := true)
      && back.a == m.a && back.x == m.x && back.y == m.y
  {
    BrkFrame(m);
    RtiOfFrame(Brk(m), m.sp, m.f.(brk := true));
    ReturnAddressWraps(m.pc + 1);
  }

  /** RTI on an interrupt frame three cells below `s`: the saved flags and address come back and SP returns to `s`. */
  lemma RtiOfFrame(x: Machine, s: StackPtr, saved: Flags)
    requires x.sp == StackWrap(s - 3) && x.mem[StackWrap(s - 2)] == Pack(saved)
    ensures Rti(x) == x.(sp := s, f := saved, pc := Word16(x.mem[StackWrap(s - 1)], x.mem[s]))
  {
    PullThree(x, s);
    UnpackPack(saved);
    var (m1, p) := Pull(x);
    assert PullAddress(m1.(f := saved)) == (PullAddress(m1).0.(f := saved), PullAddress(m1).1);
  }

  /** A return address of at most 0x10000 comes back from its two pushed bytes modulo 0x10000. */
  lemma ReturnAddressWraps(ret: int)
    requires 0 <= ret <= 0x10000
    ensures Word16(Low8(ret), Low8(ret / 0x100)) == ret % 0x10000
  {
    if ret < 0x10000 {
      Word16Split(ret);
    }
  }

  /** The frame BRK leaves: the return address PC + 1 and the status byte with break set, as an interrupt frame. */
  lemma BrkFrame(m: Machine)
    requires m.pc < 0x10000
    ensures var x := Brk(m);
      && x.sp == StackWrap(m.sp - 3)
      && x.mem[m.sp] == Low8((m.pc + 1) / 0x100)
      && x.mem[StackWrap(m.sp - 1)] == Low8(m.pc + 1)
      && x.mem[StackWrap(m.sp - 2)] == Pack(m.f.(brk := true))
      && x.a == m.a && x.x == m.x && x.y == m.y
  {
    var f1 := m.f.(brk := true);
    var m1 := PushReturn(m, m.pc + 1);
    var m2 := Push(m1.(f := f1), Pack(f1));
    FrameLayout(m, m.pc + 1, Pack(f1));
    assert m2.sp == Push(m1, Pack(f1)).sp && m2.mem == Push(m1, Pack(f1)).mem;
    assert Brk(m).sp == m2.sp && Brk(m).mem == m2.mem;
  }

  /** RTI pulls the status byte, then the return address, and resumes there. */
  lemma ExecuteRti(m: Machine)
    requires m.pc < 0x10000
    ensures Execute(m, Some(RTI), Implied, 0) ==
      PullAddress(Pull(m).0).0.(f := Unpack(Pull(m).1), pc := PullAddress(Pull(m).0).1)
  {
    var (m1, p) := Pull(m);
    assert IsControl(RTI) && !IsBranch(RTI) && !IsArithmetic(RTI) && !IsReadModifyWrite(RTI);
    assert !IsRegisterOp(RTI) && !IsFlagOp(RTI) && !IsStackOp(RTI);
    assert Execute(m, Some(RTI), Implied, 0) == Rti(m);
    assert PullAddress(m1.(f := Unpack(p))) == (PullAddress(m1).0.(f := Unpack(p)), PullAddress(m1).1);
  }

  /** Pulling a byte and an address from an interrupt frame gives back the status and PC it saved. */
  lemma PullFrame(m: Machine, x: Machine)
    requires m.pc < 0x10000
    requires x.sp == PushFrame(m).sp && x.mem == PushFrame(m).mem
    ensures Pull(x).1 == Pack(m.f)
    ensures PullAddress(Pull(x).0).1 == m.pc
    ensures PullAddress(Pull(x).0).0.sp == m.sp
  {
    PushFrameLayout(m);
    PullThree(x, m.sp);
    Word16Split(m.pc);
  }

  /** Pulling a byte and then an address from three cells below `s` ends with SP back at `s`. */
  lemma PullThree(x: Machine, s: StackPtr)
    requires x.sp == StackWrap(s - 3)
    ensures Pull(x).1 == x.mem[StackWrap(s - 2)]
    ensures PullAddress(Pull(x).0) == (x.(sp := s), Word16(x.mem[StackWrap(s - 1)], x.mem[s]))
  {
    StackSteps(s);
    var (x1, v) := Pull(x);
    assert x1.sp == StackWrap(s - 2);
  }

  /** Three single steps up from three slots below `s`. */
  lemma StackSteps(s: StackPtr)
    ensures StackWrap(StackWrap(s - 3) + 1) == StackWrap(s - 2)
    ensures StackWrap(StackWrap(s - 2) + 1) == StackWrap(s - 1)
    ensures StackWrap(StackWrap(s - 1) + 1) == s
  {
    StackWrapShift(s - 3, 1);
    StackWrapShift(s - 2, 1);
    StackWrapShift(s - 1, 1);
    StackWrapIdentity(s);
  }

  /** A return address `ret` and a status byte `p` pushed: high byte at SP, low byte below it, then `p`. */
  lemma FrameLayout(m: Machine, ret: int, p: Byte)
    ensures var x := Push(PushReturn(m, ret), p);
      && x.sp == StackWrap(m.sp - 3)
      && x.mem[m.sp] == Low8(ret / 0x100)
      && x.mem[StackWrap(m.sp - 1)] == Low8(ret)
      && x.mem[StackWrap(m.sp - 2)] == p
      && x == m.(sp := StackWrap(m.sp - 3),
           mem := m.mem[m.sp := Low8(ret / 0x100)][StackWrap(m.sp - 1) := Low8(ret)][StackWrap(m.sp - 2) := p])
  {
    var m1 := Push(m, Low8(ret / 0x100));
    var m2 := Push(m1, Low8(ret));
    StackWrapShift(m.sp - 1, -1);
    assert m2.sp == StackWrap(m.sp - 2);
    assert m2.mem[m.sp] == Low8(ret / 0x100);
    StackWrapShift(m.sp - 2, -1);
  }

  /** An interrupt frame: PC high byte at SP, PC low byte below it, then the status byte. */
  lemma PushFrameLayout(m: Machine)
    ensures PushFrame(m).sp == StackWrap(m.sp - 3)
    ensures PushFrame(m).mem[m.sp] == Low8(m.pc / 0x100)
    ensures PushFrame(m).mem[StackWrap(m.sp - 1)] == Low8(m.pc)
    ensures PushFrame(m).mem[StackWrap(m.sp - 2)] == Pack(m.f)
    ensures PushFrame(m) == m.(sp := StackWrap(m.sp - 3),
      mem := m.mem[m.sp := Low8(m.pc / 0x100)][StackWrap(m.sp - 1) := Low8(m.pc)][StackWrap(m.sp - 2) := Pack(m.f)])
  {
    FrameLayout(m, m.pc, Pack(m.f));
  }

  /** PHP then PLP restores every flag, except that break reads back as set. */
  lemma PlpAfterPhp(m: Machine)
    ensures var back := StackOp(StackOp(m, PHP), PLP);
      back.f == m.f.(brk := true) && back.sp == m.sp
  {
    var f1 := m.f.(brk := true);
    PullAfterPush(m.(f := f1), Pack(f1));
    UnpackPack(f1);
  }
}
