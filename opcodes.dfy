/**
 * The 6502 opcode tables built by `CPU.initOpcodes` and the opcode-to-operation
 * decoding of the interpreter's `switch` in `CPU.processNextInstruction`.
 *
 * Each table is written as the usual 6502 opcode matrix: the high nibble of
 * the opcode selects a row and the low nibble a column.
 */
module Opcodes {
  import opened Bytes

  /** The thirteen addressing modes, `ADDR_ZP` (0) .. `ADDR_RELATIVE` (12). */
  datatype Mode =
    | ZeroPage | ZeroPageX | ZeroPageY
    | Absolute | AbsoluteX | AbsoluteY
    | Implied | Accumulator | Immediate
    | Indirect | IndirectX | IndirectY
    | Relative

  /** The 56 documented 6502 operations the interpreter implements. */
  datatype Mnemonic =
    ADC | AND | ASL | BCC | BCS | BEQ | BIT | BMI | BNE | BPL | BRK | BVC | BVS | CLC | CLD |
    CLI | CLV | CMP | CPX | CPY | DEC | DEX | DEY | EOR | INC | INX | INY | JMP | JSR | LDA |
    LDX | LDY | LSR | NOP | ORA | PHA | PHP | PLA | PLP | ROL | ROR | RTI | RTS | SBC | SEC |
    SED | SEI | STA | STX | STY | TAX | TAY | TSX | TXA | TXS | TYA

  /** Number of operand bytes an addressing mode reads after the opcode byte. */
  function OperandBytes(mode: Mode): nat
  {
    match mode
    case Implied | Accumulator => 0
    case Absolute | AbsoluteX | AbsoluteY | Indirect => 2
    case _ => 1
  }

  /**
   * `opcodeSizes`: the instruction length in bytes that `processNextInstruction`
   * returns. Entries never assigned keep Java's default 0.
   */
  function SizeTable(op: Byte): nat
  {
    var col := op % 0x10;
    match op / 0x10
    case 0x0 =>
      (match col
       case 0x0 => 1
       case 0x1 => 2
       case 0x5 => 2
       case 0x6 => 2
       case 0x8 => 1
       case 0x9 => 2
       case 0xA => 1
       case 0xD => 3
       case 0xE => 3
       case _ => 0)
    case 0x1 =>
      (match col
       case 0x0 => 2
       case 0x1 => 2
       case 0x5 => 2
       case 0x6 => 2
       case 0x8 => 1
       case 0x9 => 3
       case 0xD => 3
       case 0xE => 3
       case _ => 0)
    case 0x2 =>
      (match col
       case 0x0 => 3
       case 0x1 => 2
       case 0x4 => 2
       case 0x5 => 2
       case 0x6 => 2
       case 0x9 => 2
       case 0xA => 1
       case 0xC => 3
       case 0xD => 3
       case 0xE => 3
       case _ => 0)
    case 0x3 =>
      (match col
       case 0x0 => 2
       case 0x1 => 2
       case 0x5 => 2
       case 0x6 => 2
       case 0x8 => 1
       case 0x9 => 3
       case 0xD => 3
       case 0xE => 3
       case _ => 0)
    case 0x4 =>
      (match col
       case 0x0 => 1
       case 0x1 => 2
       case 0x5 => 2
       case 0x6 => 2
       case 0x8 => 1
       case 0x9 => 2
       case 0xA => 1
       case 0xC => 3
       case 0xD => 3
       case 0xE => 3
       case _ => 0)
    case 0x5 =>
      (match col
       case 0x0 => 2
       case 0x1 => 2
       case 0x5 => 2
       case 0x6 => 2
       case 0x8 => 1
       case 0x9 => 3
       case 0xD => 3
       case 0xE => 3
       case _ => 0)
    case 0x6 =>
      (match col
       case 0x0 => 1
       case 0x1 => 2
       case 0x5 => 2
       case 0x6 => 2
       case 0x8 => 1
       case 0x9 => 2
       case 0xA => 1
       case 0xD => 3
       case 0xE => 3
       case _ => 0)
    case 0x7 =>
      (match col
       case 0x0 => 2
       case 0x1 => 2
       case 0x5 => 2
       case 0x6 => 2
       case 0x8 => 1
       case 0x9 => 3
       case 0xD => 3
       case 0xE => 3
       case _ => 0)
    case 0x8 =>
      (match col
       case 0x1 => 2
       case 0x4 => 2
       case 0x5 => 2
       case 0x6 => 2
       case 0x8 => 1
       case 0xA => 1
       case 0xC => 3
       case 0xD => 3
       case 0xE => 3
       case _ => 0)
    case 0x9 =>
      (match col
       case 0x0 => 2
       case 0x1 => 2
       case 0x4 => 2
       case 0x5 => 2
       case 0x6 => 2
       case 0x8 => 1
       case 0x9 => 3
       case 0xA => 1
       case 0xD => 3
       case _ => 0)
    case 0xA =>
      (match col
       case 0x0 => 2
       case 0x1 => 2
       case 0x2 => 2
       case 0x4 => 2
       case 0x5 => 2
       case 0x6 => 2
       case 0x8 => 1
       case 0x9 => 2
       case 0xA => 1
       case 0xC => 3
       case 0xD => 3
       case 0xE => 3
       case _ => 0)
    case 0xB =>
      (match col
       case 0x0 => 2
       case 0x1 => 2
       case 0x4 => 2
       case 0x5 => 2
       case 0x6 => 2
       case 0x8 => 1
       case 0x9 => 3
       case 0xA => 1
       case 0xC => 3
       case 0xD => 3
       case 0xE => 3
       case _ => 0)
    case 0xC =>
      (match col
       case 0x0 => 2
       case 0x1 => 2
       case 0x4 => 2
       case 0x5 => 2
       case 0x6 => 2
       case 0x8 => 1
       case 0x9 => 2
       case 0xA => 1
       case 0xC => 3
       case 0xD => 3
       case 0xE => 3
       case _ => 0)
    case 0xD =>
      (match col
       case 0x0 => 2
       case 0x1 => 2
       case 0x5 => 2
       case 0x6 => 2
       case 0x8 => 1
       case 0x9 => 3
       case 0xD => 3
       case 0xE => 3
       case _ => 0)
    case 0xE =>
      (match col
       case 0x0 => 2
       case 0x1 => 2
       case 0x4 => 2
       case 0x5 => 2
       case 0x6 => 2
       case 0x8 => 1
       case 0x9 => 2
       case 0xA => 1
       case 0xC => 3
       case 0xD => 3
       case 0xE => 3
       case _ => 0)
    case 0xF =>
      (match col
       case 0x0 => 2
       case 0x1 => 2
       case 0x5 => 2
       case 0x6 => 2
       case 0x8 => 1
       case 0x9 => 3
       case 0xD => 3
       case 0xE => 3
       case _ => 0)
    case _ => 0
  }

  /** `opcodeCycles` as written; the interpreter reads it but never uses the value. */
  function CyclesTable(op: Byte): nat
  {
    var col := op % 0x10;
    match op / 0x10
    case 0x0 =>
      (match col
       case 0x0 => 7
       case 0x1 => 6
       case 0x5 => 3
       case 0x6 => 5
       case 0x8 => 3
       case 0x9 => 2
       case 0xA => 2
       case 0xD => 4
       case 0xE => 6
       case _ => 0)
    case 0x1 =>
      (match col
       case 0x0 => 2
       case 0x1 => 5
       case 0x5 => 4
       case 0x6 => 6
       case 0x8 => 2
       case 0x9 => 4
       case 0xD => 4
       case 0xE => 7
       case _ => 0)
    case 0x2 =>
      (match col
       case 0x0 => 6
       case 0x1 => 6
       case 0x4 => 3
       case 0x5 => 3
       case 0x6 => 5
       case 0x9 => 2
       case 0xA => 2
       case 0xC => 5
       case 0xD => 4
       case 0xE => 6
       case _ => 0)
    case 0x3 =>
      (match col
       case 0x0 => 2
       case 0x1 => 5
       case 0x5 => 4
       case 0x6 => 6
       case 0x8 => 2
       case 0x9 => 4
       case 0xD => 4
       case 0xE => 7
       case _ => 0)
    case 0x4 =>
      (match col
       case 0x0 => 6
       case 0x1 => 6
       case 0x5 => 3
       case 0x6 => 5
       case 0x8 => 3
       case 0x9 => 2
       case 0xA => 2
       case 0xC => 3
       case 0xD => 4
       case 0xE => 6
       case _ => 0)
    case 0x5 =>
      (match col
       case 0x0 => 2
       case 0x1 => 5
       case 0x5 => 4
       case 0x6 => 6
       case 0x8 => 2
       case 0x9 => 4
       case 0xD => 4
       case 0xE => 7
       case _ => 0)
    case 0x6 =>
      (match col
       case 0x0 => 6
       case 0x1 => 6
       case 0x5 => 3
       case 0x6 => 5
       case 0x8 => 4
       case 0x9 => 2
       case 0xA => 2
       case 0xD => 4
       case 0xE => 6
       case _ => 0)
    case 0x7 =>
      (match col
       case 0x0 => 2
       case 0x1 => 5
       case 0x5 => 4
       case 0x6 => 6
       case 0x8 => 2
       case 0x9 => 4
       case 0xD => 4
       case 0xE => 7
       case _ => 0)
    case 0x8 =>
      (match col
       case 0x1 => 6
       case 0x4 => 3
       case 0x5 => 3
       case 0x6 => 3
       case 0x8 => 2
       case 0xA => 2
       case 0xC => 4
       case 0xD => 4
       case 0xE => 4
       case _ => 0)
    case 0x9 =>
      (match col
       case 0x0 => 2
       case 0x1 => 6
       case 0x4 => 4
       case 0x5 => 4
       case 0x6 => 4
       case 0x8 => 2
       case 0x9 => 5
       case 0xA => 2
       case 0xD => 5
       case _ => 0)
    case 0xA =>
      (match col
       case 0x0 => 2
       case 0x1 => 6
       case 0x2 => 2
       case 0x4 => 3
       case 0x5 => 3
       case 0x6 => 3
       case 0x8 => 2
       case 0x9 => 2
       case 0xA => 2
       case 0xC => 4
       case 0xD => 4
       case 0xE => 4
       case _ => 0)
    case 0xB =>
      (match col
       case 0x0 => 2
       case 0x1 => 5
       case 0x4 => 4
       case 0x5 => 4
       case 0x6 => 4
       case 0x8 => 2
       case 0x9 => 4
       case 0xA => 2
       case 0xC => 4
       case 0xD => 4
       case 0xE => 4
       case _ => 0)
    case 0xC =>
      (match col
       case 0x0 => 2
       case 0x1 => 6
       case 0x4 => 3
       case 0x5 => 3
       case 0x6 => 5
       case 0x8 => 2
       case 0x9 => 3
       case 0xA => 2
       case 0xC => 4
       case 0xD => 4
       case 0xE => 6
       case _ => 0)
    case 0xD =>
      (match col
       case 0x0 => 2
       case 0x1 => 5
       case 0x5 => 4
       case 0x6 => 6
       case 0x8 => 2
       case 0x9 => 4
       case 0xD => 4
       case 0xE => 7
       case _ => 0)
    case 0xE =>
      (match col
       case 0x0 => 2
       case 0x1 => 6
       case 0x4 => 3
       case 0x5 => 3
       case 0x6 => 5
       case 0x8 => 2
       case 0x9 => 2
       case 0xA => 2
       case 0xC => 4
       case 0xD => 4
       case 0xE => 6
       case _ => 0)
    case 0xF =>
      (match col
       case 0x0 => 2
       case 0x1 => 5
       case 0x5 => 4
       case 0x6 => 6
       case 0x8 => 2
       case 0x9 => 4
       case 0xD => 4
       case 0xE => 7
       case _ => 0)
    case _ => 0
  }

  /**
   * `opcodeModes`: the addressing mode used to fetch the operand. Entries never
   * assigned keep Java's default 0, which is `ADDR_ZP`.
   */
  function ModeTable(op: Byte): Mode
  {
    var col := op % 0x10;
    match op / 0x10
    case 0x0 =>
      (match col
       case 0x0 => Implied
       case 0x1 => IndirectX
       case 0x5 => ZeroPage
       case 0x6 => ZeroPage
       case 0x8 => Implied
       case 0x9 => Immediate
       case 0xA => Accumulator
       case 0xD => Absolute
       case 0xE => Absolute
       case _ => ZeroPage)
    case 0x1 =>
      (match col
       case 0x0 => Relative
       case 0x1 => IndirectY
       case 0x5 => ZeroPageX
       case 0x6 => ZeroPageX
       case 0x8 => Implied
       case 0x9 => AbsoluteY
       case 0xD => AbsoluteX
       case 0xE => AbsoluteX
       case _ => ZeroPage)
    case 0x2 =>
      (match col
       case 0x0 => Absolute
       case 0x1 => IndirectX
       case 0x4 => ZeroPage
       case 0x5 => ZeroPage
       case 0x6 => ZeroPage
       case 0x8 => Implied
       case 0x9 => Immediate
       case 0xA => Accumulator
       case 0xC => Absolute
       case 0xD => Absolute
       case 0xE => Absolute
       case _ => ZeroPage)
    case 0x3 =>
      (match col
       case 0x0 => Relative
       case 0x1 => IndirectY
       case 0x5 => ZeroPageX
       case 0x6 => ZeroPageX
       case 0x8 => Implied
       case 0x9 => AbsoluteY
       case 0xD => AbsoluteX
       case 0xE => AbsoluteX
       case _ => ZeroPage)
    case 0x4 =>
      (match col
       case 0x0 => Implied
       case 0x1 => IndirectX
       case 0x5 => ZeroPage
       case 0x6 => ZeroPage
       case 0x8 => Implied
       case 0x9 => Immediate
       case 0xA => Accumulator
       case 0xC => Absolute
       case 0xD => Absolute
       case 0xE => Absolute
       case _ => ZeroPage)
    case 0x5 =>
      (match col
       case 0x0 => Relative
       case 0x1 => IndirectY
       case 0x5 => ZeroPageX
       case 0x6 => ZeroPageX
       case 0x8 => Implied
       case 0x9 => AbsoluteY
       case 0xD => AbsoluteX
       case 0xE => AbsoluteX
       case _ => ZeroPage)
    case 0x6 =>
      (match col
       case 0x0 => Implied
       case 0x1 => IndirectX
       case 0x5 => ZeroPage
       case 0x6 => ZeroPage
       case 0x8 => Implied
       case 0x9 => Immediate
       case 0xA => Accumulator
       case 0xC => Indirect
       case 0xD => Absolute
       case 0xE => Absolute
       case _ => ZeroPage)
    case 0x7 =>
      (match col
       case 0x0 => Relative
       case 0x1 => IndirectY
       case 0x5 => ZeroPageX
       case 0x6 => ZeroPageX
       case 0x8 => Implied
       case 0x9 => AbsoluteY
       case 0xD => AbsoluteX
       case 0xE => AbsoluteX
       case _ => ZeroPage)
    case 0x8 =>
      (match col
       case 0x1 => IndirectX
       case 0x4 => ZeroPage
       case 0x5 => ZeroPage
       case 0x6 => ZeroPage
       case 0x8 => Implied
       case 0xA => Implied
       case 0xC => Absolute
       case 0xD => Absolute
       case 0xE => Absolute
       case _ => ZeroPage)
    case 0x9 =>
      (match col
       case 0x0 => Relative
       case 0x1 => IndirectY
       case 0x4 => ZeroPageX
       case 0x5 => ZeroPageX
       case 0x6 => ZeroPageY
       case 0x8 => Implied
       case 0x9 => AbsoluteY
       case 0xA => Implied
       case 0xD => AbsoluteX
       case _ => ZeroPage)
    case 0xA =>
      (match col
       case 0x0 => Immediate
       case 0x1 => IndirectX
       case 0x2 => Immediate
       case 0x4 => ZeroPage
       case 0x5 => ZeroPage
       case 0x6 => ZeroPage
       case 0x8 => Implied
       case 0x9 => Immediate
       case 0xA => Implied
       case 0xC => Absolute
       case 0xD => Absolute
       case 0xE => Absolute
       case _ => ZeroPage)
    case 0xB =>
      (match col
       case 0x0 => Relative
       case 0x1 => IndirectY
       case 0x4 => ZeroPageX
       case 0x5 => ZeroPageX
       case 0x6 => ZeroPageY
       case 0x8 => Implied
       case 0x9 => AbsoluteY
       case 0xA => Implied
       case 0xC => AbsoluteX
       case 0xD => AbsoluteX
       case 0xE => AbsoluteY
       case _ => ZeroPage)
    case 0xC =>
      (match col
       case 0x0 => Immediate
       case 0x1 => IndirectX
       case 0x4 => ZeroPage
       case 0x5 => ZeroPage
       case 0x6 => ZeroPage
       case 0x8 => Implied
       case 0x9 => Immediate
       case 0xA => Implied
       case 0xC => Absolute
       case 0xD => Absolute
       case 0xE => Absolute
       case _ => ZeroPage)
    case 0xD =>
      (match col
       case 0x0 => Relative
       case 0x1 => IndirectY
       case 0x5 => ZeroPageX
       case 0x6 => ZeroPageX
       case 0x8 => Implied
       case 0x9 => AbsoluteY
       case 0xD => AbsoluteX
       case 0xE => AbsoluteX
       case _ => ZeroPage)
    case 0xE =>
      (match col
       case 0x0 => Immediate
       case 0x1 => IndirectX
       case 0x4 => ZeroPage
       case 0x5 => ZeroPage
       case 0x6 => ZeroPage
       case 0x8 => Implied
       case 0x9 => Immediate
       case 0xA => Implied
       case 0xC => Absolute
       case 0xD => Absolute
       case 0xE => Absolute
       case _ => ZeroPage)
    case 0xF =>
      (match col
       case 0x0 => Relative
       case 0x1 => IndirectY
       case 0x5 => ZeroPageX
       case 0x6 => ZeroPageX
       case 0x8 => Implied
       case 0x9 => AbsoluteY
       case 0xD => AbsoluteX
       case 0xE => AbsoluteX
       case _ => ZeroPage)
    case _ => ZeroPage
  }

  /** The case labels of the interpreter's `switch`; `None` is its `default` branch. */
  function Decode(op: Byte): Option<Mnemonic>
  {
    var col := op % 0x10;
    match op / 0x10
    case 0x0 =>
      (match col
       case 0x0 => Some(BRK)
       case 0x1 => Some(ORA)
       case 0x5 => Some(ORA)
       case 0x6 => Some(ASL)
       case 0x8 => Some(PHP)
       case 0x9 => Some(ORA)
       case 0xA => Some(ASL)
       case 0xD => Some(ORA)
       case 0xE => Some(ASL)
       case _ => None)
    case 0x1 =>
      (match col
       case 0x0 => Some(BPL)
       case 0x1 => Some(ORA)
       case 0x5 => Some(ORA)
       case 0x6 => Some(ASL)
       case 0x8 => Some(CLC)
       case 0x9 => Some(ORA)
       case 0xD => Some(ORA)
       case 0xE => Some(ASL)
       case _ => None)
    case 0x2 =>
      (match col
       case 0x0 => Some(JSR)
       case 0x1 => Some(AND)
       case 0x4 => Some(BIT)
       case 0x5 => Some(AND)
       case 0x6 => Some(ROL)
       case 0x8 => Some(PLP)
       case 0x9 => Some(AND)
       case 0xA => Some(ROL)
       case 0xC => Some(BIT)
       case 0xD => Some(AND)
       case 0xE => Some(ROL)
       case _ => None)
    case 0x3 =>
      (match col
       case 0x0 => Some(BMI)
       case 0x1 => Some(AND)
       case 0x5 => Some(AND)
       case 0x6 => Some(ROL)
       case 0x8 => Some(SEC)
       case 0x9 => Some(AND)
       case 0xD => Some(AND)
       case 0xE => Some(ROL)
       case _ => None)
    case 0x4 =>
      (match col
       case 0x0 => Some(RTI)
       case 0x1 => Some(EOR)
       case 0x5 => Some(EOR)
       case 0x6 => Some(LSR)
       case 0x8 => Some(PHA)
       case 0x9 => Some(EOR)
       case 0xA => Some(LSR)
       case 0xC => Some(JMP)
       case 0xD => Some(EOR)
       case 0xE => Some(LSR)
       case _ => None)
    case 0x5 =>
      (match col
       case 0x0 => Some(BVC)
       case 0x1 => Some(EOR)
       case 0x5 => Some(EOR)
       case 0x6 => Some(LSR)
       case 0x8 => Some(CLI)
       case 0x9 => Some(EOR)
       case 0xD => Some(EOR)
       case 0xE => Some(LSR)
       case _ => None)
    case 0x6 =>
      (match col
       case 0x0 => Some(RTS)
       case 0x1 => Some(ADC)
       case 0x5 => Some(ADC)
       case 0x6 => Some(ROR)
       case 0x8 => Some(PLA)
       case 0x9 => Some(ADC)
       case 0xA => Some(ROR)
       case 0xC => Some(JMP)
       case 0xD => Some(ADC)
       case 0xE => Some(ROR)
       case _ => None)
    case 0x7 =>
      (match col
       case 0x0 => Some(BVS)
       case 0x1 => Some(ADC)
       case 0x5 => Some(ADC)
       case 0x6 => Some(ROR)
       case 0x8 => Some(SEI)
       case 0x9 => Some(ADC)
       case 0xD => Some(ADC)
       case 0xE => Some(ROR)
       case _ => None)
    case 0x8 =>
      (match col
       case 0x1 => Some(STA)
       case 0x4 => Some(STY)
       case 0x5 => Some(STA)
       case 0x6 => Some(STX)
       case 0x8 => Some(DEY)
       case 0xA => Some(TXA)
       case 0xC => Some(STY)
       case 0xD => Some(STA)
       case 0xE => Some(STX)
       case _ => None)
    case 0x9 =>
      (match col
       case 0x0 => Some(BCC)
       case 0x1 => Some(STA)
       case 0x4 => Some(STY)
       case 0x5 => Some(STA)
       case 0x6 => Some(STX)
       case 0x8 => Some(TYA)
       case 0x9 => Some(STA)
       case 0xA => Some(TXS)
       case 0xD => Some(STA)
       case _ => None)
    case 0xA =>
      (match col
       case 0x0 => Some(LDY)
       case 0x1 => Some(LDA)
       case 0x2 => Some(LDX)
       case 0x4 => Some(LDY)
       case 0x5 => Some(LDA)
       case 0x6 => Some(LDX)
       case 0x8 => Some(TAY)
       case 0x9 => Some(LDA)
       case 0xA => Some(TAX)
       case 0xC => Some(LDY)
       case 0xD => Some(LDA)
       case 0xE => Some(LDX)
       case _ => None)
    case 0xB =>
      (match col
       case 0x0 => Some(BCS)
       case 0x1 => Some(LDA)
       case 0x4 => Some(LDY)
       case 0x5 => Some(LDA)
       case 0x6 => Some(LDX)
       case 0x8 => Some(CLV)
       case 0x9 => Some(LDA)
       case 0xA => Some(TSX)
       case 0xC => Some(LDY)
       case 0xD => Some(LDA)
       case 0xE => Some(LDX)
       case _ => None)
    case 0xC =>
      (match col
       case 0x0 => Some(CPY)
       case 0x1 => Some(CMP)
       case 0x4 => Some(CPY)
       case 0x5 => Some(CMP)
       case 0x6 => Some(DEC)
       case 0x8 => Some(INY)
       case 0x9 => Some(CMP)
       case 0xA => Some(DEX)
       case 0xC => Some(CPY)
       case 0xD => Some(CMP)
       case 0xE => Some(DEC)
       case _ => None)
    case 0xD =>
      (match col
       case 0x0 => Some(BNE)
       case 0x1 => Some(CMP)
       case 0x5 => Some(CMP)
       case 0x6 => Some(DEC)
       case 0x8 => Some(CLD)
       case 0x9 => Some(CMP)
       case 0xD => Some(CMP)
       case 0xE => Some(DEC)
       case _ => None)
    case 0xE =>
      (match col
       case 0x0 => Some(CPX)
       case 0x1 => Some(SBC)
       case 0x4 => Some(CPX)
       case 0x5 => Some(SBC)
       case 0x6 => Some(INC)
       case 0x8 => Some(INX)
       case 0x9 => Some(SBC)
       case 0xA => Some(NOP)
       case 0xC => Some(CPX)
       case 0xD => Some(SBC)
       case 0xE => Some(INC)
       case _ => None)
    case 0xF =>
      (match col
       case 0x0 => Some(BEQ)
       case 0x1 => Some(SBC)
       case 0x5 => Some(SBC)
       case 0x6 => Some(INC)
       case 0x8 => Some(SED)
       case 0x9 => Some(SBC)
       case 0xD => Some(SBC)
       case 0xE => Some(INC)
       case _ => None)
    case _ => None
  }

  /** A conditional branch: BCC, BCS, BEQ, BMI, BNE, BPL, BVC or BVS. */
  predicate IsBranch(m: Mnemonic)
  {
    match m
    case BCC | BCS | BEQ | BMI | BNE | BPL | BVC | BVS => true
    case _ => false
  }

  /**
   * The size table agrees with the mode table for every opcode the interpreter
   * executes, except JMP (0x6C) and PLP (0x28), whose size entries are never
   * assigned.
   */
  lemma SizeAgreesWithMode(op: Byte)
    requires Decode(op).Some? && op != 0x6C && op != 0x28
    ensures SizeTable(op) == 1 + OperandBytes(ModeTable(op))
    ensures CyclesTable(op) >= 2
  {
    if op < 0x10 {
    } else if op < 0x20 {
    } else if op < 0x30 {
    } else if op < 0x40 {
    } else if op < 0x50 {
    } else if op < 0x60 {
    } else if op < 0x70 {
    } else if op < 0x80 {
    } else if op < 0x90 {
    } else if op < 0xA0 {
    } else if op < 0xB0 {
    } else if op < 0xC0 {
    } else if op < 0xD0 {
    } else if op < 0xE0 {
    } else if op < 0xF0 {
    } else {
    }
  }

  /** The two entries the tables leave at Java's default. */
  lemma UnassignedEntries()
    ensures Decode(0x6C) == Some(JMP) && ModeTable(0x6C) == Indirect
    ensures SizeTable(0x6C) == 0 && CyclesTable(0x6C) == 0
    ensures Decode(0x28) == Some(PLP) && ModeTable(0x28) == Implied
    ensures SizeTable(0x28) == 0 && CyclesTable(0x28) == 0
  {
  }

  /** An opcode the interpreter does not decode is fetched as zero page and has size 0. */
  lemma IllegalOpcode(op: Byte)
    requires Decode(op) == None
    ensures ModeTable(op) == ZeroPage && SizeTable(op) == 0 && CyclesTable(op) == 0
  {
    if op < 0x10 {
    } else if op < 0x20 {
    } else if op < 0x30 {
    } else if op < 0x40 {
    } else if op < 0x50 {
    } else if op < 0x60 {
    } else if op < 0x70 {
    } else if op < 0x80 {
    } else if op < 0x90 {
    } else if op < 0xA0 {
    } else if op < 0xB0 {
    } else if op < 0xC0 {
    } else if op < 0xD0 {
    } else if op < 0xE0 {
    } else if op < 0xF0 {
    } else {
    }
  }

  /** Every conditional branch is decoded with the relative mode. */
  lemma BranchesAreRelative(op: Byte)
    requires Decode(op).Some? && IsBranch(Decode(op).value)
    ensures ModeTable(op) == Relative
  {
    if op % 0x10 == 0 {
    } else if op % 0x10 < 0x8 {
    } else {
    }
  }

  /** Only conditional branches use the relative mode. */
  lemma RelativeOnlyForBranches(op: Byte)
    requires ModeTable(op) == Relative
    ensures Decode(op).Some? && IsBranch(Decode(op).value)
  {
  }

  /** Only the four shifts and rotates use the accumulator mode. */
  lemma AccumulatorModeOnlyForShifts(op: Byte)
    requires ModeTable(op) == Accumulator
    ensures Decode(op).Some? && Decode(op).value in {ASL, LSR, ROL, ROR}
  {
    if op < 0x10 {
    } else if op < 0x20 {
    } else if op < 0x30 {
    } else if op < 0x40 {
    } else if op < 0x50 {
    } else if op < 0x60 {
    } else if op < 0x70 {
    } else if op < 0x80 {
    } else if op < 0x90 {
    } else if op < 0xA0 {
    } else if op < 0xB0 {
    } else if op < 0xC0 {
    } else if op < 0xD0 {
    } else if op < 0xE0 {
    } else if op < 0xF0 {
    } else {
    }
  }
}
