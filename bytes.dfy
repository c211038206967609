/**
 * Integer helpers shared by every component of the emulator model.
 *
 * The Java source keeps bytes in `int` and `short` variables and narrows them
 * with masks such as `& 0xFF`. For a mask of the low k bits, Java's `x & mask`
 * equals the Euclidean remainder `x % 2^k` (also for negative x), and Java's
 * arithmetic shift `x >> k` equals the Euclidean quotient `x / 2^k`; Dafny's
 * `%` and `/` on `int` are Euclidean, so those two operations are written with
 * them throughout.
 */
module Bytes {

  /** An 8-bit value as the emulator stores it in `short`/`int` cells. */
  type Byte = x: int | 0 <= x < 0x100

  /** A 16-bit CPU address. */
  type Word = x: int | 0 <= x < 0x10000

  datatype Option<T> = None | Some(value: T)

  /** Java's `x & 0xFF`. */
  function Low8(x: int): Byte
  {
    x % 0x100
  }

  /** Java's `x & 0xFFFF`. */
  function Low16(x: int): Word
  {
    x % 0x10000
  }

  /** Java's `(x >> 7) & 1 != 0`: bit 7 of the two's-complement representation. */
  function Bit7(x: int): bool
  {
    Low8(x) >= 0x80
  }

  /** `2^n` */
  function Pow2(n: nat): (r: nat)
    ensures r >= 1
  {
    if n == 0 then 1 else 2 * Pow2(n - 1)
  }

  /** Bit n of a non-negative value, as Java's `(x >> n) & 1 != 0`. */
  function BitAt(x: int, n: nat): bool
  {
    (x / Pow2(n)) % 2 == 1
  }

  /** Java's `a & b` on two bytes. */
  function And8(a: Byte, b: Byte): Byte
  {
    ((a as bv8) & (b as bv8)) as int
  }

  /** Java's `a | b` on two bytes. */
  function Or8(a: Byte, b: Byte): Byte
  {
    ((a as bv8) | (b as bv8)) as int
  }

  /** Java's `a ^ b` on two bytes. */
  function Xor8(a: Byte, b: Byte): Byte
  {
    ((a as bv8) ^ (b as bv8)) as int
  }

  /** The value a byte stands for when read as a two's-complement signed number. */
  function Signed(x: Byte): int
  {
    if x < 0x80 then x else x - 0x100
  }

  /** Little-endian 16-bit value, as `lo | ((hi << 8) & 0xFF00)`. */
  function Word16(lo: Byte, hi: Byte): Word
  {
    lo + 0x100 * hi
  }

  /** Splitting a word into its low and high bytes and joining them gives it back. */
  lemma Word16Split(w: Word)
    ensures Word16(Low8(w), Low8(w / 0x100)) == w
  {
  }

  /** Converting a byte to `bv8` and back loses nothing (argued one high nibble at a time). */
  lemma ByteBv8RoundTrip(x: Byte)
    ensures (x as bv8) as int == x
  {
    if x < 0x10 {
    } else if x < 0x20 {
    } else if x < 0x30 {
    } else if x < 0x40 {
    } else if x < 0x50 {
    } else if x < 0x60 {
    } else if x < 0x70 {
    } else if x < 0x80 {
    } else if x < 0x90 {
    } else if x < 0xA0 {
    } else if x < 0xB0 {
    } else if x < 0xC0 {
    } else if x < 0xD0 {
    } else if x < 0xE0 {
    } else if x < 0xF0 {
    } else {
    }
  }

  /** A byte as the low half of a 16-bit vector, for the registers kept as `bv16`. */
  function Widen(x: Byte): (r: bv16)
    ensures r < 0x100
  {
    (x as bv8) as bv16
  }

  lemma Bv8ByteRoundTrip(b: bv8)
    ensures ((b as int) as bv8) == b
  {
  }
}
