/**
 * Fixed-width integers of the emulator, written out over unbounded integers.
 *
 * The C source keeps registers in `uint8_t`, the program counter in `uint16_t`
 * and the six status flags in `uint8_t` fields that only ever hold 0 or 1.
 * Every implicit C truncation to one of these widths is written here as an
 * explicit reduction modulo 2^8 or 2^16 (Dafny's `%` is Euclidean, which is
 * exactly the C conversion to an unsigned type).
 */
module Bits {

  /** An unsigned 8-bit value (`uint8_t`). */
  type Byte = b: int | 0 <= b < 0x100

  /** An unsigned 16-bit value (`uint16_t`). */
  type Word = w: int | 0 <= w < 0x1_0000

  /** A status flag: a `uint8_t` field to which the source only assigns 0 or 1. */
  type Bit = f: int | 0 <= f < 2

  /** Conversion of an arbitrary C `int` to `uint8_t`. */
  function Wrap8(k: int): Byte {
    k % 0x100
  }

  /** Conversion of an arbitrary C `int` to `uint16_t`. */
  function Wrap16(k: int): Word {
    k % 0x1_0000
  }

  /** The C comparison operators yield the `int` 1 or 0. */
  function Flag(b: bool): Bit {
    if b then 1 else 0
  }

  /** `v == 0 ? 1 : 0`, the Zero-flag update used throughout the source. */
  function IsZero(v: Byte): Bit {
    Flag(v == 0)
  }

  /** `(v >> 7) & 1`, the Negative-flag update used throughout the source. */
  function Bit7(v: Byte): Bit {
    v / 0x80
  }

  /** `(v >> k) & 1` for a non-negative `v`: k halvings, then the low bit. */
  function BitAt(v: Byte, k: nat): Bit
    requires k < 8
  {
    if k == 0 then v % 2 else BitAt(v / 2, k - 1)
  }

  /** 2^k, the factor `v << k` multiplies by. */
  function Pow2(k: nat): (p: nat)
    ensures p >= 1
  {
    if k == 0 then 1 else 2 * Pow2(k - 1)
  }

  /** From 2^8 on, every power of two is a multiple of 256: its low byte is 0. */
  lemma {:induction false} Pow2LowByteZero(k: nat)
    requires 8 <= k
    ensures Pow2(k) % 0x100 == 0
  {
    if k == 8 {
      assert Pow2(8) == 0x100;
    } else {
      Pow2LowByteZero(k - 1);
      assert Pow2(k) == 2 * Pow2(k - 1);
    }
  }

  /** The cast `(int8_t) v`: the two's-complement reading of a byte. */
  function SignExtend(v: Byte): int {
    if v < 0x80 then v else v - 0x100
  }

  /** The low byte of a word, `(uint8_t) w`. */
  function Lo(w: Word): Byte {
    w % 0x100
  }

  /** The high byte of a word, `w >> 8`. */
  function Hi(w: Word): Byte {
    w / 0x100
  }

  /** Bitwise `&` of two bytes. */
  function And8(p: Byte, q: Byte): Byte {
    ((p as bv8) & (q as bv8)) as int
  }

  /** Bitwise `|` of two bytes. */
  function Or8(p: Byte, q: Byte): Byte {
    ((p as bv8) | (q as bv8)) as int
  }

  /**
   * `(uint8_t)(v << k)` where `v` is promoted to `int`. For k >= 8 every
   * surviving bit is shifted out of the low byte, so the result is 0.
   */
  function ShiftLeft8(v: Byte, k: Byte): Byte {
    if k >= 8 then 0 else (v * Pow2(k)) % 0x100
  }

  /** The shortcut for k >= 8 agrees with truncating `v * 2^k` for every count. */
  lemma ShiftLeft8Truncates(v: Byte, k: Byte)
    ensures ShiftLeft8(v, k) == (v * Pow2(k)) % 0x100
  {
    if k >= 8 {
      Pow2LowByteZero(k);
      MultipleLowByteZero(v, Pow2(k));
    }
  }

  /** Any multiple of a number whose low byte is 0 has low byte 0. */
  lemma {:induction false} MultipleLowByteZero(v: nat, p: nat)
    requires p % 0x100 == 0
    ensures (v * p) % 0x100 == 0
  {
    if v > 0 {
      MultipleLowByteZero(v - 1, p);
      var previous := (v - 1) * p;
      assert v * p == previous + p;
      assert previous % 0x100 == 0;
    }
  }

  /** `(uint8_t)((v << 1) | (v >> 7))`: rotate left by one, bit 7 into bit 0. */
  function RotateLeft8(v: Byte): Byte {
    (v * 2) % 0x100 + v / 0x80
  }

  /** `(uint8_t)((v >> 1) | (v << 7))`: rotate right by one, bit 0 into bit 7. */
  function RotateRight8(v: Byte): Byte {
    v / 2 + (v % 2) * 0x80
  }
}
