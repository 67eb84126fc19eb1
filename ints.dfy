/**
 * Fixed-width integers of the firmware (an Arduino target with 32-bit `int`
 * and `unsigned long`) and the conversions C performs between them.
 */
module Ints {
  type uint8 = x: int | 0 <= x < 0x100
  type uint16 = x: int | 0 <= x < 0x1_0000
  type uint32 = x: int | 0 <= x < 0x1_0000_0000

  const TWO_32: int := 0x1_0000_0000

  /** Storing an integer into a `uint8_t`: keep the low eight bits. */
  function U8(x: int): uint8 { x % 0x100 }

  /** Unsigned 32-bit arithmetic: keep the low thirty-two bits. */
  function U32(x: int): uint32 { x % TWO_32 }

  /** Reading a 32-bit pattern as a two's-complement `int`. */
  function Int32(x: int): (r: int)
    ensures -0x8000_0000 <= r < 0x8000_0000
    ensures U32(r) == U32(x)
    ensures 0 <= x < 0x8000_0000 ==> r == x
  {
    var u := U32(x);
    if u < 0x8000_0000 then u else u - TWO_32
  }

  /** Truncating to 32 bits and then to 8 bits is truncating to 8 bits. */
  lemma U8OfU32(x: int)
    ensures U8(U32(x)) == U8(x)
  {
    var q := x / TWO_32;
    assert x == q * TWO_32 + U32(x);
    assert q * TWO_32 == (q * 0x100_0000) * 0x100;
  }

  /** Adding whole turns of 256 does not change the low byte. */
  lemma U8Shift(x: int, m: int)
    ensures U8(x + 0x100 * m) == U8(x)
  {
    var q := x / 0x100;
    assert x == 0x100 * q + U8(x);
    assert x + 0x100 * m == 0x100 * (q + m) + U8(x);
  }

  /** Byte-wide addition may truncate before or after adding. */
  lemma U8Add(x: int, d: int)
    ensures U8(U8(x) + d) == U8(x + d)
  {
    U8Shift(U8(x) + d, x / 0x100);
  }

  /** Adding whole turns of 2^32 does not change an unsigned 32-bit value. */
  lemma U32Shift(x: int, m: int)
    ensures U32(x + TWO_32 * m) == U32(x)
  {
    var q := x / TWO_32;
    assert x == TWO_32 * q + U32(x);
    assert x + TWO_32 * m == TWO_32 * (q + m) + U32(x);
  }

  /** Unsigned 32-bit addition may wrap before or after adding. */
  lemma U32Add(x: int, d: int)
    ensures U32(U32(x) + d) == U32(x + d)
  {
    U32Shift(U32(x) + d, x / TWO_32);
  }

  /** Subtracting a value or its two's-complement reading gives the same unsigned 32-bit difference. */
  lemma Int32Diff(a: int, x: int)
    ensures U32(a - Int32(x)) == U32(a - x)
  {
    var q := x / TWO_32;
    assert x == TWO_32 * q + U32(x);
    if U32(x) < 0x8000_0000 {
      assert a - Int32(x) == (a - x) + TWO_32 * q;
      U32Shift(a - x, q);
    } else {
      assert a - Int32(x) == (a - x) + TWO_32 * (q + 1);
      U32Shift(a - x, q + 1);
    }
  }

  /** Adding to a value or to its two's-complement reading gives the same unsigned 32-bit sum. */
  lemma Int32Add(x: int, d: int)
    ensures U32(Int32(x) + d) == U32(x + d)
  {
    Int32Diff(d, -x);
    assert Int32(-x) == -Int32(x) || U32(x) == 0x8000_0000;
  }
}
