/** Fixed-width integers of the driver's C code and the byte-level
    conversions the driver relies on: bitwise OR of register addresses,
    big-endian two's-complement decoding, and 16-bit wrap-around. */
module Bytes {

  type u8 = x: int | 0 <= x < 0x100
  type u16 = x: int | 0 <= x < 0x1_0000
  type u32 = x: int | 0 <= x < 0x1_0000_0000
  type i16 = x: int | -0x8000 <= x < 0x8000

  function Pow2(n: nat): (r: nat)
    ensures r >= 1
  {
    if n == 0 then 1 else 2 * Pow2(n - 1)
  }

  /** Bitwise OR of the low `n` bits of `a` and `b`, least significant bit first. */
  function OrBits(a: nat, b: nat, n: nat): nat
  {
    if n == 0 then 0
    else (if a % 2 == 1 || b % 2 == 1 then 1 else 0) + 2 * OrBits(a / 2, b / 2, n - 1)
  }

  /** The OR of `n` bits fits in `n` bits. */
  lemma {:induction false} OrBitsBound(a: nat, b: nat, n: nat)
    ensures OrBits(a, b, n) < Pow2(n)
  {
    if n > 0 {
      OrBitsBound(a / 2, b / 2, n - 1);
    }
  }

  /** C's `|` on two `uint8_t` values. */
  function Or8(a: u8, b: u8): u8
  {
    OrBitsBound(a, b, 8);
    assert Pow2(8) == 0x100;
    OrBits(a, b, 8)
  }

  /** OR-ing in 0x80 sets the top bit and keeps the other seven bits. */
  lemma Or8HighBit(reg: u8)
    ensures reg < 0x80 ==> Or8(0x80, reg) == reg + 0x80
    ensures reg >= 0x80 ==> Or8(0x80, reg) == reg
  {
    assert Pow2(7) == 0x80 && Pow2(8) == 0x100;
    if reg < 0x80 {
      OrTopBitClear(reg, 8);
    } else {
      OrTopBitSet(reg, 8);
    }
  }

  /** OR-ing in 0x00 is the identity. */
  lemma Or8Zero(reg: u8)
    ensures Or8(0x00, reg) == reg
  {
    assert Pow2(8) == 0x100;
    OrZeroBits(reg, 8);
  }

  lemma {:induction false} OrZeroBits(x: nat, n: nat)
    requires x < Pow2(n)
    ensures OrBits(0, x, n) == x
  {
    if n > 0 {
      OrZeroBits(x / 2, n - 1);
    }
  }

  lemma {:induction false} OrTopBitClear(x: nat, n: nat)
    requires n >= 1 && x < Pow2(n - 1)
    ensures OrBits(Pow2(n - 1), x, n) == x + Pow2(n - 1)
  {
    if n == 1 {
      assert x == 0;
    } else {
      assert Pow2(n - 1) / 2 == Pow2(n - 2);
      OrTopBitClear(x / 2, n - 1);
    }
  }

  lemma {:induction false} OrTopBitSet(x: nat, n: nat)
    requires n >= 1 && Pow2(n - 1) <= x < Pow2(n)
    ensures OrBits(Pow2(n - 1), x, n) == x
  {
    if n == 1 {
      assert x == 1;
    } else {
      assert Pow2(n - 1) / 2 == Pow2(n - 2);
      OrTopBitSet(x / 2, n - 1);
    }
  }

  /** Conversion of any integer to `int16_t`: the value congruent to `n`
      modulo 2^16 that lies in the signed range. */
  function Wrap16(n: int): (r: i16)
    ensures (r - n) % 0x1_0000 == 0
    ensures -0x8000 <= n < 0x8000 ==> r == n
  {
    var m := n % 0x1_0000;
    if m >= 0x8000 then m - 0x1_0000 else m
  }

  /** Negation as the remap writes it: the operand is first stored in a
      `uint16_t`, negated in `int` and stored back into an `int16_t`. */
  function WrapNeg16(a: i16): (r: i16)
    ensures a != -0x8000 ==> r == -a
    ensures a == -0x8000 ==> r == -0x8000
  {
    var temp: int := a % 0x1_0000;
    Wrap16(-temp)
  }

  /** Wrapping negation undoes itself, including at -32768. */
  lemma WrapNeg16Involutive(a: i16)
    ensures WrapNeg16(WrapNeg16(a)) == a
  {
  }

  /** The high byte of a 16-bit two's-complement value. */
  function HighByte(x: i16): u8
  {
    (x % 0x1_0000) / 0x100
  }

  /** The low byte of a 16-bit two's-complement value. */
  function LowByte(x: i16): u8
  {
    x % 0x100
  }

  /** Big-endian two's-complement decoding of a (high, low) byte pair. */
  function DecodeI16(hi: u8, lo: u8): (r: i16)
    ensures HighByte(r) == hi && LowByte(r) == lo
    ensures r < 0 <==> hi >= 0x80
  {
    var u := hi * 0x100 + lo;
    if u >= 0x8000 then u - 0x1_0000 else u
  }

  /** Splitting a value into bytes and decoding them gives the value back. */
  lemma DecodeI16OfBytes(x: i16)
    ensures DecodeI16(HighByte(x), LowByte(x)) == x
  {
    var u := if x < 0 then x + 0x1_0000 else x;
    assert x % 0x1_0000 == u;
    assert LowByte(x) == u % 0x100;
    assert HighByte(x) * 0x100 + LowByte(x) == u;
  }
}
