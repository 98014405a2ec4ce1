/**
  The fixed-width integers of the C# source (byte, sbyte, ushort, short,
  uint, int) as subsets of the unbounded integers, together with the
  unchecked casts and the truncating division the source relies on.
*/
module Ints {

  type u8 = x: int | 0 <= x < 0x100
  type i8 = x: int | -0x80 <= x < 0x80
  type u16 = x: int | 0 <= x < 0x1_0000
  type i16 = x: int | -0x8000 <= x < 0x8000
  type u32 = x: int | 0 <= x < 0x1_0000_0000
  type i32 = x: int | -0x8000_0000 <= x < 0x8000_0000

  /** `(byte)x`: keep the low 8 bits. */
  function ToU8(x: int): (r: u8)
    ensures 0 <= x < 0x100 ==> r == x
    ensures -0x80 <= x < 0 ==> r == x + 0x100
  {
    x % 0x100
  }

  /** `(ushort)x`: keep the low 16 bits. */
  function ToU16(x: int): (r: u16)
    ensures 0 <= x < 0x1_0000 ==> r == x
    ensures -0x8000 <= x < 0 ==> r == x + 0x1_0000
  {
    x % 0x1_0000
  }

  /** `(uint)x`: keep the low 32 bits. */
  function ToU32(x: int): (r: u32)
    ensures 0 <= x < 0x1_0000_0000 ==> r == x
    ensures -0x1_0000_0000 <= x < 0 ==> r == x + 0x1_0000_0000
    ensures 0x1_0000_0000 <= x < 0x2_0000_0000 ==> r == x - 0x1_0000_0000
  {
    x % 0x1_0000_0000
  }

  /** `(short)x`: keep the low 16 bits and read them as two's complement. */
  function ToI16(x: int): (r: i16)
    ensures -0x8000 <= x < 0x8000 ==> r == x
    ensures 0x8000 <= x < 0x1_0000 ==> r == x - 0x1_0000
  {
    var u := x % 0x1_0000;
    if u < 0x8000 then u else u - 0x1_0000
  }

  /** `(sbyte)x`: keep the low 8 bits and read them as two's complement. */
  function ToI8(x: int): (r: i8)
    ensures -0x80 <= x < 0x80 ==> r == x
    ensures 0x80 <= x < 0x100 ==> r == x - 0x100
  {
    var u := x % 0x100;
    if u < 0x80 then u else u - 0x100
  }

  /**
    The integer part of a 16.16 fixed-point value as C#'s `x / 65536`
    computes it: rounded toward zero (Dafny's `/` is Euclidean).
  */
  function FixedToInt(a: int): (q: int)
    ensures a >= 0 ==> 0 <= q * 0x1_0000 <= a < q * 0x1_0000 + 0x1_0000
    ensures a < 0 ==> q * 0x1_0000 - 0x1_0000 < a <= q * 0x1_0000 <= 0
  {
    if a >= 0 then a / 0x1_0000 else -((-a) / 0x1_0000)
  }

  /** Adding a multiple of 2^16 does not change the low 16 bits. */
  lemma ModMultiple16(x: int, q: int)
    ensures (x + q * 0x1_0000) % 0x1_0000 == x % 0x1_0000
  {
    var r := x % 0x1_0000;
    var d := x / 0x1_0000;
    assert x == d * 0x1_0000 + r;
    assert x + q * 0x1_0000 == (d + q) * 0x1_0000 + r;
  }

  /** A running `ushort` counter: adding the truncated operands keeps the truncated sum. */
  lemma ToU16Add(a: int, b: int)
    ensures ToU16(ToU16(a) + ToU16(b)) == ToU16(a + b)
  {
    var ra, rb := a % 0x1_0000, b % 0x1_0000;
    assert a == (a / 0x1_0000) * 0x1_0000 + ra;
    assert b == (b / 0x1_0000) * 0x1_0000 + rb;
    ModMultiple16(ra + rb, a / 0x1_0000 + b / 0x1_0000);
    assert a + b == ra + rb + (a / 0x1_0000 + b / 0x1_0000) * 0x1_0000;
  }
}
