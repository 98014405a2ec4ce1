/**
  Little-endian field encodings used by every fixed-size record of both
  formats, and the fixed-width, zero-padded text field of the SF2 headers.
*/
module Bytes {
  import opened Ints

  type Bytes = seq<u8>

  function LeU16(x: u16): (b: Bytes)
    ensures |b| == 2
  {
    [x % 0x100, x / 0x100]
  }

  function GetU16(b: Bytes, off: nat): (x: u16)
    requires off + 2 <= |b|
  {
    b[off] as int + 0x100 * b[off + 1] as int
  }

  function LeU32(x: u32): (b: Bytes)
    ensures |b| == 4
  {
    LeU16(x % 0x1_0000) + LeU16(x / 0x1_0000)
  }

  function GetU32(b: Bytes, off: nat): (x: u32)
    requires off + 4 <= |b|
  {
    GetU16(b, off) + 0x1_0000 * GetU16(b, off + 2)
  }

  /** A signed 16-bit value is stored as the unsigned value with the same bits. */
  function LeI16(x: i16): (b: Bytes)
    ensures |b| == 2
  {
    LeU16(ToU16(x))
  }

  function GetI16(b: Bytes, off: nat): (x: i16)
    requires off + 2 <= |b|
  {
    ToI16(GetU16(b, off))
  }

  function LeI32(x: i32): (b: Bytes)
    ensures |b| == 4
  {
    LeU32(ToU32(x))
  }

  function GetI32(b: Bytes, off: nat): (x: i32)
    requires off + 4 <= |b|
  {
    var u := GetU32(b, off);
    if u < 0x8000_0000 then u else u - 0x1_0000_0000
  }

  lemma U16RoundTrip(x: u16, rest: Bytes)
    ensures GetU16(LeU16(x) + rest, 0) == x
  {
  }

  lemma U32RoundTrip(x: u32, rest: Bytes)
    ensures GetU32(LeU32(x) + rest, 0) == x
  {
    var b := LeU32(x) + rest;
    U16RoundTrip(x % 0x1_0000, LeU16(x / 0x1_0000) + rest);
    assert b[2..] == LeU16(x / 0x1_0000) + rest;
    U16RoundTrip(x / 0x1_0000, rest);
    assert GetU16(b, 2) == GetU16(b[2..], 0);
  }

  lemma I16RoundTrip(x: i16, rest: Bytes)
    ensures GetI16(LeI16(x) + rest, 0) == x
  {
  }

  /** A slice that lies within the left part of a concatenation. */
  lemma SliceLeft(c: Bytes, d: Bytes, i: nat, j: nat)
    requires i <= j <= |c|
    ensures (c + d)[i..j] == c[i..j]
  {
  }

  /** The right part of a concatenation starts where the left part ends. */
  lemma SliceRight(c: Bytes, d: Bytes)
    ensures (c + d)[|c|..|c| + |d|] == d
  {
  }

  /** A 16-bit field written at off reads back from off. */
  lemma U16At(b: Bytes, off: nat, x: u16)
    requires off + 2 <= |b| && b[off..off + 2] == LeU16(x)
    ensures GetU16(b, off) == x
  {
    assert b[off] == LeU16(x)[0] && b[off + 1] == LeU16(x)[1];
  }

  /** A 32-bit field written at off reads back from off. */
  lemma U32At(b: Bytes, off: nat, x: u32)
    requires off + 4 <= |b| && b[off..off + 4] == LeU32(x)
    ensures GetU32(b, off) == x
  {
    U32RoundTrip(x, []);
    assert LeU32(x) + [] == LeU32(x);
    var c := LeU32(x);
    assert b[off] == c[0] && b[off + 1] == c[1] && b[off + 2] == c[2] && b[off + 3] == c[3];
  }

  lemma I32RoundTrip(x: i32, rest: Bytes)
    ensures GetI32(LeI32(x) + rest, 0) == x
  {
    U32RoundTrip(ToU32(x), rest);
  }

  /** A signed 16-bit field written at off reads back from off. */
  lemma I16At(b: Bytes, off: nat, x: i16)
    requires off + 2 <= |b| && b[off..off + 2] == LeI16(x)
    ensures GetI16(b, off) == x
  {
    U16At(b, off, ToU16(x));
  }

  /** A signed 32-bit field written at off reads back from off. */
  lemma I32At(b: Bytes, off: nat, x: i32)
    requires off + 4 <= |b| && b[off..off + 4] == LeI32(x)
    ensures GetI32(b, off) == x
  {
    U32At(b, off, ToU32(x));
  }

  // ---------------------------------------------------------------------
  // Fixed-width names. The SF2 headers hold a 20-byte name written with
  // the IO library's WriteFixedString and read with ReadFixedString. The
  // model takes one byte per character (its code modulo 256), truncates
  // or zero-pads to the width on write, and stops at the first zero byte
  // on read.

  function CharByte(c: char): u8
  {
    (c as int) % 0x100
  }

  function FixedString(s: string, width: nat): (b: Bytes)
    ensures |b| == width
    ensures forall k :: 0 <= k < width && k < |s| ==> b[k] == CharByte(s[k])
    ensures forall k :: |s| <= k < width ==> b[k] == 0
  {
    seq(width, k requires 0 <= k < width => if k < |s| then CharByte(s[k]) else 0)
  }

  function ReadFixedString(b: Bytes): (s: string)
    ensures |s| <= |b|
    ensures forall k :: 0 <= k < |s| ==> b[k] != 0 && s[k] == b[k] as char
    ensures |s| < |b| ==> b[|s|] == 0
  {
    if |b| == 0 || b[0] == 0 then "" else [b[0] as char] + ReadFixedString(b[1..])
  }

  /** A name survives the fixed-width field when it fits and every character is one non-zero byte. */
  predicate FitsFixed(s: string, width: nat)
  {
    |s| <= width && forall k :: 0 <= k < |s| ==> 0 < s[k] as int < 0x100
  }

  lemma {:induction false} FixedStringRoundTrip(s: string, width: nat)
    requires FitsFixed(s, width)
    ensures ReadFixedString(FixedString(s, width)) == s
  {
    var b := FixedString(s, width);
    if |s| == 0 {
      assert width > 0 ==> b[0] == 0;
    } else {
      assert b[0] as char == s[0];
      assert b[1..] == FixedString(s[1..], width - 1);
      FixedStringRoundTrip(s[1..], width - 1);
    }
  }
}
