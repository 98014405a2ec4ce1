/**
  A generator's 16-bit amount. The source overlays four views on the same
  two bytes: the low byte, the high byte, a signed and an unsigned 16-bit
  value. The model stores the two bytes and derives the other views.
*/
module SF2GeneratorAmount {
  import opened Ints

  datatype GeneratorAmount = GeneratorAmount(lowByte: u8, highByte: u8)

  /** The unsigned view: both bytes read little-endian. */
  function UAmount(a: GeneratorAmount): (u: u16)
    ensures u % 0x100 == a.lowByte && u / 0x100 == a.highByte
  {
    a.lowByte + 0x100 * a.highByte
  }

  /** The signed view: the same 16 bits read as two's complement. */
  function Amount(a: GeneratorAmount): (s: i16)
    ensures UAmount(a) < 0x8000 ==> s == UAmount(a)
    ensures UAmount(a) >= 0x8000 ==> s == UAmount(a) - 0x1_0000
  {
    ToI16(UAmount(a))
  }

  /** Setting the unsigned view. */
  function FromUAmount(u: u16): (a: GeneratorAmount)
    ensures UAmount(a) == u
  {
    GeneratorAmount(u % 0x100, u / 0x100)
  }

  /** Setting the signed view. */
  function FromAmount(s: i16): (a: GeneratorAmount)
    ensures Amount(a) == s
    ensures UAmount(a) == ToU16(s)
  {
    FromUAmount(ToU16(s))
  }

  /** The signed and the unsigned views agree exactly when the top bit is clear. */
  lemma SignedMatchesUnsigned(a: GeneratorAmount)
    ensures Amount(a) == UAmount(a) <==> UAmount(a) < 0x8000
  {
  }

  /** Emitting the signed view and storing it back gives the same two bytes. */
  lemma {:induction false} SignedViewRoundTrip(a: GeneratorAmount)
    ensures FromAmount(Amount(a)) == a
  {
    var u := UAmount(a);
    assert ToU16(Amount(a)) == u;
  }
}
