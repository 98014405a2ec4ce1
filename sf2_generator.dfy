/** The 4-byte generator record: a kind code followed by a signed amount. */
module SF2Generator {
  import opened Ints
  import opened Bytes
  import opened SF2GeneratorAmount

  const GeneratorSize: nat := 4

  /** A kind is any 16-bit code, whether or not the enumeration names it. */
  datatype Generator = Generator(gen: u16, amount: GeneratorAmount)

  /** `new Generator()`: kind 0 and a zero amount; the terminal record of a generator chunk. */
  const DefaultGenerator := Generator(0, GeneratorAmount(0, 0))

  function WriteGenerator(g: Generator): (b: Bytes)
    ensures |b| == GeneratorSize
  {
    LeU16(g.gen) + LeI16(Amount(g.amount))
  }

  /** Read stores only the signed view; the other views read the same 16 bits. */
  function ReadGenerator(b: Bytes): (g: Generator)
    requires |b| >= GeneratorSize
    ensures Amount(g.amount) == GetI16(b, 2)
  {
    Generator(GetU16(b, 0), FromAmount(GetI16(b, 2)))
  }

  /** The kind code and all views of the amount survive a write and a read. */
  lemma {:induction false} GeneratorRoundTrip(g: Generator)
    ensures ReadGenerator(WriteGenerator(g)) == g
  {
    var b := WriteGenerator(g);
    U16RoundTrip(g.gen, LeI16(Amount(g.amount)));
    assert b[2..] == LeI16(Amount(g.amount));
    I16RoundTrip(Amount(g.amount), []);
    assert GetI16(b, 2) == GetI16(b[2..], 0);
    SignedViewRoundTrip(g.amount);
  }

  /** The terminal record is four zero bytes. */
  lemma DefaultGeneratorIsZeros()
    ensures WriteGenerator(DefaultGenerator) == [0, 0, 0, 0]
  {
    DefaultGeneratorFields();
    ZeroFields();
  }

  lemma DefaultGeneratorFields()
    ensures WriteGenerator(DefaultGenerator) == LeU16(0) + LeI16(0)
  {
    assert UAmount(DefaultGenerator.amount) == 0;
  }

  lemma ZeroFields()
    ensures LeU16(0) + LeI16(0) == [0, 0, 0, 0]
  {
    assert ToU16(0) == 0;
  }
}
