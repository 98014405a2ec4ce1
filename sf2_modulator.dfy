/**
  The 10-byte modulator record. Source, destination, amount source and
  transform are raw 16-bit codes (SF2Modulators, SF2Generators and
  SF2Transforms in the source); codes outside those enumerations are
  carried unchanged.
*/
module SF2Modulator {
  import opened Ints
  import opened Bytes

  const ModulatorSize: nat := 10

  datatype Modulator = Modulator(source: u16, destination: u16, amount: i16, amountSource: u16, transform: u16)

  /** `new Modulator()`: every field zero; the terminal record of a modulator chunk. */
  const DefaultModulator := Modulator(0, 0, 0, 0, 0)

  function WriteModulator(m: Modulator): (b: Bytes)
    ensures |b| == ModulatorSize
  {
    LeU16(m.source) + LeU16(m.destination) + LeI16(m.amount) + LeU16(m.amountSource) + LeU16(m.transform)
  }

  function ReadModulator(b: Bytes): (m: Modulator)
    requires |b| >= ModulatorSize
  {
    Modulator(GetU16(b, 0), GetU16(b, 2), GetI16(b, 4), GetU16(b, 6), GetU16(b, 8))
  }

  lemma {:induction false} ModulatorRoundTrip(m: Modulator)
    ensures ReadModulator(WriteModulator(m)) == m
  {
    var b := WriteModulator(m);
    assert GetI16(b, 4) == GetI16(b[4..], 0);
    assert b[4..] == LeI16(m.amount) + (LeU16(m.amountSource) + LeU16(m.transform));
    I16RoundTrip(m.amount, LeU16(m.amountSource) + LeU16(m.transform));
  }

  /** The terminal record is ten zero bytes. */
  lemma DefaultModulatorIsZeros()
    ensures WriteModulator(DefaultModulator) == [0, 0, 0, 0, 0, 0, 0, 0, 0, 0]
  {
  }
}
