/** A DLS instrument: a name, its MIDI bank and program, and its regions in order. */
module DLSInstrument {
  import opened Ints
  import opened DLSRegion

  datatype Instrument = Instrument(name: string, bankId: u32, instrumentId: u32, regions: seq<Region>)

  /** `new Instrument()`: empty name, bank and program 0, no regions. */
  const NewInstrument := Instrument("", 0, 0, [])
}
