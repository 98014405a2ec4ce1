/** An SF2 instrument: the 22-byte `inst` header plus its zones. */
module SF2Instrument {
  import opened Ints
  import opened Bytes
  import opened Wrappers
  import opened SF2Zone

  const InstrumentSize: nat := 22

  datatype Instrument = Instrument(
    name: string,
    readingBagIndex: u16,
    globalZone: Option<Zone>,
    zones: seq<Zone>)

  /** `new Instrument()`: empty name, bag index 0, no zones. */
  const NewInstrument := Instrument("", 0, None, [])

  /** The global zone, when present, followed by the other zones in order. */
  function AllZones(i: Instrument): (r: seq<Zone>)
  {
    ZoneList(ZoneSet(i.globalZone, i.zones))
  }

  /** The zone count, the global zone included. */
  function NumZones(i: Instrument): (n: nat)
    ensures n == |AllZones(i)|
    ensures n == 0 <==> i.globalZone.None? && i.zones == []
  {
    |i.zones| + (if i.globalZone.Some? then 1 else 0)
  }

  /** Builds the list of all zones one zone at a time; the instrument is a value and stays as it was. */
  method GetAllZones(i: Instrument) returns (ret: seq<Zone>)
    ensures |ret| == NumZones(i)
    ensures i.globalZone.Some? ==> ret[0] == i.globalZone.value && ret[1..] == i.zones
    ensures i.globalZone.None? ==> ret == i.zones
  {
    ret := [];
    if i.globalZone.Some? {
      ret := ret + [i.globalZone.value];
    }
    var g := |ret|;
    for k := 0 to |i.zones|
      invariant |ret| == g + k
      invariant ret[g..] == i.zones[..k]
      invariant i.globalZone.Some? ==> g == 1 && ret[0] == i.globalZone.value
      invariant i.globalZone.None? ==> g == 0
    {
      ret := ret + [i.zones[k]];
    }
  }

  lemma NewInstrumentHasNoZones()
    ensures NumZones(NewInstrument) == 0 && AllZones(NewInstrument) == []
  {
  }

  function WriteInstrumentHeader(i: Instrument): (b: Bytes)
    ensures |b| == InstrumentSize
  {
    FixedString(i.name, 20) + LeU16(i.readingBagIndex)
  }

  /** Reading fills a new instrument: the zones stay empty until the bags are read. */
  function ReadInstrumentHeader(b: Bytes): (i: Instrument)
    requires |b| >= InstrumentSize
    ensures i.globalZone.None? && i.zones == []
    ensures i.name == ReadFixedString(b[..20]) && i.readingBagIndex == GetU16(b, 20)
  {
    Instrument(ReadFixedString(b[..20]), GetU16(b, 20), None, [])
  }

  /** Both header fields survive a write and a read when the name fits its field. */
  lemma {:induction false} InstrumentHeaderRoundTrip(i: Instrument)
    requires FitsFixed(i.name, 20)
    ensures ReadInstrumentHeader(WriteInstrumentHeader(i)) == i.(globalZone := None, zones := [])
  {
    var b := WriteInstrumentHeader(i);
    assert b[..20] == FixedString(i.name, 20);
    FixedStringRoundTrip(i.name, 20);
    U16At(b, 20, i.readingBagIndex);
  }
}
