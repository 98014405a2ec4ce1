/** An SF2 preset: the 38-byte `phdr` header plus its zones. */
module SF2Preset {
  import opened Ints
  import opened Bytes
  import opened Wrappers
  import opened SF2Zone

  const PresetSize: nat := 38

  /**
    The bag index is meaningful only while reading or writing: the writer
    sets it to the preset's first bag, the reader uses it to find the zones.
  */
  datatype Preset = Preset(
    name: string,
    presetNumber: u16,
    bank: u16,
    readingBagIndex: u16,
    library: u32,
    genre: u32,
    morphology: u32,
    globalZone: Option<Zone>,
    zones: seq<Zone>)

  /** `new Preset()`: empty name, zero fields, no global zone, no zones. */
  const NewPreset := Preset("", 0, 0, 0, 0, 0, 0, None, [])

  /** The global zone, when present, followed by the other zones in order. */
  function AllZones(p: Preset): (r: seq<Zone>)
  {
    ZoneList(ZoneSet(p.globalZone, p.zones))
  }

  /** The zone count, the global zone included. */
  function NumZones(p: Preset): (n: nat)
    ensures n == |AllZones(p)|
    ensures n == 0 <==> p.globalZone.None? && p.zones == []
  {
    |p.zones| + (if p.globalZone.Some? then 1 else 0)
  }

  /**
    Builds the list of all zones one zone at a time into a fresh list; the
    preset is a value and stays as it was.
  */
  method GetAllZones(p: Preset) returns (ret: seq<Zone>)
    ensures |ret| == NumZones(p)
    ensures p.globalZone.Some? ==> ret[0] == p.globalZone.value && ret[1..] == p.zones
    ensures p.globalZone.None? ==> ret == p.zones
  {
    ret := [];
    if p.globalZone.Some? {
      ret := ret + [p.globalZone.value];
    }
    var g := |ret|;
    for k := 0 to |p.zones|
      invariant |ret| == g + k
      invariant ret[g..] == p.zones[..k]
      invariant p.globalZone.Some? ==> g == 1 && ret[0] == p.globalZone.value
      invariant p.globalZone.None? ==> g == 0
    {
      ret := ret + [p.zones[k]];
    }
  }

  lemma NewPresetHasNoZones()
    ensures NumZones(NewPreset) == 0 && AllZones(NewPreset) == []
  {
  }

  function WritePresetHeader(p: Preset): (b: Bytes)
    ensures |b| == PresetSize
  {
    FixedString(p.name, 20) + LeU16(p.presetNumber) + LeU16(p.bank) + LeU16(p.readingBagIndex)
      + LeU32(p.library) + LeU32(p.genre) + LeU32(p.morphology)
  }

  /** Reading fills a new preset: the zones stay empty until the bags are read. */
  function ReadPresetHeader(b: Bytes): (p: Preset)
    requires |b| >= PresetSize
    ensures p.globalZone.None? && p.zones == []
    ensures p.name == ReadFixedString(b[..20])
    ensures p.presetNumber == GetU16(b, 20) && p.bank == GetU16(b, 22) && p.readingBagIndex == GetU16(b, 24)
    ensures p.library == GetU32(b, 26) && p.genre == GetU32(b, 30) && p.morphology == GetU32(b, 34)
  {
    Preset(ReadFixedString(b[..20]), GetU16(b, 20), GetU16(b, 22), GetU16(b, 24),
           GetU32(b, 26), GetU32(b, 30), GetU32(b, 34), None, [])
  }

  /** The seven header fields survive a write and a read when the name fits its field. */
  lemma {:induction false} PresetHeaderRoundTrip(p: Preset)
    requires FitsFixed(p.name, 20)
    ensures ReadPresetHeader(WritePresetHeader(p)) == p.(globalZone := None, zones := [])
  {
    var f := FixedString(p.name, 20);
    var a1 := f + LeU16(p.presetNumber);
    var a2 := a1 + LeU16(p.bank);
    var a3 := a2 + LeU16(p.readingBagIndex);
    var a4 := a3 + LeU32(p.library);
    var a5 := a4 + LeU32(p.genre);
    var b := a5 + LeU32(p.morphology);
    assert b == WritePresetHeader(p);
    // Each field is the right part of one prefix and stays put as the later fields are appended.
    SliceLeft(a1, LeU16(p.bank), 0, 20);
    SliceLeft(a2, LeU16(p.readingBagIndex), 0, 20);
    SliceLeft(a3, LeU32(p.library), 0, 20);
    SliceLeft(a4, LeU32(p.genre), 0, 20);
    SliceLeft(a5, LeU32(p.morphology), 0, 20);
    SliceLeft(f, LeU16(p.presetNumber), 0, 20);
    assert f[0..20] == f;
    assert b[..20] == b[0..20];
    FixedStringRoundTrip(p.name, 20);
    SliceRight(f, LeU16(p.presetNumber));
    SliceLeft(a1, LeU16(p.bank), 20, 22);
    SliceLeft(a2, LeU16(p.readingBagIndex), 20, 22);
    SliceLeft(a3, LeU32(p.library), 20, 22);
    SliceLeft(a4, LeU32(p.genre), 20, 22);
    SliceLeft(a5, LeU32(p.morphology), 20, 22);
    U16At(b, 20, p.presetNumber);
    SliceRight(a1, LeU16(p.bank));
    SliceLeft(a2, LeU16(p.readingBagIndex), 22, 24);
    SliceLeft(a3, LeU32(p.library), 22, 24);
    SliceLeft(a4, LeU32(p.genre), 22, 24);
    SliceLeft(a5, LeU32(p.morphology), 22, 24);
    U16At(b, 22, p.bank);
    SliceRight(a2, LeU16(p.readingBagIndex));
    SliceLeft(a3, LeU32(p.library), 24, 26);
    SliceLeft(a4, LeU32(p.genre), 24, 26);
    SliceLeft(a5, LeU32(p.morphology), 24, 26);
    U16At(b, 24, p.readingBagIndex);
    SliceRight(a3, LeU32(p.library));
    SliceLeft(a4, LeU32(p.genre), 26, 30);
    SliceLeft(a5, LeU32(p.morphology), 26, 30);
    U32At(b, 26, p.library);
    SliceRight(a4, LeU32(p.genre));
    SliceLeft(a5, LeU32(p.morphology), 30, 34);
    U32At(b, 30, p.genre);
    SliceRight(a5, LeU32(p.morphology));
    U32At(b, 34, p.morphology);
  }
}
