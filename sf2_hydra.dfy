/**
  The SF2 file as the sound-bank code sees it: the sample-data chunk as
  16-bit samples and the nine hydra sub-chunks as byte payloads, together
  with what reading and writing them means for presets, instruments and
  samples (SoundFont 2.04, sections 6 and 7). Locating the chunks inside
  the RIFF container and the INFO chunk are not part of this model.
*/
module SF2Hydra {
  import opened Ints
  import opened Bytes
  import opened Wrappers
  import opened Records
  import opened Lists
  import opened RiffWave
  import opened SF2Generators
  import opened SF2Generator
  import opened SF2Modulator
  import opened SF2Zone
  import opened SF2Preset
  import opened SF2Instrument
  import opened SF2SampleItem
  import opened SF2Bags
  import opened SF2ZoneGroups
  import opened SF2ZoneLayout

  /** The bag, modulator and generator sub-chunks of presets (pbag, pmod, pgen) or instruments (ibag, imod, igen). */
  datatype ZoneChunks = ZoneChunks(bag: Bytes, mod: Bytes, gen: Bytes)

  datatype SF2File = SF2File(
    smpl: seq<i16>,
    phdr: Bytes, presetZones: ZoneChunks,
    inst: Bytes, instrumentZones: ZoneChunks,
    shdr: Bytes)

  datatype Contents = Contents(presets: seq<Preset>, instruments: seq<Instrument>, samples: seq<SampleItem>)

  // ---------------------------------------------------------------------
  // Presets and instruments as zone sets.

  function PresetSets(ps: seq<Preset>): (r: seq<ZoneSet>)
    ensures |r| == |ps| && forall i :: 0 <= i < |ps| ==> r[i] == ZoneSet(ps[i].globalZone, ps[i].zones)
  {
    seq(|ps|, i requires 0 <= i < |ps| => ZoneSet(ps[i].globalZone, ps[i].zones))
  }

  function InstrumentSets(insts: seq<Instrument>): (r: seq<ZoneSet>)
    ensures |r| == |insts| && forall i :: 0 <= i < |insts| ==> r[i] == ZoneSet(insts[i].globalZone, insts[i].zones)
  {
    seq(|insts|, i requires 0 <= i < |insts| => ZoneSet(insts[i].globalZone, insts[i].zones))
  }

  /** The presets as the writer leaves them: each bag index set to its first bag. */
  function PresetsWithBagIndices(ps: seq<Preset>): (r: seq<Preset>)
    ensures |r| == |ps|
  {
    seq(|ps|, i requires 0 <= i < |ps| => ps[i].(readingBagIndex := StartAt(PresetSets(ps), i)))
  }

  function InstrumentsWithBagIndices(insts: seq<Instrument>): (r: seq<Instrument>)
    ensures |r| == |insts|
  {
    seq(|insts|, i requires 0 <= i < |insts| => insts[i].(readingBagIndex := StartAt(InstrumentSets(insts), i)))
  }

  /** The terminal preset record: "EOP", preset and bank 255, the bag total. */
  function EndOfPresets(bagTotal: u16): Preset
  {
    Preset("EOP", 255, 255, bagTotal, 0, 0, 0, None, [])
  }

  /** The terminal instrument record: "EOI" and the bag total. */
  function EndOfInstruments(bagTotal: u16): Instrument
  {
    Instrument("EOI", bagTotal, None, [])
  }

  // ---------------------------------------------------------------------
  // Samples: each sample's data followed by 46 zero samples.

  function Block(s: SampleItem): (b: seq<i16>)
    requires |s.wave.channels| > 0
    ensures |b| == |s.wave.channels[0]| + 46 && b[..|s.wave.channels[0]|] == s.wave.channels[0]
  {
    s.wave.channels[0] + seq(46, _ => 0)
  }

  predicate HasAudio(ss: seq<SampleItem>)
  {
    forall i :: 0 <= i < |ss| ==> |ss[i].wave.channels| > 0
  }

  function Blocks(ss: seq<SampleItem>): (r: seq<seq<i16>>)
    requires HasAudio(ss)
    ensures |r| == |ss| && forall i :: 0 <= i < |ss| ==> r[i] == Block(ss[i])
  {
    seq(|ss|, i requires 0 <= i < |ss| => Block(ss[i]))
  }

  /** Where sample i's data starts in the sample-data chunk, as the `uint` the record stores. */
  function SampleStart(ss: seq<SampleItem>, i: nat): u32
    requires HasAudio(ss) && i <= |ss|
  {
    ToU32(Offset(Blocks(ss), i))
  }

  function SampleHeaders(ss: seq<SampleItem>): (r: seq<SampleHeader>)
    requires HasAudio(ss)
    ensures |r| == |ss|
  {
    seq(|ss|, i requires 0 <= i < |ss| => ToHeader(ss[i], SampleStart(ss, i)))
  }

  // ---------------------------------------------------------------------
  // Writing.

  /** The bag chunk ends with a terminal bag pointing past the last generator and modulator. */
  function WriteZoneChunks(zones: seq<Zone>): ZoneChunks
  {
    var bags := Bags(zones);
    ZoneChunks(
      WriteChunk(bags[..|zones|], bags[|zones|], WriteBag),
      WriteChunk(AllModulators(zones), DefaultModulator, WriteModulator),
      WriteChunk(AllGenerators(zones), DefaultGenerator, WriteGenerator))
  }

  function WritePresets(ps: seq<Preset>): Bytes
  {
    var total := |SF2ZoneLayout.AllZones(PresetSets(ps))|;
    WriteChunk(PresetsWithBagIndices(ps), EndOfPresets(ToU16(total)), WritePresetHeader)
  }

  function WriteInstruments(insts: seq<Instrument>): Bytes
  {
    var total := |SF2ZoneLayout.AllZones(InstrumentSets(insts))|;
    WriteChunk(InstrumentsWithBagIndices(insts), EndOfInstruments(ToU16(total)), WriteInstrumentHeader)
  }

  function WriteFile(c: Contents): (f: SF2File)
    requires HasAudio(c.samples)
  {
    SF2File(
      Concat(Blocks(c.samples)),
      WritePresets(c.presets),
      WriteZoneChunks(SF2ZoneLayout.AllZones(PresetSets(c.presets))),
      WriteInstruments(c.instruments),
      WriteZoneChunks(SF2ZoneLayout.AllZones(InstrumentSets(c.instruments))),
      WriteChunk(SampleHeaders(c.samples), EndOfSamples, WriteSampleHeader))
  }

  // ---------------------------------------------------------------------
  // Reading.

  function BagIndices<T>(hs: seq<T>, index: T -> u16): (r: seq<u16>)
    ensures |r| == |hs| && forall i :: 0 <= i < |hs| ==> r[i] == index(hs[i])
  {
    seq(|hs|, i requires 0 <= i < |hs| => index(hs[i]))
  }

  /** The zone sets of the headers whose first bags are `starts`. */
  function ReadZoneSets(starts: seq<u16>, z: ZoneChunks, kind: u16): (r: Result<seq<ZoneSet>>)
    ensures r.Ok? ==> |r.value| == |starts|
  {
    var bags :- ReadChunk(z.bag, BagSize, ReadBag);
    var mods :- ReadChunk(z.mod, ModulatorSize, ReadModulator);
    var gens :- ReadChunk(z.gen, GeneratorSize, ReadGenerator);
    var zones :- BagZones(bags, gens, mods);
    Group(starts, zones, kind)
  }

  function AttachPresetZones(hs: seq<Preset>, sets: seq<ZoneSet>): (r: seq<Preset>)
    requires |sets| == |hs|
    ensures |r| == |hs|
    ensures forall i :: 0 <= i < |hs| ==> r[i] == hs[i].(globalZone := sets[i].globalZone, zones := sets[i].zones)
  {
    seq(|hs|, i requires 0 <= i < |hs| => hs[i].(globalZone := sets[i].globalZone, zones := sets[i].zones))
  }

  function AttachInstrumentZones(hs: seq<Instrument>, sets: seq<ZoneSet>): (r: seq<Instrument>)
    requires |sets| == |hs|
    ensures |r| == |hs|
    ensures forall i :: 0 <= i < |hs| ==> r[i] == hs[i].(globalZone := sets[i].globalZone, zones := sets[i].zones)
  {
    seq(|hs|, i requires 0 <= i < |hs| => hs[i].(globalZone := sets[i].globalZone, zones := sets[i].zones))
  }

  function ReadPresets(f: SF2File): (r: Result<seq<Preset>>)
  {
    var hs :- ReadChunk(f.phdr, PresetSize, ReadPresetHeader);
    var sets :- ReadZoneSets(BagIndices(hs, (p: Preset) => p.readingBagIndex), f.presetZones, SF2Generators.Instrument);
    Ok(AttachPresetZones(hs, sets))
  }

  function ReadInstruments(f: SF2File): (r: Result<seq<Instrument>>)
  {
    var hs :- ReadChunk(f.inst, InstrumentSize, ReadInstrumentHeader);
    var sets :- ReadZoneSets(BagIndices(hs, (p: Instrument) => p.readingBagIndex), f.instrumentZones, SampleID);
    Ok(AttachInstrumentZones(hs, sets))
  }

  /** The samples the first n records describe, or the first record's error. */
  function SamplesUpTo(hs: seq<SampleHeader>, table: seq<i16>, n: nat): (r: Result<seq<SampleItem>>)
    requires n <= |hs|
    ensures r.Ok? ==> |r.value| == n
  {
    if n == 0 then Ok([])
    else
      match SamplesUpTo(hs, table, n - 1)
      case Err(e) => Err(e)
      case Ok(ss) =>
        match FromHeader(hs[n - 1], table)
        case Err(e) => Err(e)
        case Ok(s) => Ok(ss + [s])
  }

  /** Once a record fails, every longer prefix fails with the same error. */
  lemma {:induction false} SamplesUpToErrorSticks(hs: seq<SampleHeader>, table: seq<i16>, i: nat, n: nat)
    requires i < n <= |hs|
    requires SamplesUpTo(hs, table, i).Ok? && FromHeader(hs[i], table).Err?
    ensures SamplesUpTo(hs, table, n) == Err(FromHeader(hs[i], table).error)
  {
    if n > i + 1 {
      SamplesUpToErrorSticks(hs, table, i, n - 1);
    }
  }

  function ReadSamples(f: SF2File): (r: Result<seq<SampleItem>>)
  {
    var hs :- ReadChunk(f.shdr, SampleHeaderSize, ReadSampleHeader);
    SamplesUpTo(hs, f.smpl, |hs|)
  }

  function ReadFile(f: SF2File): (r: Result<Contents>)
  {
    var ps :- ReadPresets(f);
    var insts :- ReadInstruments(f);
    var ss :- ReadSamples(f);
    Ok(Contents(ps, insts, ss))
  }
}
