/**
  Reading back a written SF2 file. Each header gets its zones back, the
  global zone in its place; each sample gets its data, loop and link
  settings back. What the written file cannot express is excluded by the
  conditions below: 16-bit bag, generator and modulator totals, 32-bit
  sample positions, 20-byte names, and zone layouts the global-zone rule
  reads back as written.
*/
module SF2RoundTrip {
  import opened Ints
  import opened Bytes
  import opened Wrappers
  import opened Records
  import opened Lists
  import opened SF2Generators
  import opened SF2Generator
  import opened SF2Modulator
  import opened SF2Zone
  import opened SF2Preset
  import opened SF2Instrument
  import opened SF2SampleItem
  import opened SF2Bags
  import opened SF2ZoneGroups
  import opened SF2ZoneLayout
  import opened SF2Hydra

  /** The zone totals fit the 16-bit bag, generator and modulator indices. */
  predicate ZonesFit(sets: seq<ZoneSet>)
  {
    var zones := SF2ZoneLayout.AllZones(sets);
    |zones| < 0x1_0000 && |AllGenerators(zones)| < 0x1_0000 && |AllModulators(zones)| < 0x1_0000
  }

  predicate PresetsFit(ps: seq<Preset>)
  {
    && ZonesFit(PresetSets(ps))
    && forall i :: 0 <= i < |ps| ==>
         FitsFixed(ps[i].name, 20) && WellFormed(ZoneSet(ps[i].globalZone, ps[i].zones), SF2Generators.Instrument)
  }

  predicate InstrumentsFit(insts: seq<Instrument>)
  {
    && ZonesFit(InstrumentSets(insts))
    && forall i :: 0 <= i < |insts| ==>
         FitsFixed(insts[i].name, 20) && WellFormed(ZoneSet(insts[i].globalZone, insts[i].zones), SampleID)
  }

  predicate SamplesFit(ss: seq<SampleItem>)
  {
    && HasAudio(ss)
    && |Concat(Blocks(ss))| < 0x1_0000_0000
    && forall i :: 0 <= i < |ss| ==> RoundTrips(ss[i], SampleStart(ss, i))
  }

  lemma BagChunkRoundTrip(zones: seq<Zone>)
    ensures ReadChunk(WriteChunk(Bags(zones)[..|zones|], Bags(zones)[|zones|], WriteBag), BagSize, ReadBag)
            == Ok(Bags(zones)[..|zones|])
  {
    var bs := Bags(zones)[..|zones|];
    forall i | 0 <= i < |bs|
      ensures ReadBag(WriteBag(bs[i])) == bs[i]
    {
      BagRoundTrip(bs[i]);
    }
    ChunkRoundTrip(bs, bs, Bags(zones)[|zones|], BagSize, WriteBag, ReadBag);
  }

  lemma GeneratorChunkRoundTrip(gens: seq<Generator>)
    ensures ReadChunk(WriteChunk(gens, DefaultGenerator, WriteGenerator), GeneratorSize, ReadGenerator) == Ok(gens)
  {
    forall i | 0 <= i < |gens|
      ensures ReadGenerator(WriteGenerator(gens[i])) == gens[i]
    {
      GeneratorRoundTrip(gens[i]);
    }
    ChunkRoundTrip(gens, gens, DefaultGenerator, GeneratorSize, WriteGenerator, ReadGenerator);
  }

  lemma ModulatorChunkRoundTrip(mods: seq<Modulator>)
    ensures ReadChunk(WriteChunk(mods, DefaultModulator, WriteModulator), ModulatorSize, ReadModulator) == Ok(mods)
  {
    forall i | 0 <= i < |mods|
      ensures ReadModulator(WriteModulator(mods[i])) == mods[i]
    {
      ModulatorRoundTrip(mods[i]);
    }
    ChunkRoundTrip(mods, mods, DefaultModulator, ModulatorSize, WriteModulator, ReadModulator);
  }

  /** The zone sets come back from the bag, modulator and generator chunks. */
  lemma ZoneSetsRoundTrip(sets: seq<ZoneSet>, kind: u16)
    requires ZonesFit(sets)
    requires forall i :: 0 <= i < |sets| ==> WellFormed(sets[i], kind)
    ensures ReadZoneSets(Starts(sets), WriteZoneChunks(SF2ZoneLayout.AllZones(sets)), kind) == Ok(sets)
  {
    var zones := SF2ZoneLayout.AllZones(sets);
    BagChunkRoundTrip(zones);
    ModulatorChunkRoundTrip(AllModulators(zones));
    GeneratorChunkRoundTrip(AllGenerators(zones));
    ReadWrittenBags(zones);
    ReadWrittenGroups(sets, kind);
  }

  lemma PresetHeadersRoundTrip(ps: seq<Preset>, hs: seq<Preset>)
    requires forall i :: 0 <= i < |ps| ==> FitsFixed(ps[i].name, 20)
    requires |hs| == |ps|
    requires forall i :: 0 <= i < |ps| ==> hs[i] == PresetsWithBagIndices(ps)[i].(globalZone := None, zones := [])
    ensures ReadChunk(WritePresets(ps), PresetSize, ReadPresetHeader) == Ok(hs)
  {
    var written := PresetsWithBagIndices(ps);
    forall i | 0 <= i < |written|
      ensures ReadPresetHeader(WritePresetHeader(written[i])) == hs[i]
    {
      PresetHeaderRoundTrip(written[i]);
    }
    var total := |SF2ZoneLayout.AllZones(PresetSets(ps))|;
    ChunkRoundTrip(written, hs, EndOfPresets(ToU16(total)), PresetSize, WritePresetHeader, ReadPresetHeader);
  }

  lemma InstrumentHeadersRoundTrip(insts: seq<Instrument>, hs: seq<Instrument>)
    requires forall i :: 0 <= i < |insts| ==> FitsFixed(insts[i].name, 20)
    requires |hs| == |insts|
    requires forall i :: 0 <= i < |insts| ==> hs[i] == InstrumentsWithBagIndices(insts)[i].(globalZone := None, zones := [])
    ensures ReadChunk(WriteInstruments(insts), InstrumentSize, ReadInstrumentHeader) == Ok(hs)
  {
    var written := InstrumentsWithBagIndices(insts);
    forall i | 0 <= i < |written|
      ensures ReadInstrumentHeader(WriteInstrumentHeader(written[i])) == hs[i]
    {
      InstrumentHeaderRoundTrip(written[i]);
    }
    var total := |SF2ZoneLayout.AllZones(InstrumentSets(insts))|;
    ChunkRoundTrip(written, hs, EndOfInstruments(ToU16(total)), InstrumentSize, WriteInstrumentHeader, ReadInstrumentHeader);
  }

  /** The headers' bag indices select, from the zone chunks, each header's own zones. */
  lemma PresetZonesRoundTrip(z: ZoneChunks, ps: seq<Preset>, hs: seq<Preset>)
    requires PresetsFit(ps)
    requires z == WriteZoneChunks(SF2ZoneLayout.AllZones(PresetSets(ps)))
    requires |hs| == |ps|
    requires forall i :: 0 <= i < |ps| ==> hs[i] == PresetsWithBagIndices(ps)[i].(globalZone := None, zones := [])
    ensures ReadZoneSets(BagIndices(hs, (p: Preset) => p.readingBagIndex), z, SF2Generators.Instrument) == Ok(PresetSets(ps))
    ensures AttachPresetZones(hs, PresetSets(ps)) == PresetsWithBagIndices(ps)
  {
    var sets := PresetSets(ps);
    assert BagIndices(hs, (p: Preset) => p.readingBagIndex) == Starts(sets);
    ZoneSetsRoundTrip(sets, SF2Generators.Instrument);
  }

  /** The presets come back from their header and zone chunks, whatever the other chunks hold. */
  lemma PresetChunksRoundTrip(f: SF2File, ps: seq<Preset>)
    requires PresetsFit(ps)
    requires f.phdr == WritePresets(ps) && f.presetZones == WriteZoneChunks(SF2ZoneLayout.AllZones(PresetSets(ps)))
    ensures ReadPresets(f) == Ok(PresetsWithBagIndices(ps))
  {
    var written := PresetsWithBagIndices(ps);
    var hs := seq(|ps|, i requires 0 <= i < |ps| => written[i].(globalZone := None, zones := []));
    PresetHeadersRoundTrip(ps, hs);
    PresetZonesRoundTrip(f.presetZones, ps, hs);
  }

  /** The presets come back as written, each with the bag index the writer gave it. */
  lemma PresetsRoundTrip(c: Contents)
    requires HasAudio(c.samples) && PresetsFit(c.presets)
    ensures ReadPresets(WriteFile(c)) == Ok(PresetsWithBagIndices(c.presets))
  {
    PresetChunksRoundTrip(WriteFile(c), c.presets);
  }

  /** The headers' bag indices select, from the zone chunks, each header's own zones. */
  lemma InstrumentZonesRoundTrip(z: ZoneChunks, insts: seq<Instrument>, hs: seq<Instrument>)
    requires InstrumentsFit(insts)
    requires z == WriteZoneChunks(SF2ZoneLayout.AllZones(InstrumentSets(insts)))
    requires |hs| == |insts|
    requires forall i :: 0 <= i < |insts| ==> hs[i] == InstrumentsWithBagIndices(insts)[i].(globalZone := None, zones := [])
    ensures ReadZoneSets(BagIndices(hs, (p: Instrument) => p.readingBagIndex), z, SampleID) == Ok(InstrumentSets(insts))
    ensures AttachInstrumentZones(hs, InstrumentSets(insts)) == InstrumentsWithBagIndices(insts)
  {
    var sets := InstrumentSets(insts);
    assert BagIndices(hs, (p: Instrument) => p.readingBagIndex) == Starts(sets);
    ZoneSetsRoundTrip(sets, SampleID);
  }

  /** The instruments come back from their header and zone chunks, whatever the other chunks hold. */
  lemma InstrumentChunksRoundTrip(f: SF2File, insts: seq<Instrument>)
    requires InstrumentsFit(insts)
    requires f.inst == WriteInstruments(insts) && f.instrumentZones == WriteZoneChunks(SF2ZoneLayout.AllZones(InstrumentSets(insts)))
    ensures ReadInstruments(f) == Ok(InstrumentsWithBagIndices(insts))
  {
    var written := InstrumentsWithBagIndices(insts);
    var hs := seq(|insts|, i requires 0 <= i < |insts| => written[i].(globalZone := None, zones := []));
    InstrumentHeadersRoundTrip(insts, hs);
    InstrumentZonesRoundTrip(f.instrumentZones, insts, hs);
  }

  /** The instruments come back as written, each with the bag index the writer gave it. */
  lemma InstrumentsRoundTrip(c: Contents)
    requires HasAudio(c.samples) && InstrumentsFit(c.instruments)
    ensures ReadInstruments(WriteFile(c)) == Ok(InstrumentsWithBagIndices(c.instruments))
  {
    InstrumentChunksRoundTrip(WriteFile(c), c.instruments);
  }

  lemma {:induction false} SamplesUpToPointwise(hs: seq<SampleHeader>, table: seq<i16>, ss: seq<SampleItem>, n: nat)
    requires n <= |hs| && n <= |ss|
    requires forall i :: 0 <= i < n ==> FromHeader(hs[i], table) == Ok(ss[i])
    ensures SamplesUpTo(hs, table, n) == Ok(ss[..n])
  {
    if n > 0 {
      SamplesUpToPointwise(hs, table, ss, n - 1);
      assert ss[..n] == ss[..n - 1] + [ss[n - 1]];
    }
  }

  /** Sample i's record points at its own data in the written wave table. */
  lemma SampleFromTable(ss: seq<SampleItem>, i: nat)
    requires SamplesFit(ss) && i < |ss|
    ensures FromHeader(SampleHeaders(ss)[i], Concat(Blocks(ss))) == Ok(ss[i])
  {
    var blocks := Blocks(ss);
    var table := Concat(blocks);
    ConcatSlice(blocks, i);
    var o := Offset(blocks, i);
    var n := |ss[i].wave.channels[0]|;
    assert SampleStart(ss, i) == o;
    SlicePrefix(table, o, Offset(blocks, i + 1), n);
    SampleRoundTrip(ss[i], o, table);
  }

  /** The sample header chunk reads back as the records written, one 46-byte record per sample. */
  lemma SampleHeadersRoundTrip(ss: seq<SampleItem>)
    requires SamplesFit(ss)
    ensures ReadChunk(WriteChunk(SampleHeaders(ss), EndOfSamples, WriteSampleHeader), SampleHeaderSize, ReadSampleHeader)
            == Ok(SampleHeaders(ss))
  {
    var hs := SampleHeaders(ss);
    forall i | 0 <= i < |hs|
      ensures ReadSampleHeader(WriteSampleHeader(hs[i])) == hs[i]
    {
      SampleHeaderRoundTrip(hs[i]);
    }
    ChunkRoundTrip(hs, hs, EndOfSamples, SampleHeaderSize, WriteSampleHeader, ReadSampleHeader);
  }

  /** Every written record finds its own sample in the written wave table. */
  lemma SamplesFromTable(ss: seq<SampleItem>)
    requires SamplesFit(ss)
    ensures SamplesUpTo(SampleHeaders(ss), Concat(Blocks(ss)), |ss|) == Ok(ss)
  {
    var hs := SampleHeaders(ss);
    forall i | 0 <= i < |ss|
      ensures FromHeader(hs[i], Concat(Blocks(ss))) == Ok(ss[i])
    {
      SampleFromTable(ss, i);
    }
    SamplesUpToPointwise(hs, Concat(Blocks(ss)), ss, |ss|);
    assert ss[..|ss|] == ss;
  }

  /** The samples come back from the sample headers and the wave table, whatever the other chunks hold. */
  lemma SampleChunksRoundTrip(f: SF2File, ss: seq<SampleItem>)
    requires SamplesFit(ss)
    requires f.shdr == WriteChunk(SampleHeaders(ss), EndOfSamples, WriteSampleHeader) && f.smpl == Concat(Blocks(ss))
    ensures ReadSamples(f) == Ok(ss)
  {
    SampleHeadersRoundTrip(ss);
    SamplesFromTable(ss);
  }

  /** The samples come back as written: data, loop points, rate, pitch, link and type. */
  lemma SamplesRoundTrip(c: Contents)
    requires SamplesFit(c.samples)
    ensures ReadSamples(WriteFile(c)) == Ok(c.samples)
  {
    SampleChunksRoundTrip(WriteFile(c), c.samples);
  }

  /**
    The whole file: presets, instruments and samples come back as written,
    the bag indices being those the writer assigned.
  */
  lemma FileRoundTrip(c: Contents)
    requires PresetsFit(c.presets) && InstrumentsFit(c.instruments) && SamplesFit(c.samples)
    ensures ReadFile(WriteFile(c))
            == Ok(Contents(PresetsWithBagIndices(c.presets), InstrumentsWithBagIndices(c.instruments), c.samples))
  {
    PresetsRoundTrip(c);
    InstrumentsRoundTrip(c);
    SamplesRoundTrip(c);
  }

  /** Only the bag index differs from the original: every preset's list of all zones is restored. */
  lemma BagIndicesKeepZones(ps: seq<Preset>, insts: seq<Instrument>)
    ensures forall i :: 0 <= i < |ps| ==>
              SF2Preset.AllZones(PresetsWithBagIndices(ps)[i]) == SF2Preset.AllZones(ps[i])
              && PresetsWithBagIndices(ps)[i].globalZone == ps[i].globalZone
    ensures forall i :: 0 <= i < |insts| ==>
              SF2Instrument.AllZones(InstrumentsWithBagIndices(insts)[i]) == SF2Instrument.AllZones(insts[i])
              && InstrumentsWithBagIndices(insts)[i].globalZone == insts[i].globalZone
  {
  }
}
