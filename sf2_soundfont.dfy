/**
  The SF2 sound bank object: its presets, instruments and samples, filled
  by reading a file and flattened again by writing one. Writing also
  overwrites every header's bag index, as the source does.
*/
module SF2SoundFont {
  import opened Ints
  import opened Bytes
  import opened Wrappers
  import opened Records
  import opened Lists
  import opened SF2Generators
  import opened SF2Generator
  import opened SF2Modulator
  import opened SF2Zone
  import opened SF2Preset
  import opened SF2Instrument
  import opened SF2SampleItem
  import opened SF2Bags
  import opened SF2ZoneGroups
  import opened SF2ZoneLayout
  import opened SF2Hydra
  import opened RiffWave
  import T = SF2SampleTable
  import C = SF2Converter
  import L = DLSWaveLoops
  import DLS = DLSDownloadableSounds

  /** Reads the bag, modulator and generator chunks, cuts the zones out and hands them to their headers. */
  method ReadZones(starts: seq<u16>, z: ZoneChunks, kind: u16) returns (r: Result<seq<ZoneSet>>)
    ensures r == ReadZoneSets(starts, z, kind)
  {
    var bags := ReadChunk(z.bag, BagSize, ReadBag);
    if bags.Err? {
      return Err(bags.error);
    }
    var mods := ReadChunk(z.mod, ModulatorSize, ReadModulator);
    if mods.Err? {
      return Err(mods.error);
    }
    var gens := ReadChunk(z.gen, GeneratorSize, ReadGenerator);
    if gens.Err? {
      return Err(gens.error);
    }
    var zones := ReadBagZones(bags.value, gens.value, mods.value);
    if zones.Err? {
      return Err(zones.error);
    }
    r := GroupZones(starts, zones.value, kind);
  }

  /** Reads the sample records one after another, each cutting its data out of the wave table. */
  method ReadSampleItems(hs: seq<SampleHeader>, table: seq<i16>) returns (r: Result<seq<SampleItem>>)
    ensures r == SamplesUpTo(hs, table, |hs|)
  {
    var ss: seq<SampleItem> := [];
    for i := 0 to |hs|
      invariant SamplesUpTo(hs, table, i) == Ok(ss)
    {
      var s := FromHeader(hs[i], table);
      if s.Err? {
        SamplesUpToErrorSticks(hs, table, i, |hs|);
        return Err(s.error);
      }
      ss := ss + [s.value];
    }
    r := Ok(ss);
  }

  /** The preset records, each given the zones its bag range holds. */
  method ReadPresetList(f: SF2File) returns (r: Result<seq<Preset>>)
    ensures r == ReadPresets(f)
  {
    var hs := ReadChunk(f.phdr, PresetSize, ReadPresetHeader);
    if hs.Err? {
      return Err(hs.error);
    }
    var sets := ReadZones(BagIndices(hs.value, (p: Preset) => p.readingBagIndex), f.presetZones, SF2Generators.Instrument);
    if sets.Err? {
      return Err(sets.error);
    }
    var ps := hs.value;
    for i := 0 to |ps|
      invariant |ps| == |hs.value|
      invariant forall k :: 0 <= k < i ==> ps[k] == AttachPresetZones(hs.value, sets.value)[k]
      invariant forall k :: i <= k < |ps| ==> ps[k] == hs.value[k]
    {
      ps := ps[i := ps[i].(globalZone := sets.value[i].globalZone, zones := sets.value[i].zones)];
    }
    assert ps == AttachPresetZones(hs.value, sets.value);
    r := Ok(ps);
  }

  /** The instrument records, each given the zones its bag range holds. */
  method ReadInstrumentList(f: SF2File) returns (r: Result<seq<Instrument>>)
    ensures r == ReadInstruments(f)
  {
    var hs := ReadChunk(f.inst, InstrumentSize, ReadInstrumentHeader);
    if hs.Err? {
      return Err(hs.error);
    }
    var sets := ReadZones(BagIndices(hs.value, (p: Instrument) => p.readingBagIndex), f.instrumentZones, SampleID);
    if sets.Err? {
      return Err(sets.error);
    }
    var insts := hs.value;
    for i := 0 to |insts|
      invariant |insts| == |hs.value|
      invariant forall k :: 0 <= k < i ==> insts[k] == AttachInstrumentZones(hs.value, sets.value)[k]
      invariant forall k :: i <= k < |insts| ==> insts[k] == hs.value[k]
    {
      insts := insts[i := insts[i].(globalZone := sets.value[i].globalZone, zones := sets.value[i].zones)];
    }
    assert insts == AttachInstrumentZones(hs.value, sets.value);
    r := Ok(insts);
  }

  /** The sample records with their data. */
  method ReadSampleList(f: SF2File) returns (r: Result<seq<SampleItem>>)
    ensures r == ReadSamples(f)
  {
    var hs := ReadChunk(f.shdr, SampleHeaderSize, ReadSampleHeader);
    if hs.Err? {
      return Err(hs.error);
    }
    r := ReadSampleItems(hs.value, f.smpl);
  }

  /** The preset header loop after i headers: those before i carry their bag index, the zones and the count are those before i. */
  predicate PresetBagsAssigned(ps: seq<Preset>, i: nat, out: seq<Preset>, zones: seq<Zone>, currBagIndex: int)
  {
    i <= |ps| && out == PresetsWithBagIndices(ps)[..i] + ps[i..]
    && zones == Concat(ZoneLists(PresetSets(ps))[..i]) && currBagIndex == StartAt(PresetSets(ps), i)
  }

  lemma PresetBagsEnds(ps: seq<Preset>, out: seq<Preset>, zones: seq<Zone>, currBagIndex: int)
    ensures PresetBagsAssigned(ps, 0, ps, [], 0)
    ensures PresetBagsAssigned(ps, |ps|, out, zones, currBagIndex) ==>
              out == PresetsWithBagIndices(ps) && zones == SF2ZoneLayout.AllZones(PresetSets(ps))
              && currBagIndex == ToU16(|zones|)
  {
    SpliceStart(PresetsWithBagIndices(ps), ps);
    SpliceEnd(PresetsWithBagIndices(ps), ps);
    StartEnd(PresetSets(ps));
  }

  /** One pass of the preset header loop: header i gets the running count as its bag index, and its zones are collected. */
  method AssignPresetBag(ps: seq<Preset>, i: nat, out: seq<Preset>, zones: seq<Zone>, currBagIndex: u16)
    returns (out': seq<Preset>, zones': seq<Zone>, currBagIndex': u16)
    requires i < |ps| && PresetBagsAssigned(ps, i, out, zones, currBagIndex)
    ensures PresetBagsAssigned(ps, i + 1, out', zones', currBagIndex')
  {
    var p := out[i];
    assert p == ps[i];
    out' := out[i := p.(readingBagIndex := currBagIndex)];
    assert out' == PresetsWithBagIndices(ps)[..i + 1] + ps[i + 1..];
    StartStep(PresetSets(ps), i);
    currBagIndex' := ToU16(currBagIndex + ToU16(SF2Preset.NumZones(p)));
    var zs := SF2Preset.GetAllZones(p);
    assert zs == ZoneList(PresetSets(ps)[i]);
    zones' := zones + zs;
  }

  /**
    The preset header pass: each preset's bag index becomes the running
    `ushort` zone count before it, and its zones are collected in order.
  */
  method AssignPresetBagIndices(ps: seq<Preset>) returns (out: seq<Preset>, zones: seq<Zone>, total: u16)
    ensures out == PresetsWithBagIndices(ps)
    ensures zones == SF2ZoneLayout.AllZones(PresetSets(ps))
    ensures total == ToU16(|zones|)
  {
    var currBagIndex: u16 := 0;
    out := ps;
    zones := [];
    PresetBagsEnds(ps, out, zones, currBagIndex);
    for i := 0 to |ps|
      invariant PresetBagsAssigned(ps, i, out, zones, currBagIndex)
    {
      out, zones, currBagIndex := AssignPresetBag(ps, i, out, zones, currBagIndex);
    }
    PresetBagsEnds(ps, out, zones, currBagIndex);
    total := currBagIndex;
  }

  /** The instrument header loop after i headers: those before i carry their bag index, the zones and the count are those before i. */
  predicate InstrumentBagsAssigned(insts: seq<Instrument>, i: nat, out: seq<Instrument>, zones: seq<Zone>, currBagIndex: int)
  {
    i <= |insts| && out == InstrumentsWithBagIndices(insts)[..i] + insts[i..]
    && zones == Concat(ZoneLists(InstrumentSets(insts))[..i]) && currBagIndex == StartAt(InstrumentSets(insts), i)
  }

  lemma InstrumentBagsEnds(insts: seq<Instrument>, out: seq<Instrument>, zones: seq<Zone>, currBagIndex: int)
    ensures InstrumentBagsAssigned(insts, 0, insts, [], 0)
    ensures InstrumentBagsAssigned(insts, |insts|, out, zones, currBagIndex) ==>
              out == InstrumentsWithBagIndices(insts) && zones == SF2ZoneLayout.AllZones(InstrumentSets(insts))
              && currBagIndex == ToU16(|zones|)
  {
    SpliceStart(InstrumentsWithBagIndices(insts), insts);
    SpliceEnd(InstrumentsWithBagIndices(insts), insts);
    StartEnd(InstrumentSets(insts));
  }

  /** One pass of the instrument header loop: header i gets the running count as its bag index, and its zones are collected. */
  method AssignInstrumentBag(insts: seq<Instrument>, i: nat, out: seq<Instrument>, zones: seq<Zone>, currBagIndex: u16)
    returns (out': seq<Instrument>, zones': seq<Zone>, currBagIndex': u16)
    requires i < |insts| && InstrumentBagsAssigned(insts, i, out, zones, currBagIndex)
    ensures InstrumentBagsAssigned(insts, i + 1, out', zones', currBagIndex')
  {
    var inst := out[i];
    assert inst == insts[i];
    out' := out[i := inst.(readingBagIndex := currBagIndex)];
    assert out' == InstrumentsWithBagIndices(insts)[..i + 1] + insts[i + 1..];
    StartStep(InstrumentSets(insts), i);
    currBagIndex' := ToU16(currBagIndex + ToU16(SF2Instrument.NumZones(inst)));
    var zs := SF2Instrument.GetAllZones(inst);
    assert zs == ZoneList(InstrumentSets(insts)[i]);
    zones' := zones + zs;
  }

  /**
    The instrument header pass: each instrument's bag index becomes the running
    `ushort` zone count before it, and its zones are collected in order.
  */
  method AssignInstrumentBagIndices(insts: seq<Instrument>) returns (out: seq<Instrument>, zones: seq<Zone>, total: u16)
    ensures out == InstrumentsWithBagIndices(insts)
    ensures zones == SF2ZoneLayout.AllZones(InstrumentSets(insts))
    ensures total == ToU16(|zones|)
  {
    var currBagIndex: u16 := 0;
    out := insts;
    zones := [];
    InstrumentBagsEnds(insts, out, zones, currBagIndex);
    for i := 0 to |insts|
      invariant InstrumentBagsAssigned(insts, i, out, zones, currBagIndex)
    {
      out, zones, currBagIndex := AssignInstrumentBag(insts, i, out, zones, currBagIndex);
    }
    InstrumentBagsEnds(insts, out, zones, currBagIndex);
    total := currBagIndex;
  }

  /**
    The sample pass: each sample's data and 46 zero samples go into the
    wave table, and its record points at where its data starts.
  */
  method WriteSampleTable(ss: seq<SampleItem>) returns (smpl: seq<i16>, headers: seq<SampleHeader>)
    requires HasAudio(ss)
    ensures smpl == Concat(Blocks(ss))
    ensures headers == SampleHeaders(ss)
  {
    smpl := [];
    headers := [];
    for i := 0 to |ss|
      invariant smpl == Concat(Blocks(ss)[..i])
      invariant headers == SampleHeaders(ss)[..i]
    {
      smpl, headers := WriteSampleBlock(ss, i, smpl, headers);
    }
    assert Blocks(ss)[..|ss|] == Blocks(ss);
    assert SampleHeaders(ss)[..|ss|] == SampleHeaders(ss);
  }

  /** One pass of the sample loop: the record points at the table's current end, then the block is appended. */
  method WriteSampleBlock(ss: seq<SampleItem>, i: nat, smpl: seq<i16>, headers: seq<SampleHeader>)
    returns (smpl': seq<i16>, headers': seq<SampleHeader>)
    requires HasAudio(ss) && i < |ss|
    requires smpl == Concat(Blocks(ss)[..i]) && headers == SampleHeaders(ss)[..i]
    ensures smpl' == Concat(Blocks(ss)[..i + 1]) && headers' == SampleHeaders(ss)[..i + 1]
  {
    var s := ss[i];
    PrefixSnoc(SampleHeaders(ss), i);
    headers' := headers + [ToHeader(s, ToU32(|smpl|))];
    ConcatSnoc(Blocks(ss), i);
    smpl' := smpl + s.wave.channels[0] + seq(46, _ => 0);
  }

  /** The zone chunks from the flattened zones. */
  method WriteZones(zones: seq<Zone>) returns (z: ZoneChunks)
    ensures z == WriteZoneChunks(zones)
  {
    var bags := WriteBags(zones);
    var mods := WriteModulators(zones);
    var gens := WriteGenerators(zones);
    z := ZoneChunks(
      WriteChunk(bags[..|zones|], bags[|zones|], WriteBag),
      WriteChunk(mods, DefaultModulator, WriteModulator),
      WriteChunk(gens, DefaultGenerator, WriteGenerator));
  }

  /** The preset side of writing: the bag indices, the header chunk and the zone chunks. */
  method WritePresetChunks(ps: seq<Preset>) returns (written: seq<Preset>, phdr: Bytes, presetZones: ZoneChunks)
    ensures written == PresetsWithBagIndices(ps)
    ensures phdr == WritePresets(ps)
    ensures presetZones == WriteZoneChunks(SF2ZoneLayout.AllZones(PresetSets(ps)))
  {
    var zones, total;
    written, zones, total := AssignPresetBagIndices(ps);
    phdr := WriteChunk(written, EndOfPresets(total), WritePresetHeader);
    presetZones := WriteZones(zones);
  }

  /** The instrument side of writing, as for presets. */
  method WriteInstrumentChunks(insts: seq<Instrument>) returns (written: seq<Instrument>, inst: Bytes, instrumentZones: ZoneChunks)
    ensures written == InstrumentsWithBagIndices(insts)
    ensures inst == WriteInstruments(insts)
    ensures instrumentZones == WriteZoneChunks(SF2ZoneLayout.AllZones(InstrumentSets(insts)))
  {
    var zones, total;
    written, zones, total := AssignInstrumentBagIndices(insts);
    inst := WriteChunk(written, EndOfInstruments(total), WriteInstrumentHeader);
    instrumentZones := WriteZones(zones);
  }

  class SoundFont {
    var presets: seq<Preset>
    var instruments: seq<Instrument>
    var samples: seq<SampleItem>

    /** An empty sound bank. */
    constructor ()
      ensures presets == [] && instruments == [] && samples == []
    {
      presets := [];
      instruments := [];
      samples := [];
    }

    function Contents(): Contents
      reads this
    {
      SF2Hydra.Contents(presets, instruments, samples)
    }

    /**
      The bank converted from a DLS bank. The DLS bank's waves are
      changed on the way: every looping region copies its loop onto its
      wave, and every wave with a loop end is marked as looping. The
      samples are the split waves, the instruments the converted DLS
      instruments and the presets one per instrument.
    */
    constructor FromDls(dls: DLS.DownloadableSounds)
      requires L.RegionsFit(dls.waves, L.AllRegions(dls.instruments)) && T.Splittable(dls.waves)
      modifies dls
      ensures dls.instruments == old(dls.instruments)
      ensures dls.waves == C.ConvertedWaves(old(dls.instruments), old(dls.waves))
      ensures T.Splittable(dls.waves) && C.InstrumentsCovered(dls.waves, dls.instruments)
      ensures samples == T.SampleTable(dls.waves)
      ensures instruments == C.ConvertInstruments(dls.instruments, dls.waves, T.NewIndices(dls.waves))
      ensures presets == C.ConvertPresets(dls.instruments)
    {
      presets, instruments, samples := [], [], [];
      new;
      ghost var waves0 := dls.waves;
      dls.AssignLoops();
      C.LoopsAssignedSplittable(dls.instruments, waves0, dls.waves);
      var newIndices := CreateSampleTable(dls);
      var insts, ws, table := dls.instruments, dls.waves, samples;
      C.ConversionPrepared(insts, waves0);
      var converted, corrected := C.BuildInstruments(insts, ws, newIndices, table);
      assert corrected == table;
      instruments, samples := converted, corrected;
      presets := C.BuildPresets(insts);
    }

    /**
      Fixes the waves' loop flags in place and fills the sample list from
      them, returning every wave's new index.
    */
    method CreateSampleTable(dls: DLS.DownloadableSounds) returns (newIndices: seq<nat>)
      requires T.Splittable(dls.waves)
      modifies this, dls
      ensures dls.instruments == old(dls.instruments) && dls.waves == T.FixLoops(old(dls.waves))
      ensures presets == old(presets) && instruments == old(instruments)
      ensures samples == T.SampleTable(dls.waves) && newIndices == T.NewIndices(dls.waves)
    {
      var fixed, table;
      fixed, table, newIndices := T.CreateSampleTable(dls.waves);
      dls.waves := fixed;
      samples := table;
    }

    /**
      Fills the bank from the sample-data and hydra chunks. On success the
      bank holds exactly what the file describes; otherwise the error is
      the one the first failing step reports, the lists read before that
      step are kept and the others are left empty.
    */
    method Read(f: SF2File) returns (err: Option<Error>)
      modifies this
      ensures ReadFile(f).Ok? ==> err == None && Contents() == ReadFile(f).value
      ensures ReadFile(f).Err? ==> err == Some(ReadFile(f).error)
      ensures ReadPresets(f).Err? ==> presets == [] && instruments == [] && samples == []
      ensures ReadPresets(f).Ok? && ReadInstruments(f).Err? ==>
        presets == ReadPresets(f).value && instruments == [] && samples == []
      ensures ReadPresets(f).Ok? && ReadInstruments(f).Ok? && ReadSamples(f).Err? ==>
        presets == ReadPresets(f).value && instruments == ReadInstruments(f).value && samples == []
    {
      presets, instruments, samples := [], [], [];
      var ps := ReadPresetList(f);
      if ps.Err? {
        return Some(ps.error);
      }
      presets := ps.value;
      var insts := ReadInstrumentList(f);
      if insts.Err? {
        return Some(insts.error);
      }
      instruments := insts.value;
      var ss := ReadSampleList(f);
      if ss.Err? {
        return Some(ss.error);
      }
      samples := ss.value;
      err := None;
    }

    /**
      Writes the bank. The zones are flattened with running `ushort`
      counters and every chunk ends with its terminal record; the headers
      keep the bag indices the writer gave them.
    */
    method Write() returns (f: SF2File)
      requires HasAudio(samples)
      modifies this
      ensures presets == PresetsWithBagIndices(old(presets))
      ensures instruments == InstrumentsWithBagIndices(old(instruments))
      ensures samples == old(samples)
      ensures f == WriteFile(old(Contents()))
    {
      var ps, insts, ss := presets, instruments, samples;
      ghost var c := Contents();
      var smpl, sampleHeaders := WriteSampleTable(ss);
      var written, phdr, presetZones := WritePresetChunks(ps);
      var iwritten, inst, instrumentZones := WriteInstrumentChunks(insts);
      var shdr := WriteChunk(sampleHeaders, EndOfSamples, WriteSampleHeader);
      f := SF2File(smpl, phdr, presetZones, inst, instrumentZones, shdr);
      assert f == WriteFile(c);
      presets, instruments := written, iwritten;
    }
  }
}
