/**
  A DLS file as the sound-bank code sees it: per instrument its `insh`
  header, the chunks of each region and the optional `INFO`/`INAM` name;
  the pointer table `ptbl`; and the wave pool `wvpl`, whose waves the
  audio library decodes and encodes. Reading threads the wave pool
  through the regions, each region overwriting its wave's loop settings.
*/
module DLSFile {
  import opened Ints
  import opened Bytes
  import opened Wrappers
  import opened Records
  import opened Lists
  import opened RiffWave
  import opened DLSArticulator
  import opened DLSRegion
  import opened DLSInstrument
  import opened DLSChunks
  import opened DLSWaveLoops

  datatype RegionChunks = RegionChunks(rgnh: Bytes, wsmp: Bytes, wlnk: Bytes, lar2: seq<Bytes>)

  datatype InstrumentChunks = InstrumentChunks(insh: Bytes, regions: seq<RegionChunks>, inam: Option<Bytes>)

  datatype DLSFile = DLSFile(colh: Bytes, instruments: seq<InstrumentChunks>, ptbl: Bytes, waves: seq<RiffWave>)

  // ---------------------------------------------------------------------
  // Reading.

  /** The `art2` chunks of a region's `lar2` list, the first n of them. */
  function ReadArticulators(arts: seq<Bytes>, n: nat): (r: Result<seq<Articulator>>)
    requires n <= |arts|
    ensures r.Ok? ==> |r.value| == n
  {
    if n == 0 then Ok([])
    else
      var prev :- ReadArticulators(arts, n - 1);
      var a :- ReadArt2(arts[n - 1]);
      Ok(prev + [a])
  }

  /** The region header, sample settings and wave link, read into a new region. */
  function DecodeRegion(rc: RegionChunks): (r: Result<Region>)
    ensures r.Ok? ==> r.value.articulators == []
  {
    if |rc.rgnh| < RgnhSize then Err(FormatError)
    else
      var r1 := ReadRgnh(rc.rgnh, NewRegion);
      var r2 :- ReadWsmp(rc.wsmp, r1);
      if |rc.wlnk| < WlnkSize then Err(FormatError)
      else Ok(ReadWlnk(rc.wlnk, r2))
  }

  /**
    One region: decoded, then applied to the wave it references, then given
    its articulators. A wave index outside the pool is an index error.
  */
  function ReadRegion(rc: RegionChunks, ws: seq<RiffWave>): (r: Result<(Region, seq<RiffWave>)>)
    ensures r.Ok? ==> RegionsFit(ws, [r.value.0]) && r.value.1 == ReadLoopsOver(ws, [r.value.0])
  {
    var reg :- DecodeRegion(rc);
    if reg.waveId >= |ws| || (reg.loops && !CanLoop(ws[reg.waveId], reg)) then Err(IndexError)
    else
      var ws' := ws[reg.waveId := ReadLoop(ws[reg.waveId], reg)];
      var arts :- ReadArticulators(rc.lar2, |rc.lar2|);
      var out := reg.(articulators := arts);
      assert [out][..0] == [];
      Ok((out, ws'))
  }

  /** The first n regions of an instrument, the wave pool updated by each in turn. */
  function ReadRegions(rcs: seq<RegionChunks>, ws: seq<RiffWave>, n: nat): (r: Result<(seq<Region>, seq<RiffWave>)>)
    requires n <= |rcs|
    ensures r.Ok? ==> |r.value.0| == n && RegionsFit(ws, r.value.0) && r.value.1 == ReadLoopsOver(ws, r.value.0)
  {
    if n == 0 then Ok(([], ws))
    else
      var prev :- ReadRegions(rcs, ws, n - 1);
      var next :- ReadRegion(rcs[n - 1], prev.1);
      var regs := prev.0 + [next.0];
      assert RegionsFit(ws, regs) by {
        SameAudioFits(prev.1, ws, [next.0]);
      }
      ReadLoopsAppend(ws, prev.0, [next.0]);
      Ok((regs, next.1))
  }

  /** Header, regions, then the name, which stays empty when the file has none. */
  function ReadInstrument(ic: InstrumentChunks, ws: seq<RiffWave>): (r: Result<(Instrument, seq<RiffWave>)>)
    ensures r.Ok? ==> RegionsFit(ws, r.value.0.regions) && r.value.1 == ReadLoopsOver(ws, r.value.0.regions)
    ensures r.Ok? ==> |r.value.0.regions| == |ic.regions|
    ensures r.Ok? && ic.inam.None? ==> r.value.0.name == ""
  {
    if |ic.insh| < InshSize then Err(FormatError)
    else
      var inst := ReadInsh(ic.insh, NewInstrument);
      var p :- ReadRegions(ic.regions, ws, |ic.regions|);
      var name := if ic.inam.Some? then ReadName(ic.inam.value) else "";
      Ok((inst.(name := name, regions := p.0), p.1))
  }

  /** The first n instruments, the wave pool threaded through all their regions. */
  function ReadInstruments(ics: seq<InstrumentChunks>, ws: seq<RiffWave>, n: nat): (r: Result<(seq<Instrument>, seq<RiffWave>)>)
    requires n <= |ics|
    ensures r.Ok? ==> |r.value.0| == n
    ensures r.Ok? ==> RegionsFit(ws, AllRegions(r.value.0)) && r.value.1 == ReadLoopsOver(ws, AllRegions(r.value.0))
  {
    if n == 0 then
      assert AllRegions([]) == [];
      Ok(([], ws))
    else
      var prev :- ReadInstruments(ics, ws, n - 1);
      var next :- ReadInstrument(ics[n - 1], prev.1);
      var insts := prev.0 + [next.0];
      AllRegionsSnoc(prev.0, next.0);
      assert RegionsFit(ws, AllRegions(insts)) by {
        SameAudioFits(prev.1, ws, next.0.regions);
      }
      ReadLoopsAppend(ws, AllRegions(prev.0), next.0.regions);
      Ok((insts, next.1))
  }

  /** The instruments and the wave pool after every region has been applied to it. */
  function ReadDLS(f: DLSFile): (r: Result<(seq<Instrument>, seq<RiffWave>)>)
    ensures r.Ok? ==> |r.value.0| == |f.instruments|
    ensures r.Ok? ==> RegionsFit(f.waves, AllRegions(r.value.0)) && r.value.1 == ReadLoopsOver(f.waves, AllRegions(r.value.0))
  {
    ReadInstruments(f.instruments, f.waves, |f.instruments|)
  }

  // ---------------------------------------------------------------------
  // Writing.

  function WriteRegion(r: Region): RegionChunks
  {
    RegionChunks(WriteRgnh(r), WriteWsmp(r), WriteWlnk(r),
                 seq(|r.articulators|, k requires 0 <= k < |r.articulators| => WriteArt2(r.articulators[k])))
  }

  /** The name chunk is written only for a non-empty name. */
  function WriteInstrument(inst: Instrument): InstrumentChunks
  {
    InstrumentChunks(
      WriteInsh(inst),
      WriteRegions(inst.regions),
      if inst.name != "" then Some(NameBytes(inst.name)) else None)
  }

  function WriteInstruments(insts: seq<Instrument>): (ics: seq<InstrumentChunks>)
    ensures |ics| == |insts| && forall i :: 0 <= i < |insts| ==> ics[i] == WriteInstrument(insts[i])
  {
    seq(|insts|, i requires 0 <= i < |insts| => WriteInstrument(insts[i]))
  }

  function Sum(xs: seq<nat>): nat
  {
    if xs == [] then 0 else Sum(xs[..|xs| - 1]) + xs[|xs| - 1]
  }

  /** Entry k of the pointer table: wave k's byte offset from the start of the wave list, as a `uint`. */
  function PointerEntries(sizes: seq<nat>): (es: seq<u32>)
    ensures |es| == |sizes|
  {
    seq(|sizes|, k requires 0 <= k < |sizes| => ToU32(Sum(sizes[..k])))
  }

  /** The pointer table's header size 8, its entry count, then the entries. */
  function PointerTable(sizes: seq<nat>): Bytes
  {
    LeU32(8) + LeU32(ToU32(|sizes|)) + Flatten(PointerEntries(sizes), LeU32)
  }

  /**
    The written file. The wave pool is handed to the audio library as is;
    `sizes` are the byte sizes it writes the waves in, which the pointer
    table records.
  */
  function WriteDLS(insts: seq<Instrument>, waves: seq<RiffWave>, sizes: seq<nat>): DLSFile
    requires |sizes| == |waves|
  {
    DLSFile(
      LeU32(ToU32(|insts|)),
      WriteInstruments(insts),
      PointerTable(sizes),
      waves)
  }

  // ---------------------------------------------------------------------
  // What a written file reads back as.

  /** A region that does not loop reads back with the default loop fields, having no loop record. */
  function Normalized(r: Region): (n: Region)
    ensures r.loops ==> n == r
  {
    if r.loops then r else r.(loopAndRelease := false, loopStart := 0, loopLength := 0)
  }

  function NormalizedRegions(regs: seq<Region>): (ns: seq<Region>)
    ensures |ns| == |regs| && forall k :: 0 <= k < |regs| ==> ns[k] == Normalized(regs[k])
  {
    seq(|regs|, k requires 0 <= k < |regs| => Normalized(regs[k]))
  }

  function NormalizedInstruments(insts: seq<Instrument>): (ns: seq<Instrument>)
    ensures |ns| == |insts|
    ensures forall i :: 0 <= i < |insts| ==> ns[i] == insts[i].(regions := NormalizedRegions(insts[i].regions))
  {
    seq(|insts|, i requires 0 <= i < |insts| => insts[i].(regions := NormalizedRegions(insts[i].regions)))
  }

  predicate ArticulatorsFit(r: Region)
  {
    forall k :: 0 <= k < |r.articulators| ==> |r.articulators[k].connections| < 0x1_0000_0000
  }

  /** What a written instrument needs to read back: a name that survives INAM and connection counts that fit. */
  predicate InstrumentFits(inst: Instrument)
  {
    NameFits(inst.name) && forall j :: 0 <= j < |inst.regions| ==> ArticulatorsFit(inst.regions[j])
  }

  /** Articulator chunks that each read back as the articulator at the same place read back, the first n of them, as the first n articulators. */
  lemma {:induction false} ArticulatorsRoundTrip(arts: seq<Articulator>, lar2: seq<Bytes>, n: nat)
    requires n <= |arts| == |lar2|
    requires forall k :: 0 <= k < |lar2| ==> ReadArt2(lar2[k]) == Ok(arts[k])
    ensures ReadArticulators(lar2, n) == Ok(arts[..n])
  {
    if n > 0 {
      ArticulatorsRoundTrip(arts, lar2, n - 1);
      PrefixSnoc(arts, n - 1);
    }
  }

  lemma DecodeWrittenRegion(r: Region)
    ensures DecodeRegion(WriteRegion(r)) == Ok(Normalized(r).(articulators := []))
  {
    RgnhRoundTrip(r, NewRegion);
    var r1 := WithRgnh(NewRegion, r);
    WsmpRoundTrip(r, r1);
    WlnkRoundTrip(r, WithWsmp(r1, r));
  }

  /** A written region reads back normalised and applies the same loop to its wave. */
  lemma ReadRegionOk(rc: RegionChunks, ws: seq<RiffWave>, reg: Region, arts: seq<Articulator>)
    requires DecodeRegion(rc) == Ok(reg) && reg.waveId < |ws| && (reg.loops ==> CanLoop(ws[reg.waveId], reg))
    requires ReadArticulators(rc.lar2, |rc.lar2|) == Ok(arts)
    ensures ReadRegion(rc, ws) == Ok((reg.(articulators := arts), ws[reg.waveId := ReadLoop(ws[reg.waveId], reg)]))
  {
  }

  lemma WrittenRegionLoop(r: Region, ws: seq<RiffWave>)
    requires RegionsFit(ws, [r])
    ensures RegionsFit(ws, [Normalized(r)])
    ensures var reg := Normalized(r).(articulators := []);
            reg.waveId < |ws| && (reg.loops ==> CanLoop(ws[reg.waveId], reg))
            && ws[reg.waveId := ReadLoop(ws[reg.waveId], reg)] == ReadLoopsOver(ws, [Normalized(r)])
  {
    var n := Normalized(r);
    var reg := n.(articulators := []);
    assert [r][0] == r && [n][0] == n;
    assert [n][..0] == [];
    assert ReadLoop(ws[reg.waveId], reg) == ReadLoop(ws[n.waveId], n);
  }

  lemma WrittenArticulators(r: Region)
    requires ArticulatorsFit(r)
    ensures ReadArticulators(WriteRegion(r).lar2, |WriteRegion(r).lar2|) == Ok(r.articulators)
  {
    var lar2 := WriteRegion(r).lar2;
    forall k | 0 <= k < |lar2| ensures ReadArt2(lar2[k]) == Ok(r.articulators[k]) {
      Art2RoundTrip(r.articulators[k]);
    }
    ArticulatorsRoundTrip(r.articulators, lar2, |lar2|);
    assert r.articulators[..|r.articulators|] == r.articulators;
  }

  /** A written region reads back normalised and applies the same loop to its wave. */
  lemma RegionRoundTrip(r: Region, ws: seq<RiffWave>)
    requires RegionsFit(ws, [r]) && ArticulatorsFit(r)
    ensures RegionsFit(ws, [Normalized(r)])
    ensures ReadRegion(WriteRegion(r), ws) == Ok((Normalized(r), ReadLoopsOver(ws, [Normalized(r)])))
  {
    var reg := Normalized(r).(articulators := []);
    DecodeWrittenRegion(r);
    WrittenRegionLoop(r, ws);
    WrittenArticulators(r);
    ReadRegionOk(WriteRegion(r), ws, reg, r.articulators);
    assert reg.(articulators := r.articulators) == Normalized(r);
  }

  function WriteRegions(regs: seq<Region>): (rcs: seq<RegionChunks>)
    ensures |rcs| == |regs| && forall k :: 0 <= k < |regs| ==> rcs[k] == WriteRegion(regs[k])
  {
    seq(|regs|, k requires 0 <= k < |regs| => WriteRegion(regs[k]))
  }

  lemma RegionsFitSlice(ws: seq<RiffWave>, regs: seq<Region>, lo: nat, hi: nat)
    requires lo <= hi <= |regs| && RegionsFit(ws, regs)
    ensures RegionsFit(ws, regs[lo..hi])
  {
    assert forall k :: 0 <= k < hi - lo ==> regs[lo..hi][k] == regs[lo + k];
  }

  lemma RegionsFitOne(ws: seq<RiffWave>, regs: seq<Region>, k: nat)
    requires k < |regs| && RegionsFit(ws, regs)
    ensures RegionsFit(ws, [regs[k]])
  {
  }

  lemma ReadRegionsStep(rcs: seq<RegionChunks>, ws: seq<RiffWave>, n: nat, prev: seq<Region>, w1: seq<RiffWave>, x: Region, w2: seq<RiffWave>)
    requires 0 < n <= |rcs|
    requires ReadRegions(rcs, ws, n - 1) == Ok((prev, w1)) && ReadRegion(rcs[n - 1], w1) == Ok((x, w2))
    ensures ReadRegions(rcs, ws, n) == Ok((prev + [x], w2))
  {
  }

  /** If the first n - 1 written regions read back normalised, so do the first n. */
  lemma RegionsRoundTripStep(regs: seq<Region>, ws: seq<RiffWave>, n: nat)
    requires 0 < n <= |regs|
    requires RegionsFit(ws, regs) && forall j :: 0 <= j < |regs| ==> ArticulatorsFit(regs[j])
    requires var prev := NormalizedRegions(regs[..n - 1]);
             ReadRegions(WriteRegions(regs), ws, n - 1) == Ok((prev, ReadLoopsOver(ws, prev)))
    ensures ReadRegions(WriteRegions(regs), ws, n) == Ok((NormalizedRegions(regs[..n]), ReadLoopsOver(ws, NormalizedRegions(regs[..n]))))
  {
    var rcs := WriteRegions(regs);
    var prev := NormalizedRegions(regs[..n - 1]);
    var ws' := ReadLoopsOver(ws, prev);
    var r := regs[n - 1];
    RegionsFitOne(ws, regs, n - 1);
    RegionsFitSlice(ws, regs, 0, n - 1);
    NormalizedFits(ws, regs[..n - 1]);
    SameAudioFits(ws, ws', [r]);
    RegionRoundTrip(r, ws');
    var nr := Normalized(r);
    ReadRegionsStep(rcs, ws, n, prev, ws', nr, ReadLoopsOver(ws', [nr]));
    NormalizedPrefix(regs, n);
    ReadLoopsAppend(ws, prev, [nr]);
  }

  lemma NormalizedPrefix(regs: seq<Region>, n: nat)
    requires 0 < n <= |regs|
    ensures NormalizedRegions(regs[..n]) == NormalizedRegions(regs[..n - 1]) + [Normalized(regs[n - 1])]
  {
  }

  lemma {:induction false} RegionsRoundTrip(regs: seq<Region>, ws: seq<RiffWave>, n: nat)
    requires n <= |regs|
    requires RegionsFit(ws, regs) && forall j :: 0 <= j < |regs| ==> ArticulatorsFit(regs[j])
    ensures RegionsFit(ws, NormalizedRegions(regs[..n]))
    ensures ReadRegions(WriteRegions(regs), ws, n) == Ok((NormalizedRegions(regs[..n]), ReadLoopsOver(ws, NormalizedRegions(regs[..n]))))
  {
    RegionsFitSlice(ws, regs, 0, n);
    NormalizedFits(ws, regs[..n]);
    if n > 0 {
      RegionsRoundTrip(regs, ws, n - 1);
      RegionsRoundTripStep(regs, ws, n);
    }
  }

  /** A written instrument reads back with its name and its regions normalised. */
  lemma InstrumentRoundTrip(inst: Instrument, ws: seq<RiffWave>)
    requires RegionsFit(ws, inst.regions) && InstrumentFits(inst)
    ensures ReadInstrument(WriteInstrument(inst), ws)
            == Ok((inst.(regions := NormalizedRegions(inst.regions)), ReadLoopsOver(ws, NormalizedRegions(inst.regions))))
  {
    InshRoundTrip(inst, NewInstrument);
    RegionsRoundTrip(inst.regions, ws, |inst.regions|);
    assert inst.regions[..|inst.regions|] == inst.regions;
    if inst.name != "" {
      NameRoundTrip(inst.name);
    }
  }

  /** Normalising changes no loop that a region applies to its wave. */
  lemma NormalizedFits(ws: seq<RiffWave>, regs: seq<Region>)
    requires RegionsFit(ws, regs)
    ensures RegionsFit(ws, NormalizedRegions(regs))
  {
  }

  lemma {:induction false} NormalizedAllRegions(insts: seq<Instrument>)
    ensures AllRegions(NormalizedInstruments(insts)) == NormalizedRegions(AllRegions(insts))
  {
    if insts != [] {
      var init := insts[..|insts| - 1];
      var last := insts[|insts| - 1];
      NormalizedAllRegions(init);
      assert insts == init + [last];
      AllRegionsSnoc(init, last);
      assert NormalizedInstruments(insts) == NormalizedInstruments(init) + [last.(regions := NormalizedRegions(last.regions))];
      AllRegionsSnoc(NormalizedInstruments(init), last.(regions := NormalizedRegions(last.regions)));
      assert NormalizedRegions(AllRegions(init) + last.regions)
             == NormalizedRegions(AllRegions(init)) + NormalizedRegions(last.regions);
    } else {
      assert AllRegions([]) == [];
    }
  }

  lemma ReadInstrumentsStep(ics: seq<InstrumentChunks>, ws: seq<RiffWave>, n: nat,
                            prev: seq<Instrument>, w1: seq<RiffWave>, x: Instrument, w2: seq<RiffWave>)
    requires 0 < n <= |ics|
    requires ReadInstruments(ics, ws, n - 1) == Ok((prev, w1)) && ReadInstrument(ics[n - 1], w1) == Ok((x, w2))
    ensures ReadInstruments(ics, ws, n) == Ok((prev + [x], w2))
  {
  }

  lemma NormalizedInstrumentsPrefix(insts: seq<Instrument>, n: nat)
    requires 0 < n <= |insts|
    ensures NormalizedInstruments(insts[..n])
            == NormalizedInstruments(insts[..n - 1]) + [insts[n - 1].(regions := NormalizedRegions(insts[n - 1].regions))]
  {
  }

  /** If the first n - 1 written instruments read back normalised, so do the first n. */
  lemma InstrumentsRoundTripStep(insts: seq<Instrument>, ws: seq<RiffWave>, n: nat)
    requires 0 < n <= |insts|
    requires RegionsFit(ws, AllRegions(insts)) && forall i :: 0 <= i < |insts| ==> InstrumentFits(insts[i])
    requires var r := ReadInstruments(WriteInstruments(insts), ws, n - 1);
             r.Ok? && r.value.0 == NormalizedInstruments(insts[..n - 1])
    ensures var r := ReadInstruments(WriteInstruments(insts), ws, n);
            r.Ok? && r.value.0 == NormalizedInstruments(insts[..n])
  {
    var ics := WriteInstruments(insts);
    var prev := ReadInstruments(ics, ws, n - 1).value;
    var inst := insts[n - 1];
    RegionsPrefixFit(ws, insts, n);
    SameAudioFits(ws, prev.1, inst.regions);
    InstrumentRoundTrip(inst, prev.1);
    var x := inst.(regions := NormalizedRegions(inst.regions));
    ReadInstrumentsStep(ics, ws, n, prev.0, prev.1, x, ReadLoopsOver(prev.1, NormalizedRegions(inst.regions)));
    NormalizedInstrumentsPrefix(insts, n);
  }

  lemma {:induction false} InstrumentsRoundTrip(insts: seq<Instrument>, ws: seq<RiffWave>, n: nat)
    requires n <= |insts|
    requires RegionsFit(ws, AllRegions(insts)) && forall i :: 0 <= i < |insts| ==> InstrumentFits(insts[i])
    ensures var r := ReadInstruments(WriteInstruments(insts), ws, n);
            r.Ok? && r.value.0 == NormalizedInstruments(insts[..n])
  {
    if n > 0 {
      InstrumentsRoundTrip(insts, ws, n - 1);
      InstrumentsRoundTripStep(insts, ws, n);
    }
  }

  /** The regions of instrument n - 1 are a run of all the regions, so they fit the pool too. */
  lemma RegionsPrefixFit(ws: seq<RiffWave>, insts: seq<Instrument>, n: nat)
    requires 0 < n <= |insts| && RegionsFit(ws, AllRegions(insts))
    ensures RegionsFit(ws, insts[n - 1].regions)
  {
    var xss := seq(|insts|, i requires 0 <= i < |insts| => insts[i].regions);
    ConcatSlice(xss, n - 1);
    RegionsFitSlice(ws, AllRegions(insts), Offset(xss, n - 1), Offset(xss, n));
  }

  /**
    Reading a written file gives the instruments back, names included and
    each non-looping region with the default loop fields, and the wave pool
    with every region's loop applied in file order.
  */
  lemma DLSRoundTrip(insts: seq<Instrument>, waves: seq<RiffWave>, sizes: seq<nat>)
    requires |sizes| == |waves|
    requires RegionsFit(waves, AllRegions(insts)) && forall i :: 0 <= i < |insts| ==> InstrumentFits(insts[i])
    ensures ReadDLS(WriteDLS(insts, waves, sizes))
            == Ok((NormalizedInstruments(insts), ReadLoopsOver(waves, NormalizedRegions(AllRegions(insts)))))
  {
    InstrumentsRoundTrip(insts, waves, |insts|);
    assert insts[..|insts|] == insts;
    NormalizedAllRegions(insts);
  }

  // ---------------------------------------------------------------------
  // The pointer table.

  lemma {:induction false} SumPrefix(sizes: seq<nat>, k: nat)
    requires k < |sizes|
    ensures Sum(sizes[..k + 1]) == Sum(sizes[..k]) + sizes[k]
    ensures Sum(sizes[..k + 1]) <= Sum(sizes)
  {
    assert sizes[..k + 1][..k] == sizes[..k];
    SumMonotone(sizes, k + 1);
  }

  lemma {:induction false} SumMonotone(sizes: seq<nat>, k: nat)
    requires k <= |sizes|
    ensures Sum(sizes[..k]) <= Sum(sizes)
    decreases |sizes| - k
  {
    if k < |sizes| {
      SumMonotone(sizes, k + 1);
      assert sizes[..k + 1][..k] == sizes[..k];
    } else {
      assert sizes[..k] == sizes;
    }
  }

  /**
    The first entry is 0 and each next entry adds the previous wave's size,
    so the entries ascend as long as the wave list stays below 4 GiB.
  */
  lemma PointerEntriesAscend(sizes: seq<nat>)
    requires Sum(sizes) < 0x1_0000_0000
    ensures |sizes| > 0 ==> PointerEntries(sizes)[0] == 0
    ensures forall k :: 0 <= k < |sizes| - 1 ==> PointerEntries(sizes)[k + 1] == PointerEntries(sizes)[k] + sizes[k]
  {
    if |sizes| > 0 {
      assert sizes[..0] == [];
    }
    forall k | 0 <= k < |sizes| - 1
      ensures PointerEntries(sizes)[k + 1] == PointerEntries(sizes)[k] + sizes[k]
    {
      SumPrefix(sizes, k);
      SumMonotone(sizes, k);
    }
  }
}
