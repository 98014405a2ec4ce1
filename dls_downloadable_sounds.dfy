/**
  The `DownloadableSounds` object: its instrument list and wave pool, read
  from and written to a DLS file chunk by chunk, and the pass that copies
  the regions' loops onto the waves. The loops over lists live in module
  methods on values, each proved equal to the function in `DLSFile` that
  specifies it; the class methods assign the fields.
*/
module DLSDownloadableSounds {
  import opened Ints
  import opened Bytes
  import opened Wrappers
  import opened Records
  import opened Lists
  import opened RiffWave
  import opened DLSArticulator
  import opened DLSRegion
  import opened DLSInstrument
  import opened DLSChunks
  import opened DLSWaveLoops
  import opened DLSFile

  // ---------------------------------------------------------------------
  // Reading, list by list.

  /** The `lar2` list: one articulator per `art2` chunk, in order. */
  method ReadArticulatorList(arts: seq<Bytes>) returns (r: Result<seq<Articulator>>)
    ensures r == ReadArticulators(arts, |arts|)
  {
    r := Ok([]);
    for k := 0 to |arts|
      invariant r == ReadArticulators(arts, k)
    {
      if r.Ok? {
        var a := ReadArt2(arts[k]);
        if a.Ok? {
          r := Ok(r.value + [a.value]);
        } else {
          r := Err(a.error);
        }
      }
    }
  }

  /** One `rgn2` list: header, sample, wave link, the referenced wave's loop, then the articulators. */
  method ReadRegionChunk(rc: RegionChunks, ws: seq<RiffWave>) returns (r: Result<(Region, seq<RiffWave>)>)
    ensures r == ReadRegion(rc, ws)
  {
    var d := DecodeRegion(rc);
    if d.Err? {
      return Err(d.error);
    }
    var reg := d.value;
    if reg.waveId >= |ws| || (reg.loops && !CanLoop(ws[reg.waveId], reg)) {
      return Err(IndexError);
    }
    var ws' := ws[reg.waveId := ReadLoop(ws[reg.waveId], reg)];
    var arts := ReadArticulatorList(rc.lar2);
    if arts.Err? {
      return Err(arts.error);
    }
    r := Ok((reg.(articulators := arts.value), ws'));
  }

  /** The `lrgn` list, the wave pool threaded through its regions. */
  method ReadRegionList(rcs: seq<RegionChunks>, ws: seq<RiffWave>) returns (r: Result<(seq<Region>, seq<RiffWave>)>)
    ensures r == ReadRegions(rcs, ws, |rcs|)
  {
    r := Ok(([], ws));
    for k := 0 to |rcs|
      invariant r == ReadRegions(rcs, ws, k)
    {
      if r.Ok? {
        var next := ReadRegionChunk(rcs[k], r.value.1);
        if next.Ok? {
          r := Ok((r.value.0 + [next.value.0], next.value.1));
        } else {
          r := Err(next.error);
        }
      }
    }
  }

  /** One `ins ` list: the bank and instrument ids, the regions, then the name if there is one. */
  method ReadInstrumentChunk(ic: InstrumentChunks, ws: seq<RiffWave>) returns (r: Result<(Instrument, seq<RiffWave>)>)
    ensures r == ReadInstrument(ic, ws)
  {
    if |ic.insh| < InshSize {
      return Err(FormatError);
    }
    var inst := ReadInsh(ic.insh, NewInstrument);
    var p := ReadRegionList(ic.regions, ws);
    if p.Err? {
      return Err(p.error);
    }
    var name := "";
    if ic.inam.Some? {
      name := ReadName(ic.inam.value);
    }
    r := Ok((inst.(name := name, regions := p.value.0), p.value.1));
  }

  /** One more instrument of the `lins` list, once the earlier ones have been read. */
  method ReadNextInstrument(ics: seq<InstrumentChunks>, ws: seq<RiffWave>, k: nat, r: Result<(seq<Instrument>, seq<RiffWave>)>)
    returns (r': Result<(seq<Instrument>, seq<RiffWave>)>)
    requires k < |ics| && r == ReadInstruments(ics, ws, k)
    ensures r' == ReadInstruments(ics, ws, k + 1)
  {
    r' := r;
    if r.Ok? {
      var next := ReadInstrumentChunk(ics[k], r.value.1);
      if next.Ok? {
        r' := Ok((r.value.0 + [next.value.0], next.value.1));
      } else {
        r' := Err(next.error);
      }
    }
  }

  /** The `lins` list, the wave pool threaded through every instrument. */
  method ReadInstrumentList(ics: seq<InstrumentChunks>, ws: seq<RiffWave>) returns (r: Result<(seq<Instrument>, seq<RiffWave>)>)
    ensures r == ReadInstruments(ics, ws, |ics|)
  {
    r := Ok(([], ws));
    for k := 0 to |ics|
      invariant r == ReadInstruments(ics, ws, k)
    {
      r := ReadNextInstrument(ics, ws, k, r);
    }
  }

  // ---------------------------------------------------------------------
  // Writing, list by list.

  method WriteRegionChunk(reg: Region) returns (rc: RegionChunks)
    ensures rc == WriteRegion(reg)
  {
    var arts: seq<Bytes> := [];
    for k := 0 to |reg.articulators|
      invariant arts == seq(k, j requires 0 <= j < k => WriteArt2(reg.articulators[j]))
    {
      arts := arts + [WriteArt2(reg.articulators[k])];
    }
    rc := RegionChunks(WriteRgnh(reg), WriteWsmp(reg), WriteWlnk(reg), arts);
  }

  method WriteRegionList(regs: seq<Region>) returns (rcs: seq<RegionChunks>)
    ensures rcs == WriteRegions(regs)
  {
    rcs := [];
    for k := 0 to |regs|
      invariant rcs == WriteRegions(regs[..k])
    {
      var rc := WriteRegionChunk(regs[k]);
      rcs := rcs + [rc];
    }
    assert regs[..|regs|] == regs;
  }

  /** The `INFO`/`INAM` name is written only for an instrument with a name. */
  method WriteInstrumentChunk(inst: Instrument) returns (ic: InstrumentChunks)
    ensures ic == WriteInstrument(inst)
  {
    var rcs := WriteRegionList(inst.regions);
    var inam := None;
    if inst.name != "" {
      var b := WriteName(inst.name);
      inam := Some(b);
    }
    ic := InstrumentChunks(WriteInsh(inst), rcs, inam);
  }

  method WriteInstrumentList(insts: seq<Instrument>) returns (ics: seq<InstrumentChunks>)
    ensures ics == WriteInstruments(insts)
  {
    ics := [];
    for k := 0 to |insts|
      invariant ics == WriteInstruments(insts[..k])
    {
      var ic := WriteInstrumentChunk(insts[k]);
      ics := ics + [ic];
    }
    assert insts[..|insts|] == insts;
  }

  lemma SumStep(sizes: seq<nat>, k: nat)
    requires k < |sizes|
    ensures Sum(sizes[..k + 1]) == Sum(sizes[..k]) + sizes[k]
  {
    assert sizes[..k + 1][..k] == sizes[..k];
  }

  /**
    The pointer table: its slots are reserved as zeros, then each is
    patched, wave by wave, with the running offset into the wave list.
  */
  method WritePointerTable(sizes: seq<nat>) returns (b: Bytes)
    ensures b == PointerTable(sizes)
  {
    var slots := new u32[|sizes|](_ => 0);
    var offset: nat := 0;
    for k := 0 to |sizes|
      invariant offset == Sum(sizes[..k])
      invariant slots[..k] == PointerEntries(sizes)[..k]
    {
      slots[k] := ToU32(offset);
      SumStep(sizes, k);
      offset := offset + sizes[k];
    }
    assert slots[..] == PointerEntries(sizes);
    b := LeU32(8) + LeU32(ToU32(|sizes|)) + Flatten(slots[..], LeU32);
  }

  // ---------------------------------------------------------------------
  // The loop pass.

  /** The regions of the first i instruments, then the first j of instrument i. */
  function RegionsBefore(insts: seq<Instrument>, i: nat, j: nat): seq<Region>
    requires i < |insts| && j <= |insts[i].regions|
  {
    AllRegions(insts[..i]) + insts[i].regions[..j]
  }

  /** The regions seen so far are a prefix of all the regions, so they fit the pool too. */
  lemma RegionsBeforeFit(ws: seq<RiffWave>, insts: seq<Instrument>, i: nat, j: nat)
    requires i < |insts| && j <= |insts[i].regions| && LoopsFit(ws, AllRegions(insts))
    ensures LoopsFit(ws, RegionsBefore(insts, i, j))
  {
    var regs := insts[i].regions;
    assert insts == insts[..i] + [insts[i]] + insts[i + 1..];
    AllRegionsAppend(insts[..i] + [insts[i]], insts[i + 1..]);
    AllRegionsSnoc(insts[..i], insts[i]);
    var all := AllRegions(insts);
    var pre := RegionsBefore(insts, i, j);
    assert all == AllRegions(insts[..i]) + regs[..j] + (regs[j..] + AllRegions(insts[i + 1..]));
    assert all[..|pre|] == pre;
    LoopsFitSlice(ws, all, 0, |pre|);
  }

  lemma AssignLoopsSnoc(ws: seq<RiffWave>, regs: seq<Region>, r: Region)
    requires LoopsFit(ws, regs + [r])
    ensures LoopsFit(ws, regs) && LoopFits(AssignLoopsOver(ws, regs), r)
    ensures var prev := AssignLoopsOver(ws, regs);
            AssignLoopsOver(ws, regs + [r])
            == if r.loops then prev[r.waveId := Looped(prev[r.waveId], r)] else prev
  {
    LoopsFitSlice(ws, regs + [r], 0, |regs|);
    LoopsFitSlice(ws, regs + [r], |regs|, |regs| + 1);
    assert (regs + [r])[..|regs|] == regs;
    assert (regs + [r])[|regs|..|regs| + 1] == [r];
    SameAudioLoopsFit(ws, AssignLoopsOver(ws, regs), [r]);
    assert [r][0] == r;
  }

  /** One region: a looping one overwrites its wave's loop. */
  method AssignRegionLoop(insts: seq<Instrument>, ws: seq<RiffWave>, i: nat, j: nat, out: seq<RiffWave>)
    returns (out': seq<RiffWave>)
    requires i < |insts| && j < |insts[i].regions| && LoopsFit(ws, AllRegions(insts))
    requires LoopsFit(ws, RegionsBefore(insts, i, j)) && out == AssignLoopsOver(ws, RegionsBefore(insts, i, j))
    ensures LoopsFit(ws, RegionsBefore(insts, i, j + 1)) && out' == AssignLoopsOver(ws, RegionsBefore(insts, i, j + 1))
  {
    var reg := insts[i].regions[j];
    RegionsBeforeFit(ws, insts, i, j + 1);
    assert RegionsBefore(insts, i, j + 1) == RegionsBefore(insts, i, j) + [reg];
    AssignLoopsSnoc(ws, RegionsBefore(insts, i, j), reg);
    out' := out;
    if reg.loops {
      out' := out[reg.waveId := Looped(out[reg.waveId], reg)];
    }
  }

  /** One instrument: its regions in order. */
  method AssignInstrumentLoops(insts: seq<Instrument>, ws: seq<RiffWave>, i: nat, out: seq<RiffWave>)
    returns (out': seq<RiffWave>)
    requires i < |insts| && LoopsFit(ws, AllRegions(insts))
    requires LoopsFit(ws, AllRegions(insts[..i])) && out == AssignLoopsOver(ws, AllRegions(insts[..i]))
    ensures LoopsFit(ws, AllRegions(insts[..i + 1])) && out' == AssignLoopsOver(ws, AllRegions(insts[..i + 1]))
  {
    var regs := insts[i].regions;
    assert RegionsBefore(insts, i, 0) == AllRegions(insts[..i]);
    out' := out;
    for j := 0 to |regs|
      invariant LoopsFit(ws, RegionsBefore(insts, i, j))
      invariant out' == AssignLoopsOver(ws, RegionsBefore(insts, i, j))
    {
      out' := AssignRegionLoop(insts, ws, i, j, out');
    }
    assert insts[..i + 1] == insts[..i] + [insts[i]];
    AllRegionsSnoc(insts[..i], insts[i]);
    assert RegionsBefore(insts, i, |regs|) == AllRegions(insts[..i + 1]);
  }

  /** Walks every region of every instrument; a looping one overwrites its wave's loop. */
  method AssignLoopsIn(insts: seq<Instrument>, ws: seq<RiffWave>) returns (out: seq<RiffWave>)
    requires LoopsFit(ws, AllRegions(insts))
    ensures out == AssignLoopsOver(ws, AllRegions(insts))
  {
    out := ws;
    assert AllRegions(insts[..0]) == [];
    for i := 0 to |insts|
      invariant LoopsFit(ws, AllRegions(insts[..i]))
      invariant out == AssignLoopsOver(ws, AllRegions(insts[..i]))
    {
      out := AssignInstrumentLoops(insts, ws, i, out);
    }
    assert insts[..|insts|] == insts;
  }

  // ---------------------------------------------------------------------
  // The object.

  class DownloadableSounds {
    var instruments: seq<Instrument>
    var waves: seq<RiffWave>

    /** The blank sound bank. */
    constructor ()
      ensures instruments == [] && waves == []
    {
      instruments := [];
      waves := [];
    }

    /**
      Replaces the wave pool with the file's, threads it through every
      region, and appends the file's instruments to the list (which is
      not cleared first). An error leaves the object as it was.
    */
    method Read(f: DLSFile) returns (err: Option<Error>)
      modifies this
      ensures var r := ReadDLS(f);
              if r.Ok? then err.None? && instruments == old(instruments) + r.value.0 && waves == r.value.1
              else err == Some(r.error) && instruments == old(instruments) && waves == old(waves)
    {
      var r := ReadInstrumentList(f.instruments, f.waves);
      if r.Err? {
        return Some(r.error);
      }
      instruments := instruments + r.value.0;
      waves := r.value.1;
      err := None;
    }

    /** The file, given the byte size the audio library writes each wave in. */
    method Write(sizes: seq<nat>) returns (f: DLSFile)
      requires |sizes| == |waves|
      ensures f == WriteDLS(instruments, waves, sizes)
    {
      var ics := WriteInstrumentList(instruments);
      var ptbl := WritePointerTable(sizes);
      f := DLSFile(LeU32(ToU32(|instruments|)), ics, ptbl, waves);
    }

    /** Copies every looping region's loop onto the wave it plays; the last one per wave wins. */
    method AssignLoops()
      requires LoopsFit(waves, AllRegions(instruments))
      modifies this
      ensures instruments == old(instruments)
      ensures waves == AssignLoopsOver(old(waves), AllRegions(instruments))
    {
      waves := AssignLoopsIn(instruments, waves);
    }
  }
}
