/**
  Converting a DLS instrument set to SF2. Every DLS instrument becomes an
  SF2 instrument with one zone per region, and a preset with one zone
  that selects it. A region's zone holds, in order: the key and velocity
  ranges when they are not the full range, the root key, the sample, the
  loop mode when the wave loops, and one generator per articulation
  connection whose destination has an SF2 counterpart.
*/
module SF2Converter {
  import opened Ints
  import opened Wrappers
  import opened Lists
  import opened RiffWave
  import opened DLSArticulator
  import opened DLSRegion
  import D = DLSInstrument
  import opened DLSWaveLoops
  import G = SF2Generators
  import opened SF2GeneratorAmount
  import opened SF2Generator
  import opened SF2Zone
  import opened SF2Preset
  import S = SF2Instrument
  import opened SF2SampleItem
  import opened SF2SampleTable

  // ---------------------------------------------------------------------
  // Articulation connections.

  /** `(short)(scale / 65536)`: the integer part of the 16.16 scale, which always fits a `short`. */
  function ScaledAmount(scale: i32): (a: i16)
    ensures a == FixedToInt(scale)
  {
    ToI16(FixedToInt(scale))
  }

  /**
    The sustain level, a fraction of 1000 in 16.16, becomes an attenuation
    of 1000 minus that level: `(short)((1 - scale / 65536 / 1000) * 1000)`
    computed exactly and cut to a `short`.
  */
  function SustainAmount(scale: i32): (a: i16)
    ensures scale > -2081947648 ==> a == FixedToInt(65536000 - scale)
  {
    ToI16(FixedToInt(65536000 - scale))
  }

  /** A full sustain level is no attenuation, no sustain level is the full 1000. */
  lemma SustainEnds()
    ensures SustainAmount(65536000) == 0 && SustainAmount(0) == 1000
  {
  }

  /** A level of k thousandths becomes an attenuation of 1000 - k. */
  lemma SustainLinear(k: int)
    requires 0 <= k <= 1000
    ensures SustainAmount(k * 0x1_0000) == 1000 - k
  {
    assert 65536000 - k * 0x1_0000 == (1000 - k) * 0x1_0000;
  }

  /** The SF2 generator a destination maps to, or the "no generator" marker. */
  function DestinationKind(d: u16): (g: int)
    ensures g == G.NoGenerator <==> d !in MappedDestinations()
  {
    if d == Chorus then G.ChorusEffectsSend as int
    else if d == EG1AttackTime then G.AttackVolEnv as int
    else if d == EG1DecayTime then G.DecayVolEnv as int
    else if d == EG1DelayTime then G.DelayVolEnv as int
    else if d == EG1HoldTime then G.HoldVolEnv as int
    else if d == EG1ReleaseTime then G.ReleaseVolEnv as int
    else if d == EG1SustainLevel then G.SustainVolEnv as int
    else if d == KeyNumber then G.Keynum as int
    else if d == Pan then G.Pan as int
    else if d == LFOFrequency then G.FreqModLFO as int
    else if d == LFOStartDelayTime then G.DelayModLFO as int
    else G.NoGenerator
  }

  /** The kinds a connection can produce. */
  function ArticulationKinds(): seq<u16>
  {
    [G.ChorusEffectsSend, G.AttackVolEnv, G.DecayVolEnv, G.DelayVolEnv, G.HoldVolEnv, G.ReleaseVolEnv,
     G.SustainVolEnv, G.Keynum, G.Pan, G.FreqModLFO, G.DelayModLFO]
  }

  /**
    One connection's generator: the mapped kind with the scaled amount
    (the sustain level converted to an attenuation), or none for an
    unmapped destination. The transform is not looked at.
  */
  function ConnectionGenerator(c: Connection): (g: Option<Generator>)
    ensures g.Some? <==> c.destination in MappedDestinations()
    ensures g.Some? ==> g.value.gen in ArticulationKinds()
    ensures g.Some? ==> Amount(g.value.amount)
                        == if c.destination == EG1SustainLevel then SustainAmount(c.scale) else FixedToInt(c.scale)
  {
    var kind := DestinationKind(c.destination);
    if kind == G.NoGenerator then None
    else
      var amount := if c.destination == EG1SustainLevel then SustainAmount(c.scale) else ScaledAmount(c.scale);
      Some(Generator(kind as u16, FromAmount(amount)))
  }

  /** Different destinations never produce the same generator kind. */
  lemma ConnectionKindsDistinct(c1: Connection, c2: Connection)
    requires ConnectionGenerator(c1).Some? && ConnectionGenerator(c2).Some?
    requires c1.destination != c2.destination
    ensures ConnectionGenerator(c1).value.gen != ConnectionGenerator(c2).value.gen
  {
  }

  /** None of the articulation kinds is a range, the root key, the sample, the loop mode or the instrument. */
  lemma ArticulationKindsAreNotStructural()
    ensures forall k :: k in ArticulationKinds() ==>
              k !in {G.KeyRange, G.VelRange, G.OverridingRootKey, G.SampleID, G.SampleModes, G.Instrument}
  {
  }

  /** The generators of a list of connections, in order, unmapped ones skipped. */
  function ConnectionGenerators(cs: seq<Connection>): (gs: seq<Generator>)
    ensures |gs| <= |cs|
    ensures forall k :: 0 <= k < |gs| ==> gs[k].gen in ArticulationKinds()
  {
    if cs == [] then []
    else
      var prev := ConnectionGenerators(cs[..|cs| - 1]);
      var g := ConnectionGenerator(cs[|cs| - 1]);
      if g.Some? then prev + [g.value] else prev
  }

  /** The generators of every articulator's connections, articulator by articulator. */
  function ArticulatorGenerators(arts: seq<Articulator>): (gs: seq<Generator>)
    ensures forall k :: 0 <= k < |gs| ==> gs[k].gen in ArticulationKinds()
  {
    if arts == [] then []
    else ArticulatorGenerators(arts[..|arts| - 1]) + ConnectionGenerators(arts[|arts| - 1].connections)
  }

  /** Only mapped connections contribute: a list of unmapped ones gives no generator. */
  lemma {:induction false} UnmappedGiveNothing(cs: seq<Connection>)
    requires forall k :: 0 <= k < |cs| ==> cs[k].destination !in MappedDestinations()
    ensures ConnectionGenerators(cs) == []
  {
    if cs != [] {
      UnmappedGiveNothing(cs[..|cs| - 1]);
    }
  }

  /** Every mapped connection gives exactly one generator. */
  lemma {:induction false} MappedGiveOneEach(cs: seq<Connection>)
    requires forall k :: 0 <= k < |cs| ==> cs[k].destination in MappedDestinations()
    ensures |ConnectionGenerators(cs)| == |cs|
  {
    if cs != [] {
      MappedGiveOneEach(cs[..|cs| - 1]);
    }
  }

  /** The inner loop: appends the generators of one articulator's connections. */
  method AddConnectionGenerators(gs: seq<Generator>, cs: seq<Connection>) returns (gs': seq<Generator>)
    ensures gs' == gs + ConnectionGenerators(cs)
  {
    gs' := gs;
    for c := 0 to |cs|
      invariant gs' == gs + ConnectionGenerators(cs[..c])
    {
      ConnectionStep(gs, cs, c);
      var g := ConnectionGenerator(cs[c]);
      if g.Some? {
        gs' := gs' + [g.value];
      }
    }
    assert cs[..|cs|] == cs;
  }

  lemma ConnectionStep(gs: seq<Generator>, cs: seq<Connection>, c: nat)
    requires c < |cs|
    ensures var g := ConnectionGenerator(cs[c]);
            gs + ConnectionGenerators(cs[..c + 1])
            == if g.Some? then gs + ConnectionGenerators(cs[..c]) + [g.value] else gs + ConnectionGenerators(cs[..c])
  {
    assert cs[..c + 1][..c] == cs[..c];
  }

  /** The nested loops over articulators and their connections. */
  method ArticulationGenerators(arts: seq<Articulator>) returns (gs: seq<Generator>)
    ensures gs == ArticulatorGenerators(arts)
  {
    gs := [];
    for a := 0 to |arts|
      invariant gs == ArticulatorGenerators(arts[..a])
    {
      assert arts[..a + 1][..a] == arts[..a];
      gs := AddConnectionGenerators(gs, arts[a].connections);
    }
    assert arts[..|arts|] == arts;
  }

  // ---------------------------------------------------------------------
  // Zones.

  /** A range generator: the low bound in the low byte, the high bound in the high byte, each cut to a byte. */
  function RangeAmount(lo: u16, hi: u16): (a: GeneratorAmount)
    ensures lo < 0x100 && hi < 0x100 ==> a.lowByte == lo && a.highByte == hi
  {
    GeneratorAmount(ToU8(lo), ToU8(hi))
  }

  predicate FullKeyRange(r: Region)
  {
    r.noteLow == 0 && r.noteHigh == 127
  }

  predicate FullVelocityRange(r: Region)
  {
    r.velocityLow == 0 && r.velocityHigh == 127
  }

  function KeyRangeGenerators(r: Region): seq<Generator>
  {
    if !FullKeyRange(r) then [Generator(G.KeyRange, RangeAmount(r.noteLow, r.noteHigh))] else []
  }

  function VelocityRangeGenerators(r: Region): seq<Generator>
  {
    if !FullVelocityRange(r) then [Generator(G.VelRange, RangeAmount(r.velocityLow, r.velocityHigh))] else []
  }

  function LoopModeGenerators(loops: bool): seq<Generator>
  {
    if loops then [Generator(G.SampleModes, FromAmount(1))] else []
  }

  /** The generators that describe the region itself, before the articulation. */
  function RegionHead(r: Region, loops: bool, sampleId: u16): seq<Generator>
  {
    KeyRangeGenerators(r) + VelocityRangeGenerators(r)
    + [Generator(G.OverridingRootKey, FromUAmount(r.rootNote))] + [Generator(G.SampleID, FromUAmount(sampleId))]
    + LoopModeGenerators(loops)
  }

  /** The zone of one region: its own generators, then the articulation's; no modulators. */
  function RegionZone(r: Region, loops: bool, sampleId: u16): Zone
  {
    Zone(RegionHead(r, loops, sampleId) + ArticulatorGenerators(r.articulators), [])
  }

  /** The step-by-step zone builder. */
  method BuildZone(r: Region, loops: bool, sampleId: u16) returns (z: Zone)
    ensures z == RegionZone(r, loops, sampleId)
  {
    var gens: seq<Generator> := [];
    if r.noteHigh != 127 || r.noteLow != 0 {
      gens := [Generator(G.KeyRange, GeneratorAmount(ToU8(r.noteLow), ToU8(r.noteHigh)))];
    }
    assert gens == KeyRangeGenerators(r);
    var vel: seq<Generator> := [];
    if r.velocityHigh != 127 || r.velocityLow != 0 {
      vel := [Generator(G.VelRange, GeneratorAmount(ToU8(r.velocityLow), ToU8(r.velocityHigh)))];
    }
    assert vel == VelocityRangeGenerators(r);
    gens := gens + vel;
    gens := gens + [Generator(G.OverridingRootKey, FromUAmount(r.rootNote))];
    gens := gens + [Generator(G.SampleID, FromUAmount(sampleId))];
    var mode: seq<Generator> := [];
    if loops {
      mode := [Generator(G.SampleModes, FromAmount(1))];
    }
    gens := gens + mode;
    var arts := ArticulationGenerators(r.articulators);
    z := Zone(gens + arts, []);
  }

  predicate HasKind(gs: seq<Generator>, kind: u16)
  {
    exists i :: 0 <= i < |gs| && gs[i].gen == kind
  }

  /** Every generator of the given kind has the given unsigned amount. */
  predicate KindAmount(gs: seq<Generator>, kind: u16, u: u16)
  {
    forall i :: 0 <= i < |gs| && gs[i].gen == kind ==> UAmount(gs[i].amount) == u
  }

  lemma HasKindAppend(a: seq<Generator>, b: seq<Generator>, kind: u16)
    ensures HasKind(a + b, kind) <==> HasKind(a, kind) || HasKind(b, kind)
  {
    if HasKind(a + b, kind) {
      var i :| 0 <= i < |a + b| && (a + b)[i].gen == kind;
      if i < |a| {
        assert a[i].gen == kind;
      } else {
        assert b[i - |a|].gen == kind;
      }
    }
    if HasKind(a, kind) {
      var i :| 0 <= i < |a| && a[i].gen == kind;
      assert (a + b)[i].gen == kind;
    }
    if HasKind(b, kind) {
      var i :| 0 <= i < |b| && b[i].gen == kind;
      assert (a + b)[|a| + i].gen == kind;
    }
  }

  lemma KindAmountAppend(a: seq<Generator>, b: seq<Generator>, kind: u16, u: u16)
    ensures KindAmount(a + b, kind, u) <==> KindAmount(a, kind, u) && KindAmount(b, kind, u)
  {
    if KindAmount(a, kind, u) && KindAmount(b, kind, u) {
      forall i | 0 <= i < |a + b| && (a + b)[i].gen == kind
        ensures UAmount((a + b)[i].amount) == u
      {
        if i < |a| {
          assert (a + b)[i] == a[i];
        } else {
          assert (a + b)[i] == b[i - |a|];
        }
      }
    }
    if KindAmount(a + b, kind, u) {
      forall i | 0 <= i < |a| && a[i].gen == kind
        ensures UAmount(a[i].amount) == u
      {
        assert (a + b)[i] == a[i];
      }
      forall i | 0 <= i < |b| && b[i].gen == kind
        ensures UAmount(b[i].amount) == u
      {
        assert (a + b)[|a| + i] == b[i];
      }
    }
  }

  /** The articulation never produces a range, the root key, the sample or the loop mode. */
  lemma ArticulationHasNoStructuralKind(arts: seq<Articulator>, u: u16)
    ensures var gs := ArticulatorGenerators(arts);
            !HasKind(gs, G.KeyRange) && !HasKind(gs, G.VelRange) && !HasKind(gs, G.SampleModes)
            && KindAmount(gs, G.SampleID, u)
  {
    ArticulationKindsAreNotStructural();
  }

  /**
    A key range generator is present exactly when the region does not
    cover all 128 keys, a velocity range exactly when it does not cover
    all velocities, and a loop mode exactly when the wave loops; there is
    a root key and a sample generator, and every sample generator names
    the given sample.
  */
  lemma RegionZoneGenerators(r: Region, loops: bool, sampleId: u16)
    ensures var z := RegionZone(r, loops, sampleId);
            (HasGenerator(z, G.KeyRange) <==> !FullKeyRange(r))
            && (HasGenerator(z, G.VelRange) <==> !FullVelocityRange(r))
            && (HasGenerator(z, G.SampleModes) <==> loops)
            && HasGenerator(z, G.OverridingRootKey) && HasGenerator(z, G.SampleID)
            && KindAmount(z.generators, G.SampleID, sampleId)
  {
    ZoneKeyRange(r, loops, sampleId);
    ZoneVelocityRange(r, loops, sampleId);
    ZoneLoopMode(r, loops, sampleId);
    ZoneRootKey(r, loops, sampleId);
    ZoneSample(r, loops, sampleId);
  }

  lemma ZoneKeyRange(r: Region, loops: bool, sampleId: u16)
    ensures HasGenerator(RegionZone(r, loops, sampleId), G.KeyRange) <==> !FullKeyRange(r)
  {
    ArticulationHasNoStructuralKind(r.articulators, sampleId);
    ZoneKind(r, loops, sampleId, G.KeyRange);
    if !FullKeyRange(r) {
      assert KeyRangeGenerators(r)[0].gen == G.KeyRange;
    }
  }

  lemma ZoneVelocityRange(r: Region, loops: bool, sampleId: u16)
    ensures HasGenerator(RegionZone(r, loops, sampleId), G.VelRange) <==> !FullVelocityRange(r)
  {
    ArticulationHasNoStructuralKind(r.articulators, sampleId);
    ZoneKind(r, loops, sampleId, G.VelRange);
    if !FullVelocityRange(r) {
      assert VelocityRangeGenerators(r)[0].gen == G.VelRange;
    }
  }

  lemma ZoneLoopMode(r: Region, loops: bool, sampleId: u16)
    ensures HasGenerator(RegionZone(r, loops, sampleId), G.SampleModes) <==> loops
  {
    ArticulationHasNoStructuralKind(r.articulators, sampleId);
    ZoneKind(r, loops, sampleId, G.SampleModes);
    if loops {
      assert LoopModeGenerators(loops)[0].gen == G.SampleModes;
    }
  }

  lemma ZoneRootKey(r: Region, loops: bool, sampleId: u16)
    ensures HasGenerator(RegionZone(r, loops, sampleId), G.OverridingRootKey)
  {
    ArticulationHasNoStructuralKind(r.articulators, sampleId);
    ZoneKind(r, loops, sampleId, G.OverridingRootKey);
    assert [Generator(G.OverridingRootKey, FromUAmount(r.rootNote))][0].gen == G.OverridingRootKey;
  }

  lemma ZoneSample(r: Region, loops: bool, sampleId: u16)
    ensures var z := RegionZone(r, loops, sampleId);
            HasGenerator(z, G.SampleID) && KindAmount(z.generators, G.SampleID, sampleId)
  {
    ArticulationHasNoStructuralKind(r.articulators, sampleId);
    ZoneKind(r, loops, sampleId, G.SampleID);
    assert [Generator(G.SampleID, FromUAmount(sampleId))][0].gen == G.SampleID;
  }

  /** A zone has a generator of some kind exactly when one of its pieces has. */
  lemma ZoneKind(r: Region, loops: bool, sampleId: u16, kind: u16)
    ensures var gs := RegionZone(r, loops, sampleId).generators;
            var kr := KeyRangeGenerators(r);
            var vr := VelocityRangeGenerators(r);
            var root := [Generator(G.OverridingRootKey, FromUAmount(r.rootNote))];
            var sid := [Generator(G.SampleID, FromUAmount(sampleId))];
            var lm := LoopModeGenerators(loops);
            var arts := ArticulatorGenerators(r.articulators);
            (HasKind(gs, kind) <==> (HasKind(kr, kind) || HasKind(vr, kind) || HasKind(root, kind)
                                     || HasKind(sid, kind) || HasKind(lm, kind) || HasKind(arts, kind)))
            && (KindAmount(gs, kind, sampleId) <==>
                  (KindAmount(kr, kind, sampleId) && KindAmount(vr, kind, sampleId)
                   && KindAmount(root, kind, sampleId) && KindAmount(sid, kind, sampleId)
                   && KindAmount(lm, kind, sampleId) && KindAmount(arts, kind, sampleId)))
  {
    var kr := KeyRangeGenerators(r);
    var vr := VelocityRangeGenerators(r);
    var root := [Generator(G.OverridingRootKey, FromUAmount(r.rootNote))];
    var sid := [Generator(G.SampleID, FromUAmount(sampleId))];
    var lm := LoopModeGenerators(loops);
    var arts := ArticulatorGenerators(r.articulators);
    HasKindAppend(kr, vr, kind);
    HasKindAppend(kr + vr, root, kind);
    HasKindAppend(kr + vr + root, sid, kind);
    HasKindAppend(kr + vr + root + sid, lm, kind);
    HasKindAppend(kr + vr + root + sid + lm, arts, kind);
    KindAmountAppend(kr, vr, kind, sampleId);
    KindAmountAppend(kr + vr, root, kind, sampleId);
    KindAmountAppend(kr + vr + root, sid, kind, sampleId);
    KindAmountAppend(kr + vr + root + sid, lm, kind, sampleId);
    KindAmountAppend(kr + vr + root + sid + lm, arts, kind, sampleId);
  }

  // ---------------------------------------------------------------------
  // Instruments and presets.

  /** The region names a wave of the pool. */
  predicate WavesCover(ws: seq<RiffWave>, regs: seq<Region>)
  {
    forall k :: 0 <= k < |regs| ==> regs[k].waveId < |ws|
  }

  /** The zone of a region: its wave's new index as the sample, the wave's loop flag as the loop mode. */
  function ZoneOf(r: Region, ws: seq<RiffWave>, idx: seq<nat>): Zone
    requires r.waveId < |ws| && |idx| == |ws|
  {
    RegionZone(r, ws[r.waveId].loops, ToU16(idx[r.waveId]))
  }

  /** The zones of a list of regions, one per region, in order. */
  function RegionZones(regs: seq<Region>, ws: seq<RiffWave>, idx: seq<nat>): (zs: seq<Zone>)
    requires WavesCover(ws, regs) && |idx| == |ws|
    ensures |zs| == |regs|
  {
    if regs == [] then []
    else RegionZones(regs[..|regs| - 1], ws, idx) + [ZoneOf(regs[|regs| - 1], ws, idx)]
  }

  /** The SF2 instrument of a DLS instrument: the same name, one zone per region, no global zone. */
  function ConvertInstrument(inst: D.Instrument, ws: seq<RiffWave>, idx: seq<nat>): (si: S.Instrument)
    requires WavesCover(ws, inst.regions) && |idx| == |ws|
    ensures si.name == inst.name && si.globalZone.None? && |si.zones| == |inst.regions|
  {
    S.Instrument(inst.name, 0, None, RegionZones(inst.regions, ws, idx))
  }

  /** Zone k of the converted instrument is the zone of region k. */
  lemma {:induction false} RegionZonesAt(regs: seq<Region>, ws: seq<RiffWave>, idx: seq<nat>, k: nat)
    requires WavesCover(ws, regs) && |idx| == |ws| && k < |regs|
    ensures RegionZones(regs, ws, idx)[k] == ZoneOf(regs[k], ws, idx)
  {
    var n := |regs| - 1;
    assert WavesCover(ws, regs[..n]);
    SnocAt(RegionZones(regs[..n], ws, idx), ZoneOf(regs[n], ws, idx), k);
    if k < n {
      RegionZonesAt(regs[..n], ws, idx, k);
      assert regs[..n][k] == regs[k];
    }
  }

  lemma SnocAt<T>(prev: seq<T>, last: T, k: nat)
    requires k <= |prev|
    ensures (prev + [last])[k] == if k < |prev| then prev[k] else last
  {
  }

  /** The preset of DLS instrument k: its name, bank and number cut to `ushort`, one zone selecting instrument k. */
  function ConvertPreset(inst: D.Instrument, k: nat): Preset
  {
    Preset(inst.name, ToU16(inst.instrumentId), ToU16(inst.bankId), 0, 0, 0, 0, None,
      [Zone([Generator(G.Instrument, FromUAmount(ToU16(k)))], [])])
  }

  function ConvertPresets(insts: seq<D.Instrument>): (ps: seq<Preset>)
    ensures |ps| == |insts|
  {
    seq(|insts|, k requires 0 <= k < |insts| => ConvertPreset(insts[k], k))
  }

  /**
    Preset k selects instrument k (while there are at most 65536
    instruments) and keeps the DLS instrument's name and, when they fit
    a `ushort`, its bank and instrument number.
  */
  lemma PresetSelectsInstrument(insts: seq<D.Instrument>, k: nat)
    requires k < |insts| && k < 0x1_0000
    ensures var p := ConvertPresets(insts)[k];
            p.name == insts[k].name && p.globalZone.None? && |p.zones| == 1
            && |p.zones[0].generators| == 1 && p.zones[0].generators[0].gen == G.Instrument
            && UAmount(p.zones[0].generators[0].amount) == k
            && (insts[k].bankId < 0x1_0000 ==> p.bank == insts[k].bankId)
            && (insts[k].instrumentId < 0x1_0000 ==> p.presetNumber == insts[k].instrumentId)
  {
  }

  /** One preset per instrument, with a `ushort` instrument counter. */
  method BuildPresets(insts: seq<D.Instrument>) returns (ps: seq<Preset>)
    ensures ps == ConvertPresets(insts)
  {
    ps := [];
    var instNum: u16 := 0;
    for k := 0 to |insts|
      invariant ps == ConvertPresets(insts[..k])
      invariant instNum == ToU16(k)
    {
      var zone := Zone([Generator(G.Instrument, FromUAmount(instNum))], []);
      ps := ps + [Preset(insts[k].name, ToU16(insts[k].instrumentId), ToU16(insts[k].bankId), 0, 0, 0, 0, None, [zone])];
      ToU16Add(k, 1);
      instNum := ToU16(instNum + 1);
    }
    assert insts[..|insts|] == insts;
  }

  // ---------------------------------------------------------------------
  // Pitch correction.

  /** `(sbyte)(tuning / 65536)`: the tuning is a `short`, so the quotient is always 0. */
  function PitchCorrection(tuning: i16): (p: i8)
    ensures p == 0
  {
    ToI8(FixedToInt(tuning))
  }

  predicate IndexFits(idx: seq<nat>, n: nat, r: Region)
  {
    r.waveId < |idx| && idx[r.waveId] < n
  }

  predicate IndicesFit(idx: seq<nat>, n: nat, regs: seq<Region>)
  {
    forall k :: 0 <= k < |regs| ==> IndexFits(idx, n, regs[k])
  }

  /** Every region, in order, sets the pitch correction of the sample its wave became. */
  function WithPitchCorrections(ss: seq<SampleItem>, idx: seq<nat>, regs: seq<Region>): (r: seq<SampleItem>)
    requires IndicesFit(idx, |ss|, regs)
    ensures |r| == |ss|
  {
    if regs == [] then ss
    else
      var prev := WithPitchCorrections(ss, idx, regs[..|regs| - 1]);
      var last := regs[|regs| - 1];
      var j := idx[last.waveId];
      prev[j := prev[j].(pitchCorrection := PitchCorrection(last.tuning))]
  }

  /** Setting a correction of 0 over samples whose correction is 0 leaves them as they were. */
  lemma {:induction false} PitchCorrectionsNoOp(ss: seq<SampleItem>, idx: seq<nat>, regs: seq<Region>)
    requires IndicesFit(idx, |ss|, regs)
    requires forall k :: 0 <= k < |ss| ==> ss[k].pitchCorrection == 0
    ensures WithPitchCorrections(ss, idx, regs) == ss
  {
    if regs != [] {
      PitchCorrectionsNoOp(ss, idx, regs[..|regs| - 1]);
    }
  }

  lemma PitchCorrectionsSnoc(ss: seq<SampleItem>, idx: seq<nat>, regs: seq<Region>, r: Region)
    requires IndicesFit(idx, |ss|, regs) && IndexFits(idx, |ss|, r)
    ensures IndicesFit(idx, |ss|, regs + [r])
    ensures var prev := WithPitchCorrections(ss, idx, regs); var j := idx[r.waveId];
            WithPitchCorrections(ss, idx, regs + [r]) == prev[j := prev[j].(pitchCorrection := PitchCorrection(r.tuning))]
  {
    assert (regs + [r])[..|regs|] == regs;
  }

  method BuildRegionZone(r: Region, ws: seq<RiffWave>, idx: seq<nat>) returns (z: Zone)
    requires r.waveId < |ws| && |idx| == |ws|
    ensures z == ZoneOf(r, ws, idx)
  {
    z := BuildZone(r, ws[r.waveId].loops, ToU16(idx[r.waveId]));
  }

  lemma IndicesFitPrefix(ws: seq<RiffWave>, idx: seq<nat>, n: nat, regs: seq<Region>, k: nat)
    requires WavesCover(ws, regs) && IndicesFit(idx, n, regs) && k < |regs|
    ensures WavesCover(ws, regs[..k + 1]) && IndicesFit(idx, n, regs[..k]) && IndexFits(idx, n, regs[k])
    ensures regs[..k + 1] == regs[..k] + [regs[k]] && regs[..k + 1][..k] == regs[..k]
  {
  }

  /** Converts the regions of one instrument into zones, setting each sample's pitch correction on the way. */
  method BuildInstrument(inst: D.Instrument, ws: seq<RiffWave>, idx: seq<nat>, samples: seq<SampleItem>)
    returns (si: S.Instrument, samples': seq<SampleItem>)
    requires WavesCover(ws, inst.regions) && |idx| == |ws| && IndicesFit(idx, |samples|, inst.regions)
    ensures si == ConvertInstrument(inst, ws, idx)
    ensures samples' == WithPitchCorrections(samples, idx, inst.regions)
  {
    var regs := inst.regions;
    var zones: seq<Zone> := [];
    samples' := samples;
    for k := 0 to |regs|
      invariant WavesCover(ws, regs[..k])
      invariant zones == RegionZones(regs[..k], ws, idx)
      invariant samples' == WithPitchCorrections(samples, idx, regs[..k])
    {
      var r := regs[k];
      var z := BuildRegionZone(r, ws, idx);
      zones := zones + [z];
      IndicesFitPrefix(ws, idx, |samples|, regs, k);
      PitchCorrectionsSnoc(samples, idx, regs[..k], r);
      var j := idx[r.waveId];
      samples' := samples'[j := samples'[j].(pitchCorrection := PitchCorrection(r.tuning))];
    }
    assert regs[..|regs|] == regs;
    si := S.Instrument(inst.name, 0, None, zones);
  }

  // ---------------------------------------------------------------------
  // All instruments.

  /** Every region of every instrument names a wave of the pool. */
  predicate InstrumentsCovered(ws: seq<RiffWave>, insts: seq<D.Instrument>)
  {
    forall k :: 0 <= k < |insts| ==> WavesCover(ws, insts[k].regions)
  }

  /** The converted instruments, in the order of the DLS instruments. */
  function ConvertInstruments(insts: seq<D.Instrument>, ws: seq<RiffWave>, idx: seq<nat>): (sis: seq<S.Instrument>)
    requires InstrumentsCovered(ws, insts) && |idx| == |ws|
    ensures |sis| == |insts|
  {
    if insts == [] then []
    else ConvertInstruments(insts[..|insts| - 1], ws, idx) + [ConvertInstrument(insts[|insts| - 1], ws, idx)]
  }

  /** Instrument k of the result is the conversion of DLS instrument k. */
  lemma {:induction false} ConvertInstrumentsAt(insts: seq<D.Instrument>, ws: seq<RiffWave>, idx: seq<nat>, k: nat)
    requires InstrumentsCovered(ws, insts) && |idx| == |ws| && k < |insts|
    ensures ConvertInstruments(insts, ws, idx)[k] == ConvertInstrument(insts[k], ws, idx)
  {
    var n := |insts| - 1;
    assert InstrumentsCovered(ws, insts[..n]);
    SnocAt(ConvertInstruments(insts[..n], ws, idx), ConvertInstrument(insts[n], ws, idx), k);
    if k < n {
      ConvertInstrumentsAt(insts[..n], ws, idx, k);
      assert insts[..n][k] == insts[k];
    }
  }

  lemma IndicesFitAppend(idx: seq<nat>, n: nat, a: seq<Region>, b: seq<Region>)
    ensures IndicesFit(idx, n, a + b) <==> IndicesFit(idx, n, a) && IndicesFit(idx, n, b)
  {
    if IndicesFit(idx, n, a + b) {
      forall k | 0 <= k < |a| ensures IndexFits(idx, n, a[k]) {
        assert (a + b)[k] == a[k];
      }
      forall k | 0 <= k < |b| ensures IndexFits(idx, n, b[k]) {
        assert (a + b)[|a| + k] == b[k];
      }
    }
  }

  /** Correcting over a + b is correcting over a, then over b. */
  lemma {:induction false} PitchCorrectionsAppend(ss: seq<SampleItem>, idx: seq<nat>, a: seq<Region>, b: seq<Region>)
    requires IndicesFit(idx, |ss|, a + b)
    ensures IndicesFit(idx, |ss|, a) && IndicesFit(idx, |ss|, b)
    ensures WithPitchCorrections(ss, idx, a + b) == WithPitchCorrections(WithPitchCorrections(ss, idx, a), idx, b)
    decreases |b|
  {
    IndicesFitAppend(idx, |ss|, a, b);
    if b == [] {
      assert a + b == a;
    } else {
      var b' := b[..|b| - 1];
      assert (a + b)[..|a + b| - 1] == a + b';
      assert (a + b)[|a + b| - 1] == b[|b| - 1];
      IndicesFitAppend(idx, |ss|, a, b');
      PitchCorrectionsAppend(ss, idx, a, b');
    }
  }

  /** What one more turn of the instrument loop needs to know. */
  lemma InstrumentsStep(insts: seq<D.Instrument>, ws: seq<RiffWave>, n: nat, idx: seq<nat>, i: nat)
    requires InstrumentsCovered(ws, insts) && IndicesFit(idx, n, AllRegions(insts)) && i < |insts|
    ensures InstrumentsCovered(ws, insts[..i + 1]) && insts[..i + 1][..i] == insts[..i] && insts[..i + 1][i] == insts[i]
    ensures AllRegions(insts[..i + 1]) == AllRegions(insts[..i]) + insts[i].regions
    ensures IndicesFit(idx, n, AllRegions(insts[..i])) && IndicesFit(idx, n, insts[i].regions)
  {
    assert insts[..i + 1] == insts[..i] + [insts[i]];
    AllRegionsSnoc(insts[..i], insts[i]);
    assert insts == insts[..i + 1] + insts[i + 1..];
    AllRegionsAppend(insts[..i + 1], insts[i + 1..]);
    IndicesFitAppend(idx, n, AllRegions(insts[..i + 1]), AllRegions(insts[i + 1..]));
    IndicesFitAppend(idx, n, AllRegions(insts[..i]), insts[i].regions);
  }

  /** The outer loop over the DLS instruments. */
  method BuildInstruments(insts: seq<D.Instrument>, ws: seq<RiffWave>, idx: seq<nat>, samples: seq<SampleItem>)
    returns (sis: seq<S.Instrument>, samples': seq<SampleItem>)
    requires InstrumentsCovered(ws, insts) && |idx| == |ws| && IndicesFit(idx, |samples|, AllRegions(insts))
    ensures sis == ConvertInstruments(insts, ws, idx)
    ensures samples' == WithPitchCorrections(samples, idx, AllRegions(insts))
  {
    sis := [];
    samples' := samples;
    assert AllRegions(insts[..0]) == [];
    for i := 0 to |insts|
      invariant InstrumentsCovered(ws, insts[..i]) && IndicesFit(idx, |samples|, AllRegions(insts[..i]))
      invariant sis == ConvertInstruments(insts[..i], ws, idx)
      invariant samples' == WithPitchCorrections(samples, idx, AllRegions(insts[..i]))
    {
      InstrumentsStep(insts, ws, |samples|, idx, i);
      PitchCorrectionsAppend(samples, idx, AllRegions(insts[..i]), insts[i].regions);
      var si;
      si, samples' := BuildInstrument(insts[i], ws, idx, samples');
      sis := sis + [si];
    }
    assert insts[..|insts|] == insts;
  }

  // ---------------------------------------------------------------------
  // The whole conversion.

  /** The wave pool the conversion ends with: loops assigned from the regions, then loop flags fixed. */
  function ConvertedWaves(insts: seq<D.Instrument>, ws: seq<RiffWave>): (ws': seq<RiffWave>)
    requires RegionsFit(ws, AllRegions(insts))
    ensures SameAudio(ws, ws')
  {
    FixLoops(AssignLoopsOver(ws, AllRegions(insts)))
  }

  /** Regions that fit the pool are covered by it, instrument by instrument. */
  lemma FitsCover(ws: seq<RiffWave>, insts: seq<D.Instrument>)
    requires RegionsFit(ws, AllRegions(insts))
    ensures InstrumentsCovered(ws, insts)
  {
    var xs := seq(|insts|, i requires 0 <= i < |insts| => insts[i].regions);
    forall k | 0 <= k < |insts| ensures WavesCover(ws, insts[k].regions) {
      ConcatSlice(xs, k);
      OffsetMonotone(xs, k + 1, |xs|);
      OffsetEnd(xs);
      forall j | 0 <= j < |insts[k].regions| ensures insts[k].regions[j].waveId < |ws| {
        assert insts[k].regions[j] == AllRegions(insts)[Offset(xs, k) + j];
      }
    }
  }

  /** Waves with the same audio split the same way. */
  lemma SameAudioSplittable(ws: seq<RiffWave>, ws': seq<RiffWave>)
    requires SameAudio(ws, ws') && Splittable(ws)
    ensures Splittable(ws')
  {
  }

  /** Every wave's new index is an index of the sample table. */
  lemma IndicesInTable(ws: seq<RiffWave>, regs: seq<Region>)
    requires Splittable(ws) && WavesCover(ws, regs)
    ensures IndicesFit(NewIndices(ws), |SampleTable(ws)|, regs)
  {
    forall k | 0 <= k < |regs| ensures IndexFits(NewIndices(ws), |SampleTable(ws)|, regs[k]) {
      FirstSampleOfWave(ws, regs[k].waveId);
    }
  }

  /** Every instrument's regions name samples of the table. */
  lemma AllIndicesInTable(ws: seq<RiffWave>, insts: seq<D.Instrument>)
    requires Splittable(ws) && RegionsFit(ws, AllRegions(insts))
    ensures InstrumentsCovered(ws, insts)
    ensures IndicesFit(NewIndices(ws), |SampleTable(ws)|, AllRegions(insts))
  {
    FitsCover(ws, insts);
    assert WavesCover(ws, AllRegions(insts));
    IndicesInTable(ws, AllRegions(insts));
  }

  /** The pool with its loops looped still splits into samples, and fixing its loop flags gives the converted pool. */
  lemma LoopsAssignedSplittable(insts: seq<D.Instrument>, ws: seq<RiffWave>, looped: seq<RiffWave>)
    requires RegionsFit(ws, AllRegions(insts)) && Splittable(ws)
    requires looped == AssignLoopsOver(ws, AllRegions(insts))
    ensures Splittable(looped) && FixLoops(looped) == ConvertedWaves(insts, ws)
  {
    SameAudioSplittable(ws, looped);
  }

  /**
    The converted pool keeps the audio, so the regions still fit it and
    it still splits into samples; and since every table sample starts
    with a pitch correction of 0 and the correction a region sets is
    always 0, the corrections leave the table as it is.
  */
  lemma ConversionPrepared(insts: seq<D.Instrument>, ws: seq<RiffWave>)
    requires RegionsFit(ws, AllRegions(insts)) && Splittable(ws)
    ensures var fixed := ConvertedWaves(insts, ws);
            Splittable(fixed) && RegionsFit(fixed, AllRegions(insts))
            && InstrumentsCovered(fixed, insts)
            && IndicesFit(NewIndices(fixed), |SampleTable(fixed)|, AllRegions(insts))
            && WithPitchCorrections(SampleTable(fixed), NewIndices(fixed), AllRegions(insts)) == SampleTable(fixed)
  {
    var fixed := ConvertedWaves(insts, ws);
    SameAudioSplittable(ws, fixed);
    SameAudioFits(ws, fixed, AllRegions(insts));
    AllIndicesInTable(fixed, insts);
    var table := SampleTable(fixed);
    forall j | 0 <= j < |table| ensures table[j].pitchCorrection == 0 {
      TableIsMono(fixed, j);
    }
    PitchCorrectionsNoOp(table, NewIndices(fixed), AllRegions(insts));
  }

  /**
    The zone made from region k of instrument i (the instrument that
    `ConvertInstrumentsAt` places at position i) names, as its sample, the
    table entry its wave became (when that index fits a `ushort`); that
    entry holds the wave's first channel; and the zone loops exactly when
    the converted wave does.
  */
  lemma ZoneNamesItsSample(insts: seq<D.Instrument>, ws: seq<RiffWave>, i: nat, k: nat)
    requires RegionsFit(ws, AllRegions(insts)) && Splittable(ws)
    requires i < |insts| && k < |insts[i].regions|
    ensures var fixed := ConvertedWaves(insts, ws);
            var r := insts[i].regions[k];
            InstrumentsCovered(fixed, insts) && r.waveId < |ws|
            && var idx := NewIndices(fixed);
            var table := SampleTable(fixed);
            var z := ConvertInstrument(insts[i], fixed, idx).zones[k];
            idx[r.waveId] < |table|
            && table[idx[r.waveId]].wave.channels == [ws[r.waveId].channels[0]]
            && (idx[r.waveId] < 0x1_0000 ==> HasGenerator(z, G.SampleID) && KindAmount(z.generators, G.SampleID, idx[r.waveId] as u16))
            && (HasGenerator(z, G.SampleModes) <==> fixed[r.waveId].loops)
  {
    var fixed := ConvertedWaves(insts, ws);
    ConversionPrepared(insts, ws);
    var idx := NewIndices(fixed);
    var r := insts[i].regions[k];
    assert WavesCover(fixed, insts[i].regions);
    RegionZonesAt(insts[i].regions, fixed, idx, k);
    RegionZoneGenerators(r, fixed[r.waveId].loops, ToU16(idx[r.waveId]));
    FirstSampleOfWave(fixed, r.waveId);
  }
}
