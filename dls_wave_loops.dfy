/**
  How regions overwrite the loop settings of the pool waves they play.
  A looping region sets its wave's loop start to its own and the loop end
  to start + length, or to the wave's sample count when the length is 0.
  The reader applies every region in file order (a non-looping one clears
  the wave's loop flag); `AssignLoops` applies only the looping ones.
*/
module DLSWaveLoops {
  import opened Ints
  import opened Lists
  import opened RiffWave
  import opened DLSRegion
  import opened DLSInstrument

  /** The first channel is needed only for a loop of length 0, which runs to the end of the wave. */
  predicate CanLoop(w: RiffWave, r: Region)
  {
    r.loopLength == 0 ==> |w.channels| > 0
  }

  /** The loop end as a `uint`: start + length wraps around at 2^32. */
  function LoopEnd(w: RiffWave, r: Region): (e: u32)
    requires CanLoop(w, r)
    ensures r.loopLength == 0 ==> e == ToU32(NumSamples(w))
    ensures r.loopLength != 0 && r.loopStart + r.loopLength < 0x1_0000_0000 ==> e == r.loopStart + r.loopLength
  {
    if r.loopLength == 0 then ToU32(NumSamples(w)) else ToU32(r.loopStart + r.loopLength)
  }

  /** The wave with the region's loop; its audio, rate and everything else unchanged. */
  function Looped(w: RiffWave, r: Region): (w': RiffWave)
    requires CanLoop(w, r)
    ensures w'.channels == w.channels && w'.sampleRate == w.sampleRate
    ensures w'.loops && w'.loopStart == r.loopStart && w'.loopEnd == LoopEnd(w, r)
  {
    w.(loops := true, loopStart := r.loopStart, loopEnd := LoopEnd(w, r))
  }

  /** A later loop replaces an earlier one entirely. */
  lemma LoopedTwice(w: RiffWave, r1: Region, r2: Region)
    requires CanLoop(w, r1) && CanLoop(w, r2)
    ensures Looped(Looped(w, r1), r2) == Looped(w, r2)
  {
  }

  /** What reading one region does to the wave it references. */
  function ReadLoop(w: RiffWave, r: Region): (w': RiffWave)
    requires r.loops ==> CanLoop(w, r)
    ensures w'.channels == w.channels && w'.sampleRate == w.sampleRate && w'.loops == r.loops
    ensures !r.loops ==> w'.loopStart == w.loopStart && w'.loopEnd == w.loopEnd
    ensures r.loops ==> w' == Looped(w, r)
  {
    if r.loops then Looped(w, r) else w.(loops := false)
  }

  /** Every region of every instrument, in file order. */
  function AllRegions(insts: seq<Instrument>): seq<Region>
  {
    Concat(seq(|insts|, i requires 0 <= i < |insts| => insts[i].regions))
  }

  lemma AllRegionsAppend(a: seq<Instrument>, b: seq<Instrument>)
    ensures AllRegions(a + b) == AllRegions(a) + AllRegions(b)
  {
    var xa := seq(|a|, i requires 0 <= i < |a| => a[i].regions);
    var xb := seq(|b|, i requires 0 <= i < |b| => b[i].regions);
    assert seq(|a + b|, i requires 0 <= i < |a + b| => (a + b)[i].regions) == xa + xb;
    ConcatAppend(xa, xb);
  }

  lemma AllRegionsSnoc(insts: seq<Instrument>, inst: Instrument)
    ensures AllRegions(insts + [inst]) == AllRegions(insts) + inst.regions
  {
    var xs := seq(|insts| + 1, i requires 0 <= i < |insts| + 1 => (insts + [inst])[i].regions);
    assert xs[..|insts|] == seq(|insts|, i requires 0 <= i < |insts| => insts[i].regions);
  }


  /** The region names a wave of the pool, and if it loops, a wave it can loop. */
  predicate RegionFits(ws: seq<RiffWave>, r: Region)
  {
    r.waveId < |ws| && (r.loops ==> CanLoop(ws[r.waveId], r))
  }

  predicate RegionsFit(ws: seq<RiffWave>, regs: seq<Region>)
  {
    forall k :: 0 <= k < |regs| ==> RegionFits(ws, regs[k])
  }

  /**
    `AssignLoops` looks a region's wave up only when the region loops, so a
    non-looping region may name any wave id.
  */
  predicate LoopFits(ws: seq<RiffWave>, r: Region)
  {
    r.loops ==> r.waveId < |ws| && CanLoop(ws[r.waveId], r)
  }

  predicate LoopsFit(ws: seq<RiffWave>, regs: seq<Region>)
  {
    forall k :: 0 <= k < |regs| ==> LoopFits(ws, regs[k])
  }

  lemma LoopsFitSlice(ws: seq<RiffWave>, regs: seq<Region>, lo: nat, hi: nat)
    requires lo <= hi <= |regs| && LoopsFit(ws, regs)
    ensures LoopsFit(ws, regs[lo..hi])
  {
    assert forall k :: 0 <= k < hi - lo ==> regs[lo..hi][k] == regs[lo + k];
  }

  /** Only the loop fields change, so whether a region fits is the same before and after. */
  predicate SameAudio(ws: seq<RiffWave>, ws': seq<RiffWave>)
  {
    |ws'| == |ws| && forall i :: 0 <= i < |ws| ==> ws'[i].channels == ws[i].channels
  }

  lemma SameAudioFits(ws: seq<RiffWave>, ws': seq<RiffWave>, regs: seq<Region>)
    requires SameAudio(ws, ws') && RegionsFit(ws, regs)
    ensures RegionsFit(ws', regs)
  {
  }

  lemma SameAudioLoopsFit(ws: seq<RiffWave>, ws': seq<RiffWave>, regs: seq<Region>)
    requires SameAudio(ws, ws') && LoopsFit(ws, regs)
    ensures LoopsFit(ws', regs)
  {
  }

  /** `AssignLoops`: the looping regions, in order, each overwrite their wave's loop. */
  function AssignLoopsOver(ws: seq<RiffWave>, regs: seq<Region>): (r: seq<RiffWave>)
    requires LoopsFit(ws, regs)
    ensures SameAudio(ws, r)
    decreases |regs|
  {
    if regs == [] then ws
    else
      var prev := AssignLoopsOver(ws, regs[..|regs| - 1]);
      var last := regs[|regs| - 1];
      if last.loops then prev[last.waveId := Looped(prev[last.waveId], last)] else prev
  }

  /** The reader's pass: every region, in order, sets its wave's loop flag, and a looping one its loop. */
  function ReadLoopsOver(ws: seq<RiffWave>, regs: seq<Region>): (r: seq<RiffWave>)
    requires RegionsFit(ws, regs)
    ensures SameAudio(ws, r)
    decreases |regs|
  {
    if regs == [] then ws
    else
      var prev := ReadLoopsOver(ws, regs[..|regs| - 1]);
      var last := regs[|regs| - 1];
      prev[last.waveId := ReadLoop(prev[last.waveId], last)]
  }

  /** The index of the last looping region that references wave w. */
  function LastLooping(regs: seq<Region>, w: nat): (k: int)
    ensures -1 <= k < |regs|
    ensures k >= 0 ==> regs[k].loops && regs[k].waveId == w
    ensures forall j :: k < j < |regs| ==> !(regs[j].loops && regs[j].waveId == w)
  {
    if regs == [] then -1
    else
      var last := regs[|regs| - 1];
      if last.loops && last.waveId == w then |regs| - 1 else LastLooping(regs[..|regs| - 1], w)
  }

  /**
    The last looping region that references a wave decides its loop; a
    wave no looping region references keeps its loop settings.
  */
  lemma {:induction false} AssignLoopsLastWins(ws: seq<RiffWave>, regs: seq<Region>, w: nat)
    requires LoopsFit(ws, regs) && w < |ws|
    ensures var k := LastLooping(regs, w);
            AssignLoopsOver(ws, regs)[w] == if k < 0 then ws[w] else Looped(ws[w], regs[k])
  {
    if regs != [] {
      var init := regs[..|regs| - 1];
      var last := regs[|regs| - 1];
      assert LoopsFit(ws, init);
      AssignLoopsLastWins(ws, init, w);
      var prev := AssignLoopsOver(ws, init);
      if last.loops && last.waveId == w {
        var k0 := LastLooping(init, w);
        if k0 >= 0 {
          LoopedTwice(ws[w], init[k0], last);
        }
      }
    }
  }

  /** Applying two runs of regions one after the other is applying them joined. */
  lemma {:induction false} ReadLoopsAppend(ws: seq<RiffWave>, a: seq<Region>, b: seq<Region>)
    requires RegionsFit(ws, a + b)
    ensures RegionsFit(ws, a) && RegionsFit(ReadLoopsOver(ws, a), b)
    ensures ReadLoopsOver(ReadLoopsOver(ws, a), b) == ReadLoopsOver(ws, a + b)
    decreases |b|
  {
    assert forall k :: 0 <= k < |a| ==> a[k] == (a + b)[k];
    assert forall k :: 0 <= k < |b| ==> b[k] == (a + b)[|a| + k];
    SameAudioFits(ws, ReadLoopsOver(ws, a), b);
    if b != [] {
      var b' := b[..|b| - 1];
      assert (a + b)[..|a + b| - 1] == a + b';
      ReadLoopsAppend(ws, a, b');
    } else {
      assert a + b == a;
    }
  }
}
