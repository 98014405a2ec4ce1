/**
  Building the SF2 sample list from a pool of waves. A mono wave becomes
  one sample; a stereo wave becomes a left and a right sample, one channel
  each, joined by a link number that starts at 1 and counts stereo pairs.
  Each wave's new index is where its first sample lands, the number of
  channels of the waves before it. Waves with a non-zero loop end are first
  marked as looping.
*/
module SF2SampleTable {
  import opened Ints
  import opened Lists
  import opened RiffWave
  import opened SF2LinkTypes
  import opened SF2SampleItem

  /** `new SampleItem()`: original pitch 60, no correction, no link, not ROM. */
  const DefaultPitch: u8 := 60

  // ---------------------------------------------------------------------
  // Sample names.

  function DigitChar(d: nat): (c: char)
    requires d < 10
    ensures '0' <= c <= '9' && c as int - '0' as int == d
  {
    ('0' as int + d) as char
  }

  /** The decimal digits of n, as `int.ToString()` writes a non-negative number. */
  function Decimal(n: nat): (s: string)
    ensures |s| > 0 && forall k :: 0 <= k < |s| ==> '0' <= s[k] <= '9'
  {
    if n < 10 then [DigitChar(n)] else Decimal(n / 10) + [DigitChar(n % 10)]
  }

  /** The number a string of decimal digits denotes. */
  function DecimalValue(s: string): nat
    requires forall k :: 0 <= k < |s| ==> '0' <= s[k] <= '9'
  {
    if s == [] then 0 else 10 * DecimalValue(s[..|s| - 1]) + (s[|s| - 1] as int - '0' as int)
  }

  /** A sample name carries its wave's index: the digits read back as the number. */
  lemma {:induction false} DecimalRoundTrip(n: nat)
    ensures DecimalValue(Decimal(n)) == n
  {
    if n >= 10 {
      DecimalRoundTrip(n / 10);
      var s := Decimal(n);
      assert s[..|s| - 1] == Decimal(n / 10);
    }
  }

  // ---------------------------------------------------------------------
  // Loop flags.

  /** A wave whose loop end is not 0 is marked as looping; nothing else changes. */
  function FixLoop(w: RiffWave): (w': RiffWave)
    ensures w'.loops <==> w.loops || w.loopEnd != 0
    ensures w'.(loops := w.loops) == w
  {
    if w.loopEnd != 0 then w.(loops := true) else w
  }

  function FixLoops(ws: seq<RiffWave>): (ws': seq<RiffWave>)
    ensures |ws'| == |ws| && forall i :: 0 <= i < |ws| ==> ws'[i] == FixLoop(ws[i])
  {
    seq(|ws|, i requires 0 <= i < |ws| => FixLoop(ws[i]))
  }

  // ---------------------------------------------------------------------
  // The table.

  /** Every wave is mono or stereo; the source's branch for more channels is not part of this model. */
  predicate Splittable(ws: seq<RiffWave>)
  {
    forall i :: 0 <= i < |ws| ==> 1 <= |ws[i].channels| <= 2
  }

  predicate IsStereo(w: RiffWave)
  {
    |w.channels| == 2
  }

  /** The number of stereo waves. */
  function StereoBefore(ws: seq<RiffWave>, n: nat): (r: nat)
    requires n <= |ws|
    ensures r <= n
  {
    if n == 0 then 0 else StereoBefore(ws, n - 1) + (if IsStereo(ws[n - 1]) then 1 else 0)
  }

  /** The `ushort` link counter when wave i is reached: 1 plus the stereo waves before it, wrapping at 2^16. */
  function LinkAt(ws: seq<RiffWave>, i: nat): u16
    requires i <= |ws|
  {
    ToU16(1 + StereoBefore(ws, i))
  }

  /** The samples made from wave i. */
  function WaveSamples(w: RiffWave, i: nat, link: u16): (ss: seq<SampleItem>)
    requires 1 <= |w.channels| <= 2
    ensures |ss| == |w.channels|
    ensures forall k :: 0 <= k < |ss| ==>
              ss[k].wave.channels == [w.channels[k]] && ss[k].wave.(channels := w.channels) == w
              && ss[k].pitchCorrection == 0 && ss[k].originalPitch == DefaultPitch
  {
    if |w.channels| == 1 then
      [SampleItem("Sample " + Decimal(i), DefaultPitch, 0, 0, false, Mono, w)]
    else
      [SampleItem("Sample " + Decimal(i) + " L", DefaultPitch, 0, link, false, Left, w.(channels := [w.channels[0]])),
       SampleItem("Sample " + Decimal(i) + " R", DefaultPitch, 0, link, false, Right, w.(channels := [w.channels[1]]))]
  }

  function Groups(ws: seq<RiffWave>): (gs: seq<seq<SampleItem>>)
    requires Splittable(ws)
    ensures |gs| == |ws|
  {
    seq(|ws|, i requires 0 <= i < |ws| => WaveSamples(ws[i], i, LinkAt(ws, i)))
  }

  /** The samples of every wave, in wave order. */
  function SampleTable(ws: seq<RiffWave>): seq<SampleItem>
    requires Splittable(ws)
  {
    Concat(Groups(ws))
  }

  /** Wave i's new index: where its first sample sits in the table. */
  function NewIndices(ws: seq<RiffWave>): (idx: seq<nat>)
    ensures |idx| == |ws|
  {
    seq(|ws|, i requires 0 <= i < |ws| => ChannelsBefore(ws, i))
  }

  /** The number of channels of the first n waves. */
  function ChannelsBefore(ws: seq<RiffWave>, n: nat): nat
    requires n <= |ws|
  {
    if n == 0 then 0 else ChannelsBefore(ws, n - 1) + |ws[n - 1].channels|
  }

  lemma LinkStep(ws: seq<RiffWave>, i: nat)
    requires i < |ws|
    ensures LinkAt(ws, i + 1) == if IsStereo(ws[i]) then ToU16(LinkAt(ws, i) + 1) else LinkAt(ws, i)
  {
    ToU16Add(1 + StereoBefore(ws, i), 1);
  }

  lemma SliceIndex<T>(s: seq<T>, a: nat, b: nat, j: nat)
    requires a <= j < b <= |s|
    ensures s[a..b][j - a] == s[j]
  {
  }

  /** The first pass: every wave with a loop end is marked as looping. */
  method FixLoopFlags(waves: seq<RiffWave>) returns (fixed: seq<RiffWave>)
    ensures fixed == FixLoops(waves)
  {
    fixed := waves;
    for i := 0 to |waves|
      invariant |fixed| == |waves|
      invariant forall k :: 0 <= k < i ==> fixed[k] == FixLoop(waves[k])
      invariant forall k :: i <= k < |waves| ==> fixed[k] == waves[k]
    {
      if fixed[i].loopEnd != 0 {
        fixed := fixed[i := fixed[i].(loops := true)];
      }
    }
  }

  /** One wave's samples: the switch on its channel count. */
  method AddWave(samples: seq<SampleItem>, w: RiffWave, i: nat, link: u16) returns (samples': seq<SampleItem>, link': u16)
    requires 1 <= |w.channels| <= 2
    ensures samples' == samples + WaveSamples(w, i, link)
    ensures link' == if IsStereo(w) then ToU16(link + 1) else link
  {
    if |w.channels| == 1 {
      samples' := samples + [SampleItem("Sample " + Decimal(i), DefaultPitch, 0, 0, false, Mono, w)];
      link' := link;
    } else {
      var left := SampleItem("Sample " + Decimal(i) + " L", DefaultPitch, 0, link, false, Left, w.(channels := [w.channels[0]]));
      var right := SampleItem("Sample " + Decimal(i) + " R", DefaultPitch, 0, link, false, Right, w.(channels := [w.channels[1]]));
      samples' := samples + [left, right];
      link' := ToU16(link + 1);
    }
  }

  /** What one more wave adds to the samples, the indices, the channel count and the link. */
  lemma TableStep(ws: seq<RiffWave>, i: nat)
    requires Splittable(ws) && i < |ws|
    ensures 1 <= |ws[i].channels| <= 2
    ensures Concat(Groups(ws)[..i + 1]) == Concat(Groups(ws)[..i]) + WaveSamples(ws[i], i, LinkAt(ws, i))
    ensures NewIndices(ws)[..i + 1] == NewIndices(ws)[..i] + [ChannelsBefore(ws, i)]
    ensures LinkAt(ws, i + 1) == if IsStereo(ws[i]) then ToU16(LinkAt(ws, i) + 1) else LinkAt(ws, i)
  {
    ConcatSnoc(Groups(ws), i);
    LinkStep(ws, i);
    PrefixSnoc(NewIndices(ws), i);
  }

  /** The loop's start and end: nothing before wave 0, everything before the end. */
  lemma TableEnds(ws: seq<RiffWave>)
    requires Splittable(ws)
    ensures Concat(Groups(ws)[..0]) == [] && NewIndices(ws)[..0] == [] && LinkAt(ws, 0) == 1
    ensures Concat(Groups(ws)[..|ws|]) == SampleTable(ws) && NewIndices(ws)[..|ws|] == NewIndices(ws)
  {
    assert ws[..0] == [];
    assert Groups(ws)[..|ws|] == Groups(ws);
  }

  /** One pass of the loop: the wave's samples, its new index, the channel count and the link after it. */
  method TableWave(ws: seq<RiffWave>, i: nat, samples: seq<SampleItem>, newIndices: seq<nat>, currInd: nat, link: u16)
    returns (samples': seq<SampleItem>, newIndices': seq<nat>, currInd': nat, link': u16)
    requires Splittable(ws) && i < |ws|
    requires samples == Concat(Groups(ws)[..i]) && newIndices == NewIndices(ws)[..i]
    requires currInd == ChannelsBefore(ws, i) && link == LinkAt(ws, i)
    ensures samples' == Concat(Groups(ws)[..i + 1]) && newIndices' == NewIndices(ws)[..i + 1]
    ensures currInd' == ChannelsBefore(ws, i + 1) && link' == LinkAt(ws, i + 1)
  {
    TableStep(ws, i);
    samples', link' := AddWave(samples, ws[i], i, link);
    newIndices' := newIndices + [currInd];
    currInd' := currInd + |ws[i].channels|;
  }

  /** The second pass: the samples and new indices, with an `int` running index and a `ushort` link. */
  method BuildSampleTable(ws: seq<RiffWave>) returns (samples: seq<SampleItem>, newIndices: seq<nat>)
    requires Splittable(ws)
    ensures samples == SampleTable(ws) && newIndices == NewIndices(ws)
  {
    TableEnds(ws);
    samples, newIndices := [], [];
    var currInd: nat := 0;
    var link: u16 := 1;
    for i := 0 to |ws|
      invariant samples == Concat(Groups(ws)[..i])
      invariant newIndices == NewIndices(ws)[..i]
      invariant currInd == ChannelsBefore(ws, i)
      invariant link == LinkAt(ws, i)
    {
      samples, newIndices, currInd, link := TableWave(ws, i, samples, newIndices, currInd, link);
    }
  }

  /**
    `CreateSampleTable`: the loop-fixed waves (the source changes the
    caller's waves in place), the sample list and every wave's new index.
  */
  method CreateSampleTable(waves: seq<RiffWave>) returns (fixed: seq<RiffWave>, samples: seq<SampleItem>, newIndices: seq<nat>)
    requires Splittable(waves)
    ensures fixed == FixLoops(waves)
    ensures Splittable(fixed)
    ensures samples == SampleTable(fixed) && newIndices == NewIndices(fixed)
  {
    fixed := FixLoopFlags(waves);
    samples, newIndices := BuildSampleTable(fixed);
  }

  // ---------------------------------------------------------------------
  // What the table promises.

  /** The group of each wave has one sample per channel, so the groups before wave i hold its channel count. */
  lemma {:induction false} OffsetIsChannelsBefore(ws: seq<RiffWave>, i: nat)
    requires Splittable(ws) && i <= |ws|
    ensures Offset(Groups(ws), i) == ChannelsBefore(ws, i)
  {
    if i > 0 {
      OffsetIsChannelsBefore(ws, i - 1);
      ConcatSlice(Groups(ws), i - 1);
    }
  }

  lemma WaveGroup(ws: seq<RiffWave>, i: nat)
    requires Splittable(ws) && i < |ws|
    ensures Groups(ws)[i] == WaveSamples(ws[i], i, LinkAt(ws, i)) && |Groups(ws)[i]| == |ws[i].channels|
    ensures NewIndices(ws)[i] == Offset(Groups(ws), i)
  {
    OffsetIsChannelsBefore(ws, i);
  }

  /** Wave i's new index points at its samples, which take one table entry per channel. */
  lemma SamplesOfWave(ws: seq<RiffWave>, i: nat)
    requires Splittable(ws) && i < |ws|
    ensures NewIndices(ws)[i] + |Groups(ws)[i]| <= |SampleTable(ws)|
    ensures SampleTable(ws)[NewIndices(ws)[i]..NewIndices(ws)[i] + |Groups(ws)[i]|] == Groups(ws)[i]
  {
    WaveGroup(ws, i);
    ConcatSlice(Groups(ws), i);
  }

  /** Wave i's new index names a table entry, and that entry holds the wave's first channel. */
  lemma FirstSampleOfWave(ws: seq<RiffWave>, i: nat)
    requires Splittable(ws) && i < |ws|
    ensures NewIndices(ws)[i] < |SampleTable(ws)|
    ensures SampleTable(ws)[NewIndices(ws)[i]].wave.channels == [ws[i].channels[0]]
  {
    WaveGroup(ws, i);
    SamplesOfWave(ws, i);
    var k := NewIndices(ws)[i];
    SliceIndex(SampleTable(ws), k, k + |Groups(ws)[i]|, k);
  }

  /**
    A mono wave is kept whole; a stereo wave becomes a left sample and a
    right sample that share the link number.
  */
  lemma WaveSamplesKinds(w: RiffWave, i: nat, link: u16)
    requires 1 <= |w.channels| <= 2
    ensures var ss := WaveSamples(w, i, link);
            (|w.channels| == 1 ==> ss[0].linkType == Mono && ss[0].wave == w && ss[0].link == 0)
            && (|w.channels| == 2 ==> ss[0].linkType == Left && ss[1].linkType == Right && ss[0].link == ss[1].link == link)
  {
  }

  /** Every sample of the table has one channel. */
  lemma {:induction false} TableIsMono(ws: seq<RiffWave>, j: nat)
    requires Splittable(ws) && j < |SampleTable(ws)|
    ensures |SampleTable(ws)[j].wave.channels| == 1
    ensures SampleTable(ws)[j].pitchCorrection == 0
  {
    var gs := Groups(ws);
    var i := GroupOf(gs, j);
    ConcatSlice(gs, i);
    var o := Offset(gs, i);
    var t := Concat(gs);
    SliceIndex(t, o, Offset(gs, i + 1), j);
    var ss := WaveSamples(ws[i], i, LinkAt(ws, i));
    assert gs[i] == ss;
    assert t[j] == ss[j - o];
  }

  /** The group that holds position j of the concatenation. */
  lemma {:induction false} GroupOfExists<T>(xss: seq<seq<T>>, j: nat)
    requires j < |Concat(xss)|
    ensures exists i :: 0 <= i < |xss| && Offset(xss, i) <= j < Offset(xss, i + 1)
    decreases |xss|
  {
    var n := |xss| - 1;
    ConcatSlice(xss, n);
    OffsetEnd(xss);
    if j >= Offset(xss, n) {
      assert Offset(xss, n) <= j < Offset(xss, n + 1);
    } else {
      var pre := xss[..n];
      assert Concat(pre) == Concat(xss[..n]);
      GroupOfExists(pre, j);
      var i :| 0 <= i < |pre| && Offset(pre, i) <= j < Offset(pre, i + 1);
      assert pre[..i] == xss[..i] && pre[..i + 1] == xss[..i + 1];
      assert Offset(xss, i) <= j < Offset(xss, i + 1);
    }
  }

  ghost function GroupOf<T>(xss: seq<seq<T>>, j: nat): (i: nat)
    requires j < |Concat(xss)|
    ensures i < |xss| && Offset(xss, i) <= j < Offset(xss, i + 1)
  {
    GroupOfExists(xss, j);
    var i :| 0 <= i < |xss| && Offset(xss, i) <= j < Offset(xss, i + 1);
    i
  }

  /** Later waves start later: new indices strictly increase. */
  lemma NewIndicesIncrease(ws: seq<RiffWave>, i: nat, j: nat)
    requires Splittable(ws) && i < j < |ws|
    ensures NewIndices(ws)[i] < NewIndices(ws)[j]
  {
    ChannelsBeforeGrows(ws, i, j);
  }

  lemma {:induction false} ChannelsBeforeGrows(ws: seq<RiffWave>, i: nat, j: nat)
    requires Splittable(ws) && i < j <= |ws|
    ensures ChannelsBefore(ws, i) < ChannelsBefore(ws, j)
    decreases j - i
  {
    if i + 1 < j {
      ChannelsBeforeGrows(ws, i, j - 1);
    }
  }

  lemma {:induction false} StereoBeforeMonotone(ws: seq<RiffWave>, i: nat, j: nat)
    requires i <= j <= |ws|
    ensures StereoBefore(ws, i) <= StereoBefore(ws, j)
    decreases j - i
  {
    if i < j {
      StereoBeforeMonotone(ws, i, j - 1);
    }
  }

  /**
    Two stereo waves get different link numbers, as long as there are
    fewer than 65535 stereo waves (beyond that the `ushort` link wraps).
  */
  lemma StereoLinksDistinct(ws: seq<RiffWave>, i: nat, j: nat)
    requires i < j < |ws| && IsStereo(ws[i]) && StereoBefore(ws, |ws|) < 0xFFFF
    ensures LinkAt(ws, i) != LinkAt(ws, j)
  {
    var a := StereoBefore(ws, i);
    var b := StereoBefore(ws, j);
    StereoBeforeMonotone(ws, i + 1, j);
    StereoBeforeMonotone(ws, j, |ws|);
    assert a < b < 0xFFFF;
    assert LinkAt(ws, i) == 1 + a && LinkAt(ws, j) == 1 + b;
  }

}
