/**
  An SF2 sample and its 46-byte `shdr` record (SoundFont 2.04, section
  7.10). On disk the start, end and loop points are absolute indices into
  the sample-data chunk; in memory the wave holds its own samples and loop
  points relative to its first sample.
*/
module SF2SampleItem {
  import opened Ints
  import opened Bytes
  import opened Wrappers
  import opened RiffWave
  import opened SF2LinkTypes

  const SampleHeaderSize: nat := 46

  datatype SampleItem = SampleItem(
    name: string,
    originalPitch: u8,
    pitchCorrection: i8,
    link: u16,
    isRomType: bool,
    linkType: u16,
    wave: RiffWave)

  /** The record as stored. */
  datatype SampleHeader = SampleHeader(
    name: string,
    start: u32,
    end: u32,
    loopStart: u32,
    loopEnd: u32,
    sampleRate: u32,
    originalPitch: u8,
    pitchCorrection: i8,
    link: u16,
    sampleType: u16)

  function WriteSampleHeader(h: SampleHeader): (b: Bytes)
    ensures |b| == SampleHeaderSize
  {
    FixedString(h.name, 20) + LeU32(h.start) + LeU32(h.end) + LeU32(h.loopStart) + LeU32(h.loopEnd)
      + LeU32(h.sampleRate) + [h.originalPitch] + [ToU8(h.pitchCorrection)] + LeU16(h.link) + LeU16(h.sampleType)
  }

  function ReadSampleHeader(b: Bytes): (h: SampleHeader)
    requires |b| >= SampleHeaderSize
    ensures h.start == GetU32(b, 20) && h.end == GetU32(b, 24)
    ensures h.loopStart == GetU32(b, 28) && h.loopEnd == GetU32(b, 32) && h.sampleRate == GetU32(b, 36)
    ensures h.originalPitch == b[40] && h.pitchCorrection == ToI8(b[41])
    ensures h.link == GetU16(b, 42) && h.sampleType == GetU16(b, 44)
  {
    SampleHeader(ReadFixedString(b[..20]), GetU32(b, 20), GetU32(b, 24), GetU32(b, 28), GetU32(b, 32),
                 GetU32(b, 36), b[40], ToI8(b[41]), GetU16(b, 42), GetU16(b, 44))
  }

  /** Where each field of the 46-byte record sits. */
  lemma SampleHeaderLayout(b: Bytes, name: Bytes, start: Bytes, end: Bytes, loopStart: Bytes,
      loopEnd: Bytes, sampleRate: Bytes, pitch: Bytes, correction: Bytes, link: Bytes,
      sampleType: Bytes)
    requires |name| == 20 && |start| == 4 && |end| == 4 && |loopStart| == 4 && |loopEnd| == 4
    requires |sampleRate| == 4 && |pitch| == 1 && |correction| == 1 && |link| == 2 && |sampleType| == 2
    requires b == name + start + end + loopStart + loopEnd + sampleRate + pitch + correction + link + sampleType
    ensures |b| == 46
    ensures b[0..20] == name && b[20..24] == start && b[24..28] == end && b[28..32] == loopStart
    ensures b[32..36] == loopEnd && b[36..40] == sampleRate && b[40..41] == pitch
    ensures b[41..42] == correction && b[42..44] == link && b[44..46] == sampleType
  {
    var a1 := name + start;
    var a2 := a1 + end;
    var a3 := a2 + loopStart;
    var a4 := a3 + loopEnd;
    var a5 := a4 + sampleRate;
    var a6 := a5 + pitch;
    var a7 := a6 + correction;
    var a8 := a7 + link;
    assert name[0..20] == name;
    SliceLeft(name, start, 0, 20);
    SliceLeft(a1, end, 0, 20);
    SliceLeft(a2, loopStart, 0, 20);
    SliceLeft(a3, loopEnd, 0, 20);
    SliceLeft(a4, sampleRate, 0, 20);
    SliceLeft(a5, pitch, 0, 20);
    SliceLeft(a6, correction, 0, 20);
    SliceLeft(a7, link, 0, 20);
    SliceLeft(a8, sampleType, 0, 20);
    SliceRight(name, start);
    SliceLeft(a1, end, 20, 24);
    SliceLeft(a2, loopStart, 20, 24);
    SliceLeft(a3, loopEnd, 20, 24);
    SliceLeft(a4, sampleRate, 20, 24);
    SliceLeft(a5, pitch, 20, 24);
    SliceLeft(a6, correction, 20, 24);
    SliceLeft(a7, link, 20, 24);
    SliceLeft(a8, sampleType, 20, 24);
    SliceRight(a1, end);
    SliceLeft(a2, loopStart, 24, 28);
    SliceLeft(a3, loopEnd, 24, 28);
    SliceLeft(a4, sampleRate, 24, 28);
    SliceLeft(a5, pitch, 24, 28);
    SliceLeft(a6, correction, 24, 28);
    SliceLeft(a7, link, 24, 28);
    SliceLeft(a8, sampleType, 24, 28);
    SliceRight(a2, loopStart);
    SliceLeft(a3, loopEnd, 28, 32);
    SliceLeft(a4, sampleRate, 28, 32);
    SliceLeft(a5, pitch, 28, 32);
    SliceLeft(a6, correction, 28, 32);
    SliceLeft(a7, link, 28, 32);
    SliceLeft(a8, sampleType, 28, 32);
    SliceRight(a3, loopEnd);
    SliceLeft(a4, sampleRate, 32, 36);
    SliceLeft(a5, pitch, 32, 36);
    SliceLeft(a6, correction, 32, 36);
    SliceLeft(a7, link, 32, 36);
    SliceLeft(a8, sampleType, 32, 36);
    SliceRight(a4, sampleRate);
    SliceLeft(a5, pitch, 36, 40);
    SliceLeft(a6, correction, 36, 40);
    SliceLeft(a7, link, 36, 40);
    SliceLeft(a8, sampleType, 36, 40);
    SliceRight(a5, pitch);
    SliceLeft(a6, correction, 40, 41);
    SliceLeft(a7, link, 40, 41);
    SliceLeft(a8, sampleType, 40, 41);
    SliceRight(a6, correction);
    SliceLeft(a7, link, 41, 42);
    SliceLeft(a8, sampleType, 41, 42);
    SliceRight(a7, link);
    SliceLeft(a8, sampleType, 42, 44);
    SliceRight(a8, sampleType);
  }

  /** Every field survives a write and a read when the name fits its field. */
  lemma {:induction false} SampleHeaderRoundTrip(h: SampleHeader)
    requires FitsFixed(h.name, 20)
    ensures ReadSampleHeader(WriteSampleHeader(h)) == h
  {
    var b := WriteSampleHeader(h);
    SampleHeaderLayout(b, FixedString(h.name, 20), LeU32(h.start), LeU32(h.end), LeU32(h.loopStart),
                       LeU32(h.loopEnd), LeU32(h.sampleRate), [h.originalPitch], [ToU8(h.pitchCorrection)],
                       LeU16(h.link), LeU16(h.sampleType));
    assert b[..20] == b[0..20];
    FixedStringRoundTrip(h.name, 20);
    U32At(b, 20, h.start);
    U32At(b, 24, h.end);
    U32At(b, 28, h.loopStart);
    U32At(b, 32, h.loopEnd);
    U32At(b, 36, h.sampleRate);
    assert b[40] == b[40..41][0] && b[41] == b[41..42][0];
    U16At(b, 42, h.link);
    U16At(b, 44, h.sampleType);
  }

  /** The terminal record: the name "EOS" and every other field zero. */
  const EndOfSamples := SampleHeader("EOS", 0, 0, 0, 0, 0, 0, 0, 0, 0)

  /** The terminal record is the three letters followed by 43 zero bytes. */
  lemma EndOfSamplesLayout()
    ensures WriteSampleHeader(EndOfSamples) == ['E' as int, 'O' as int, 'S' as int] + seq(43, _ => 0)
  {
    var b := WriteSampleHeader(EndOfSamples);
    assert LeU32(0) == [0, 0, 0, 0];
    assert LeU16(0) == [0, 0];
    assert ToU8(0) == 0;
    assert b[..20] == FixedString("EOS", 20);
    assert forall k :: 3 <= k < 20 ==> b[k] == 0;
  }

  // ---------------------------------------------------------------------
  // The type word: the link type in the low four bits, bit 15 for ROM samples.

  // For a 16-bit word, `w & 0xF` is w % 16, bit 15 is set exactly when
  // w >= 0x8000, and `w | 0x8000` adds 0x8000 when that bit is clear.

  function TypeWord(linkType: u16, isRom: bool): (w: u16)
    ensures w % 0x8000 == linkType % 0x8000
    ensures w >= RomBit <==> isRom || linkType >= RomBit
  {
    if isRom && linkType < RomBit then linkType + RomBit else linkType
  }

  function LinkTypeOf(w: u16): (t: u16)
    ensures t < 16
  {
    w % 16
  }

  function IsRomOf(w: u16): bool
  {
    w >= RomBit
  }

  /** Packing then unpacking restores a link type below 16 and the ROM flag. */
  lemma TypeWordRoundTrip(linkType: u16, isRom: bool)
    requires linkType < 16
    ensures LinkTypeOf(TypeWord(linkType, isRom)) == linkType
    ensures IsRomOf(TypeWord(linkType, isRom)) == isRom
  {
  }

  /** Every named link type survives the type word. */
  lemma LinkTypesSurviveTypeWord(isRom: bool)
    ensures forall t :: t in LinkTypes() ==> LinkTypeOf(TypeWord(t, isRom)) == t && IsRomOf(TypeWord(t, isRom)) == isRom
  {
    forall t | t in LinkTypes()
      ensures LinkTypeOf(TypeWord(t, isRom)) == t && IsRomOf(TypeWord(t, isRom)) == isRom
    {
      TypeWordRoundTrip(t, isRom);
    }
  }

  // ---------------------------------------------------------------------
  // Converting between the record and the in-memory sample.

  /**
    The record written for s when its samples start at index start of the
    sample-data chunk. Loop points become absolute only for a looping wave;
    otherwise both are written as 0. All sums wrap at 32 bits, as `uint` does.
  */
  function ToHeader(s: SampleItem, start: u32): (h: SampleHeader)
    requires |s.wave.channels| > 0
    ensures h.end == ToU32(start + NumSamples(s.wave))
    ensures s.wave.loops ==> h.loopStart == ToU32(s.wave.loopStart + start) && h.loopEnd == ToU32(s.wave.loopEnd + start)
    ensures !s.wave.loops ==> h.loopStart == 0 && h.loopEnd == 0
    ensures h.sampleType == TypeWord(s.linkType, s.isRomType)
  {
    SampleHeader(
      s.name, start, ToU32(start + NumSamples(s.wave)),
      if s.wave.loops then ToU32(s.wave.loopStart + start) else 0,
      if s.wave.loops then ToU32(s.wave.loopEnd + start) else 0,
      s.wave.sampleRate, s.originalPitch, s.pitchCorrection, s.link,
      TypeWord(s.linkType, s.isRomType))
  }

  /**
    The sample a record describes, reading its samples from table. Loop
    points are made relative only when the stored loop end is not 0, and
    the wave loops when the resulting loop end is positive. A negative
    sample count or a range past the table's end aborts the read.
  */
  function FromHeader(h: SampleHeader, table: seq<i16>): (r: Result<SampleItem>)
    ensures r.Ok? <==> h.start <= h.end <= |table|
    ensures r.Ok? ==> r.value.wave.channels == [table[h.start..h.end]]
    ensures r.Ok? && h.loopEnd != 0 ==>
              r.value.wave.loopStart == ToU32(h.loopStart - h.start) && r.value.wave.loopEnd == ToU32(h.loopEnd - h.start)
    ensures r.Ok? && h.loopEnd == 0 ==> r.value.wave.loopStart == h.loopStart && r.value.wave.loopEnd == 0
    ensures r.Ok? ==> r.value.wave.loops == (r.value.wave.loopEnd > 0)
    ensures r.Ok? ==> r.value.linkType == LinkTypeOf(h.sampleType) && r.value.isRomType == IsRomOf(h.sampleType)
  {
    if h.end < h.start then Err(FormatError)
    else if h.end > |table| then Err(IndexError)
    else
      var loopStart := if h.loopEnd != 0 then ToU32(h.loopStart - h.start) else h.loopStart;
      var loopEnd := if h.loopEnd != 0 then ToU32(h.loopEnd - h.start) else h.loopEnd;
      Ok(SampleItem(h.name, h.originalPitch, h.pitchCorrection, h.link, IsRomOf(h.sampleType), LinkTypeOf(h.sampleType),
                    RiffWave([table[h.start..h.end]], h.sampleRate, loopEnd > 0, loopStart, loopEnd)))
  }

  /** Making a loop point absolute and then relative again restores it, wrap-around included. */
  lemma LoopPointRoundTrip(x: u32, start: u32)
    ensures ToU32(ToU32(x + start) - start) == x
  {
  }

  /**
    A sample survives being written and read back when its wave is mono,
    its name fits, its link type fits the four low bits, its samples stay
    below index 2^32, and its loop settings are ones the record can express:
    a looping wave has a loop end that is positive and not written as 0,
    and a wave that does not loop has both loop points 0.
  */
  predicate RoundTrips(s: SampleItem, start: u32)
  {
    && |s.wave.channels| == 1
    && FitsFixed(s.name, 20)
    && s.linkType < 16
    && start + |s.wave.channels[0]| < 0x1_0000_0000
    && (s.wave.loops ==> s.wave.loopEnd > 0 && ToU32(s.wave.loopEnd + start) != 0)
    && (!s.wave.loops ==> s.wave.loopStart == 0 && s.wave.loopEnd == 0)
  }

  lemma {:induction false} SampleRoundTrip(s: SampleItem, start: u32, table: seq<i16>)
    requires RoundTrips(s, start)
    requires start + |s.wave.channels[0]| <= |table|
    requires table[start..start + |s.wave.channels[0]|] == s.wave.channels[0]
    ensures FromHeader(ToHeader(s, start), table) == Ok(s)
  {
    var h := ToHeader(s, start);
    TypeWordRoundTrip(s.linkType, s.isRomType);
    if s.wave.loops {
      LoopPointRoundTrip(s.wave.loopStart, start);
      LoopPointRoundTrip(s.wave.loopEnd, start);
    }
    assert [s.wave.channels[0]] == s.wave.channels;
  }
}
