/**
  The per-region and per-instrument chunks of a DLS Level 2 file: the
  region header `rgnh`, the sample settings `wsmp` with its optional loop
  record, the wave link `wlnk`, the connection block `art2`, the
  instrument header `insh` and the instrument name `INAM`. Each reader
  fills the fields its chunk carries into a region or instrument and
  leaves the rest as they were.
*/
module DLSChunks {
  import opened Ints
  import opened Bytes
  import opened Wrappers
  import opened Records
  import opened DLSArticulator
  import opened DLSRegion
  import opened DLSInstrument

  // ---------------------------------------------------------------------
  // Flag words.

  function Bit0(flags: int): bool
  {
    flags % 2 == 1
  }

  function Bit1(flags: int): bool
  {
    (flags / 2) % 2 == 1
  }

  /** Two booleans as bit 0 and bit 1 of a flag word. */
  function PackFlags(bit0: bool, bit1: bool): (flags: u16)
    ensures flags < 4
  {
    (if bit0 then 1 else 0) + (if bit1 then 2 else 0)
  }

  /** Packing then unpacking returns both booleans. */
  lemma PackFlagsRoundTrip(bit0: bool, bit1: bool)
    ensures Bit0(PackFlags(bit0, bit1)) == bit0 && Bit1(PackFlags(bit0, bit1)) == bit1
  {
  }

  /** Unpacking then packing returns any flag word that uses only the two bits. */
  lemma UnpackFlagsRoundTrip(flags: int)
    requires 0 <= flags < 4
    ensures PackFlags(Bit0(flags), Bit1(flags)) == flags
  {
  }

  // ---------------------------------------------------------------------
  // rgnh: key range, velocity range, double playback, key group, layer.

  const RgnhSize: nat := 14

  function WriteRgnh(r: Region): (b: Bytes)
    ensures |b| == RgnhSize
  {
    LeU16(r.noteLow) + LeU16(r.noteHigh) + LeU16(r.velocityLow) + LeU16(r.velocityHigh)
      + LeU16(if r.doublePlayback then 1 else 0) + LeU16(r.keyGroup) + LeU16(r.layer)
  }

  /** Double playback is any non-zero word; the key group keeps the low byte of its word. */
  function ReadRgnh(b: Bytes, r: Region): (out: Region)
    requires |b| >= RgnhSize
    ensures out.articulators == r.articulators && out.waveId == r.waveId && out.loops == r.loops
  {
    r.(noteLow := GetU16(b, 0), noteHigh := GetU16(b, 2),
       velocityLow := GetU16(b, 4), velocityHigh := GetU16(b, 6),
       doublePlayback := GetU16(b, 8) > 0, keyGroup := ToU8(GetU16(b, 10)), layer := GetU16(b, 12))
  }

  /** The rgnh fields as a region carries them. */
  function WithRgnh(base: Region, r: Region): Region
  {
    base.(noteLow := r.noteLow, noteHigh := r.noteHigh, velocityLow := r.velocityLow,
          velocityHigh := r.velocityHigh, doublePlayback := r.doublePlayback,
          keyGroup := r.keyGroup, layer := r.layer)
  }

  lemma RgnhRoundTrip(r: Region, base: Region)
    ensures ReadRgnh(WriteRgnh(r), base) == WithRgnh(base, r)
  {
    var b := WriteRgnh(r);
    U16At(b, 0, r.noteLow);
    U16At(b, 2, r.noteHigh);
    U16At(b, 4, r.velocityLow);
    U16At(b, 6, r.velocityHigh);
    U16At(b, 8, if r.doublePlayback then 1 else 0);
    U16At(b, 10, r.keyGroup);
    U16At(b, 12, r.layer);
  }

  // ---------------------------------------------------------------------
  // wsmp: root note, tuning, gain, options, and one loop record when looping.

  const WsmpSize: nat := 0x14
  const LoopRecordSize: nat := 0x10

  function WriteWsmp(r: Region): (b: Bytes)
    ensures |b| == WsmpSize + (if r.loops then LoopRecordSize else 0)
  {
    LeU32(WsmpSize) + LeU16(r.rootNote) + LeI16(r.tuning) + LeI32(r.gain)
      + LeU32(PackFlags(r.noTruncation, r.noCompression)) + LeU32(if r.loops then 1 else 0)
      + (if r.loops then
           LeU32(LoopRecordSize) + LeU32(if r.loopAndRelease then 1 else 0) + LeU32(r.loopStart) + LeU32(r.loopLength)
         else [])
  }

  /**
    The loop record is read only when the loop count is non-zero; otherwise
    the loop fields stay as they were. A chunk too short for what it
    announces is a format error.
  */
  function ReadWsmp(b: Bytes, r: Region): (out: Result<Region>)
    ensures out.Ok? <==> |b| >= WsmpSize && (GetU32(b, 16) > 0 ==> |b| >= WsmpSize + LoopRecordSize)
    ensures out.Ok? ==> out.value.loops == (GetU32(b, 16) > 0)
    ensures out.Ok? && !out.value.loops ==>
              out.value.loopAndRelease == r.loopAndRelease && out.value.loopStart == r.loopStart && out.value.loopLength == r.loopLength
    ensures out.Ok? ==> out.value.articulators == r.articulators && out.value.waveId == r.waveId
  {
    if |b| < WsmpSize then Err(FormatError)
    else
      var loops := GetU32(b, 16) > 0;
      if loops && |b| < WsmpSize + LoopRecordSize then Err(FormatError)
      else
        var flags := GetU32(b, 12);
        var r' := r.(rootNote := ToU8(GetU16(b, 4)), tuning := GetI16(b, 6), gain := GetI32(b, 8),
                     noTruncation := Bit0(flags), noCompression := Bit1(flags), loops := loops);
        if loops then
          Ok(r'.(loopAndRelease := GetU32(b, 24) > 0, loopStart := GetU32(b, 28), loopLength := GetU32(b, 32)))
        else Ok(r')
  }

  /** The wsmp fields as a region carries them; the loop fields only when it loops. */
  function WithWsmp(base: Region, r: Region): Region
  {
    var b := base.(rootNote := r.rootNote, tuning := r.tuning, gain := r.gain,
                   noTruncation := r.noTruncation, noCompression := r.noCompression, loops := r.loops);
    if r.loops then b.(loopAndRelease := r.loopAndRelease, loopStart := r.loopStart, loopLength := r.loopLength)
    else b
  }

  lemma WsmpHead(r: Region)
    ensures |WriteWsmp(r)| >= WsmpSize
    ensures GetU16(WriteWsmp(r), 4) == r.rootNote
    ensures GetI16(WriteWsmp(r), 6) == r.tuning
    ensures GetI32(WriteWsmp(r), 8) == r.gain
    ensures GetU32(WriteWsmp(r), 12) == PackFlags(r.noTruncation, r.noCompression)
    ensures GetU32(WriteWsmp(r), 16) == (if r.loops then 1 else 0)
  {
    var flags, count := PackFlags(r.noTruncation, r.noCompression), if r.loops then 1 else 0;
    var p0, p1, p2, p3 := LeU32(WsmpSize), LeU16(r.rootNote), LeI16(r.tuning), LeI32(r.gain);
    var p4, p5 := LeU32(flags), LeU32(count);
    var rest := if r.loops then
                  LeU32(LoopRecordSize) + LeU32(if r.loopAndRelease then 1 else 0) + LeU32(r.loopStart) + LeU32(r.loopLength)
                else [];
    var a1 := p0 + p1;
    var a2 := a1 + p2;
    var a3 := a2 + p3;
    var a4 := a3 + p4;
    var a5 := a4 + p5;
    var b := a5 + rest;
    assert b == WriteWsmp(r);
    SliceRight(p0, p1);
    SliceLeft(a1, p2, 4, 6);
    SliceLeft(a2, p3, 4, 6);
    SliceLeft(a3, p4, 4, 6);
    SliceLeft(a4, p5, 4, 6);
    SliceLeft(a5, rest, 4, 6);
    U16At(b, 4, r.rootNote);
    SliceRight(a1, p2);
    SliceLeft(a2, p3, 6, 8);
    SliceLeft(a3, p4, 6, 8);
    SliceLeft(a4, p5, 6, 8);
    SliceLeft(a5, rest, 6, 8);
    I16At(b, 6, r.tuning);
    SliceRight(a2, p3);
    SliceLeft(a3, p4, 8, 12);
    SliceLeft(a4, p5, 8, 12);
    SliceLeft(a5, rest, 8, 12);
    I32At(b, 8, r.gain);
    SliceRight(a3, p4);
    SliceLeft(a4, p5, 12, 16);
    SliceLeft(a5, rest, 12, 16);
    U32At(b, 12, flags);
    SliceRight(a4, p5);
    SliceLeft(a5, rest, 16, 20);
    U32At(b, 16, count);
  }

  lemma WsmpLoop(r: Region)
    requires r.loops
    ensures |WriteWsmp(r)| == WsmpSize + LoopRecordSize
    ensures GetU32(WriteWsmp(r), 24) == (if r.loopAndRelease then 1 else 0)
    ensures GetU32(WriteWsmp(r), 28) == r.loopStart
    ensures GetU32(WriteWsmp(r), 32) == r.loopLength
  {
    var b := WriteWsmp(r);
    U32At(b, 24, if r.loopAndRelease then 1 else 0);
    U32At(b, 28, r.loopStart);
    U32At(b, 32, r.loopLength);
  }

  /** The loop record is present exactly when the region loops, and every wsmp field survives. */
  lemma WsmpRoundTrip(r: Region, base: Region)
    ensures ReadWsmp(WriteWsmp(r), base) == Ok(WithWsmp(base, r))
  {
    WsmpHead(r);
    PackFlagsRoundTrip(r.noTruncation, r.noCompression);
    if r.loops {
      WsmpLoop(r);
    }
  }

  // ---------------------------------------------------------------------
  // wlnk: link options, phase group, channel flags, wave index.

  const WlnkSize: nat := 12

  function WriteWlnk(r: Region): (b: Bytes)
    ensures |b| == WlnkSize
  {
    LeU16(PackFlags(r.phaseMaster, r.multiChannel)) + LeU16(r.phaseGroup) + LeU32(r.channelFlags) + LeU32(r.waveId)
  }

  function ReadWlnk(b: Bytes, r: Region): (out: Region)
    requires |b| >= WlnkSize
    ensures out.loops == r.loops && out.articulators == r.articulators
  {
    var flags := GetU16(b, 0);
    r.(phaseMaster := Bit0(flags), multiChannel := Bit1(flags), phaseGroup := GetU16(b, 2),
       channelFlags := GetU32(b, 4), waveId := GetU32(b, 8))
  }

  function WithWlnk(base: Region, r: Region): Region
  {
    base.(phaseMaster := r.phaseMaster, multiChannel := r.multiChannel, phaseGroup := r.phaseGroup,
          channelFlags := r.channelFlags, waveId := r.waveId)
  }

  lemma WlnkRoundTrip(r: Region, base: Region)
    ensures ReadWlnk(WriteWlnk(r), base) == WithWlnk(base, r)
  {
    var b := WriteWlnk(r);
    U16At(b, 0, PackFlags(r.phaseMaster, r.multiChannel));
    U16At(b, 2, r.phaseGroup);
    U32At(b, 4, r.channelFlags);
    U32At(b, 8, r.waveId);
    PackFlagsRoundTrip(r.phaseMaster, r.multiChannel);
  }

  // ---------------------------------------------------------------------
  // art2: header size 8, connection count, then 12-byte connections.

  const ConnectionSize: nat := 12

  function WriteConnection(c: Connection): (b: Bytes)
    ensures |b| == ConnectionSize
  {
    LeU16(c.source) + LeU16(c.control) + LeU16(c.destination) + LeU16(c.transform) + LeI32(c.scale)
  }

  function ReadConnection(b: Bytes): (c: Connection)
    requires |b| >= ConnectionSize
  {
    Connection(GetU16(b, 0), GetU16(b, 2), GetU16(b, 4), GetU16(b, 6), GetI32(b, 8))
  }

  lemma ConnectionRoundTrip(c: Connection)
    ensures ReadConnection(WriteConnection(c)) == c
  {
    var b := WriteConnection(c);
    U16At(b, 0, c.source);
    U16At(b, 2, c.control);
    U16At(b, 4, c.destination);
    U16At(b, 6, c.transform);
    I32At(b, 8, c.scale);
  }

  function WriteArt2(a: Articulator): Bytes
  {
    LeU32(8) + LeU32(ToU32(|a.connections|)) + Flatten(a.connections, WriteConnection)
  }

  /** The announced number of connections must fit the chunk. */
  function ReadArt2(b: Bytes): (r: Result<Articulator>)
    ensures r.Ok? <==> |b| >= 8 && 8 + GetU32(b, 4) * ConnectionSize <= |b|
    ensures r.Ok? ==> |r.value.connections| == GetU32(b, 4)
  {
    if |b| < 8 then Err(FormatError)
    else
      var n := GetU32(b, 4);
      if 8 + n * ConnectionSize > |b| then Err(FormatError)
      else Ok(Articulator(Unflatten(b[8..], ConnectionSize, n, ReadConnection)))
  }

  lemma Art2RoundTrip(a: Articulator)
    requires |a.connections| < 0x1_0000_0000
    ensures ReadArt2(WriteArt2(a)) == Ok(a)
  {
    var cs := a.connections;
    var b := WriteArt2(a);
    U32At(b, 4, |cs|);
    forall i | 0 <= i < |cs|
      ensures ReadConnection(WriteConnection(cs[i])) == cs[i]
    {
      ConnectionRoundTrip(cs[i]);
    }
    UnflattenFlatten(cs, cs, [], ConnectionSize, WriteConnection, ReadConnection);
    assert b[8..] == Flatten(cs, WriteConnection) + [];
  }

  // ---------------------------------------------------------------------
  // insh: region count, bank, program.

  const InshSize: nat := 12

  function WriteInsh(inst: Instrument): (b: Bytes)
    ensures |b| == InshSize
  {
    LeU32(ToU32(|inst.regions|)) + LeU32(inst.bankId) + LeU32(inst.instrumentId)
  }

  /** The region count is not used: the regions are those of the region list. */
  function ReadInsh(b: Bytes, inst: Instrument): (out: Instrument)
    requires |b| >= InshSize
    ensures out.name == inst.name && out.regions == inst.regions
  {
    inst.(bankId := GetU32(b, 4), instrumentId := GetU32(b, 8))
  }

  lemma InshRoundTrip(inst: Instrument, base: Instrument)
    ensures ReadInsh(WriteInsh(inst), base) == base.(bankId := inst.bankId, instrumentId := inst.instrumentId)
  {
    var b := WriteInsh(inst);
    U32At(b, 4, inst.bankId);
    U32At(b, 8, inst.instrumentId);
  }

  // ---------------------------------------------------------------------
  // INAM: the name, a terminating NUL, and zero bytes up to a multiple of 4.

  /** The padded name chunk. */
  function NameBytes(name: string): (b: Bytes)
    ensures |b| % 4 == 0 && |name| < |b| <= |name| + 4
    ensures forall k :: 0 <= k < |name| ==> b[k] == CharByte(name[k])
    ensures forall k :: |name| <= k < |b| ==> b[k] == 0
  {
    var pad := (4 - (|name| + 1) % 4) % 4;
    seq(|name|, k requires 0 <= k < |name| => CharByte(name[k])) + [0] + seq(pad, _ => 0)
  }

  /** The writer's loop: the name, its NUL, then one zero byte at a time until the length is a multiple of 4. */
  method WriteName(name: string) returns (b: Bytes)
    ensures b == NameBytes(name)
  {
    b := [];
    for k := 0 to |name|
      invariant b == seq(k, j requires 0 <= j < k => CharByte(name[j]))
    {
      b := b + [CharByte(name[k])];
    }
    b := b + [0];
    var len := |name| + 1;
    while len % 4 != 0
      invariant |name| + 1 <= len <= |name| + 4 && len == |b|
      invariant forall k :: 0 <= k < |name| ==> b[k] == CharByte(name[k])
      invariant forall k :: |name| <= k < len ==> b[k] == 0
      invariant len - (|name| + 1) <= (4 - (|name| + 1) % 4) % 4
      decreases |name| + 4 - len
    {
      b := b + [0];
      len := len + 1;
    }
    assert |b| == |NameBytes(name)|;
  }

  /** Every NUL byte is dropped; every other byte is one character. */
  function ReadName(b: Bytes): (s: string)
    ensures |s| <= |b|
  {
    if b == [] then ""
    else if b[|b| - 1] == 0 then ReadName(b[..|b| - 1])
    else ReadName(b[..|b| - 1]) + [b[|b| - 1] as char]
  }

  /** A name survives when it has no NUL and every character is one byte. */
  predicate NameFits(name: string)
  {
    forall k :: 0 <= k < |name| ==> 0 < name[k] as int < 0x100
  }

  lemma {:induction false} ReadNameZeros(b: Bytes)
    requires forall k :: 0 <= k < |b| ==> b[k] == 0
    ensures ReadName(b) == ""
  {
    if b != [] {
      ReadNameZeros(b[..|b| - 1]);
    }
  }

  lemma {:induction false} ReadNameAppendZeros(a: Bytes, z: Bytes)
    requires forall k :: 0 <= k < |z| ==> z[k] == 0
    ensures ReadName(a + z) == ReadName(a)
  {
    if z != [] {
      assert (a + z)[..|a + z| - 1] == a + z[..|z| - 1];
      ReadNameAppendZeros(a, z[..|z| - 1]);
    } else {
      assert a + z == a;
    }
  }

  lemma {:induction false} ReadNameChars(name: string)
    requires NameFits(name)
    ensures ReadName(seq(|name|, k requires 0 <= k < |name| => CharByte(name[k]))) == name
  {
    var b := seq(|name|, k requires 0 <= k < |name| => CharByte(name[k]));
    if name != [] {
      var m := |name| - 1;
      assert b[..m] == seq(m, k requires 0 <= k < m => CharByte(name[..m][k]));
      ReadNameChars(name[..m]);
      assert name == name[..m] + [name[m]];
    }
  }

  /** Names without NUL whose characters are single bytes survive the padded chunk. */
  lemma NameRoundTrip(name: string)
    requires NameFits(name)
    ensures ReadName(NameBytes(name)) == name
  {
    var chars := seq(|name|, k requires 0 <= k < |name| => CharByte(name[k]));
    var pad := (4 - (|name| + 1) % 4) % 4;
    assert NameBytes(name) == chars + ([0] + seq(pad, _ => 0));
    ReadNameAppendZeros(chars, [0] + seq(pad, _ => 0));
    ReadNameChars(name);
  }
}
