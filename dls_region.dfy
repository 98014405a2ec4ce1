/**
  A DLS region: a key and velocity range played by one wave of the pool,
  with its sample settings (`wsmp`), wave link (`wlnk`) and articulators.
*/
module DLSRegion {
  import opened Ints
  import opened DLSArticulator

  datatype Region = Region(
    noteLow: u16,
    noteHigh: u16,
    velocityLow: u16,
    velocityHigh: u16,
    doublePlayback: bool,
    keyGroup: u8,
    layer: u16,
    rootNote: u8,
    tuning: i16,
    gain: i32,
    noTruncation: bool,
    noCompression: bool,
    loops: bool,
    loopAndRelease: bool,
    loopStart: u32,
    loopLength: u32,
    phaseMaster: bool,
    multiChannel: bool,
    phaseGroup: u16,
    channelFlags: u32,
    waveId: u32,
    articulators: seq<Articulator>)

  /**
    `new Region()`: the full key and velocity range, double playback, root
    note 60, no truncation, no loop and no articulators. Key group 0 means
    the region belongs to no exclusive group.
  */
  const NewRegion := Region(
    0, 127, 0, 127, true, 0, 0, 60, 0, 0,
    true, false, false, false, 0, 0,
    false, false, 0, 0, 0, [])

  /** A key group names an exclusive group when it is 1 to 15; 0 disables it. */
  predicate InKeyGroup(r: Region)
  {
    1 <= r.keyGroup <= 15
  }

  /** The full key and velocity range is the converter's "no range generator" case. */
  predicate FullRange(r: Region)
  {
    r.noteLow == 0 && r.noteHigh == 127 && r.velocityLow == 0 && r.velocityHigh == 127
  }

  lemma NewRegionDefaults()
    ensures FullRange(NewRegion) && !InKeyGroup(NewRegion)
    ensures NewRegion.rootNote == 60 && NewRegion.doublePlayback && NewRegion.noTruncation
    ensures !NewRegion.noCompression && !NewRegion.loops && !NewRegion.loopAndRelease
    ensures NewRegion.articulators == []
  {
  }
}
