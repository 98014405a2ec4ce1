/**
  DLS articulation: a list of connections, each routing a source through a
  transform to a destination with a 16.16 fixed-point scale (MMA DLS
  Level 2, the `art2` chunk). Enumerations are kept as their raw 16-bit codes.
*/
module DLSArticulator {
  import opened Ints

  datatype Connection = Connection(source: u16, control: u16, destination: u16, transform: u16, scale: i32)

  datatype Articulator = Articulator(connections: seq<Connection>)

  /** `new Articulator()`: no connections. */
  const NewArticulator := Articulator([])

  // Destination codes the converter maps to SF2 generators.
  const Pan: u16 := 4
  const KeyNumber: u16 := 5
  const Chorus: u16 := 0x80
  const LFOFrequency: u16 := 0x104
  const LFOStartDelayTime: u16 := 0x105
  const EG1AttackTime: u16 := 0x206
  const EG1DecayTime: u16 := 0x207
  const EG1ReleaseTime: u16 := 0x209
  const EG1SustainLevel: u16 := 0x20A
  const EG1DelayTime: u16 := 0x20B
  const EG1HoldTime: u16 := 0x20C

  // Transform codes.
  const TransformNone: u16 := 0
  const TransformConcave: u16 := 1
  const TransformConvex: u16 := 2
  const TransformSwitch: u16 := 3

  function MappedDestinations(): (ds: seq<u16>)
    ensures |ds| == 11
  {
    [Pan, KeyNumber, Chorus, LFOFrequency, LFOStartDelayTime,
     EG1AttackTime, EG1DecayTime, EG1ReleaseTime, EG1SustainLevel, EG1DelayTime, EG1HoldTime]
  }

  /** The mapped destinations are eleven distinct codes, so the converter's switch picks at most one case. */
  lemma MappedDestinationsDistinct()
    ensures forall i, j :: 0 <= i < j < |MappedDestinations()| ==> MappedDestinations()[i] != MappedDestinations()[j]
  {
  }
}
