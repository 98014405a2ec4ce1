/** A preset or instrument zone: ordered generators and ordered modulators. */
module SF2Zone {
  import opened Ints
  import opened Wrappers
  import opened SF2Generator
  import opened SF2Modulator

  datatype Zone = Zone(generators: seq<Generator>, modulators: seq<Modulator>)

  const EmptyZone := Zone([], [])

  /** Whether some generator of the zone has the given kind. */
  predicate HasGenerator(z: Zone, kind: u16)
  {
    exists i :: 0 <= i < |z.generators| && z.generators[i].gen == kind
  }

  /** The zones of one preset or instrument: an optional global zone and the positional zones. */
  datatype ZoneSet = ZoneSet(globalZone: Option<Zone>, zones: seq<Zone>)

  /** The global zone, when present, followed by the positional zones in order. */
  function ZoneList(s: ZoneSet): (r: seq<Zone>)
    ensures |r| == |s.zones| + (if s.globalZone.Some? then 1 else 0)
  {
    (if s.globalZone.Some? then [s.globalZone.value] else []) + s.zones
  }
}
