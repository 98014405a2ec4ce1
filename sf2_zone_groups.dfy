/**
  Handing the zones read from the bags to their presets or instruments.
  Header i owns the zones from its bag index up to the next header's bag
  index, and the last header those up to the number of zones read. While a
  header has no positional zone yet, a zone without the terminal generator
  (Instrument for presets, SampleID for instruments) becomes its global
  zone, replacing any earlier one; every other zone is appended.
*/
module SF2ZoneGroups {
  import opened Ints
  import opened Wrappers
  import opened SF2Zone
  import opened SF2Bags

  /** One zone placed into a header during reading. */
  function Place(s: ZoneSet, z: Zone, kind: u16): (r: ZoneSet)
  {
    if s.zones == [] && !HasGenerator(z, kind) then ZoneSet(Some(z), s.zones)
    else ZoneSet(s.globalZone, s.zones + [z])
  }

  /** The header's zones after placing zs, in order, into a new header. */
  function Classify(zs: seq<Zone>, kind: u16): (s: ZoneSet)
  {
    if zs == [] then ZoneSet(None, [])
    else Place(Classify(zs[..|zs| - 1], kind), zs[|zs| - 1], kind)
  }

  /** The index of the first zone with the terminal kind, or the zone count when none has it. */
  function FirstWith(zs: seq<Zone>, kind: u16): (k: nat)
    ensures k <= |zs|
    ensures forall j :: 0 <= j < k ==> !HasGenerator(zs[j], kind)
    ensures k < |zs| ==> HasGenerator(zs[k], kind)
  {
    if zs == [] then 0
    else
      var k := FirstWith(zs[..|zs| - 1], kind);
      if k < |zs| - 1 then k
      else if HasGenerator(zs[|zs| - 1], kind) then |zs| - 1
      else |zs|
  }

  /**
    The outcome of the placement rule: the zones from the first one with
    the terminal kind onwards are the positional zones, and the zone just
    before it, if any, is the global zone; every earlier zone was overwritten.
  */
  lemma {:induction false} ClassifySplit(zs: seq<Zone>, kind: u16)
    ensures Classify(zs, kind).zones == zs[FirstWith(zs, kind)..]
    ensures Classify(zs, kind).globalZone == if FirstWith(zs, kind) == 0 then None else Some(zs[FirstWith(zs, kind) - 1])
  {
    if zs != [] {
      var n := |zs|;
      var pre, last := zs[..n - 1], zs[n - 1];
      ClassifySplit(pre, kind);
      var k := FirstWith(pre, kind);
      var s := Classify(pre, kind);
      assert Classify(zs, kind) == Place(s, last, kind);
      if k < n - 1 {
        assert s.zones != [] && FirstWith(zs, kind) == k;
        assert zs[k..] == pre[k..] + [last];
      } else if HasGenerator(last, kind) {
        assert s.zones == [] && FirstWith(zs, kind) == n - 1;
        assert zs[n - 1..] == [last];
      } else {
        assert s.zones == [] && FirstWith(zs, kind) == n;
      }
    }
  }

  /** The index is determined by the properties it is specified with. */
  lemma FirstWithUnique(zs: seq<Zone>, kind: u16, k: nat)
    requires k <= |zs|
    requires forall j :: 0 <= j < k ==> !HasGenerator(zs[j], kind)
    requires k < |zs| ==> HasGenerator(zs[k], kind)
    ensures FirstWith(zs, kind) == k
  {
  }

  /**
    A header read back is the one written exactly when a global zone, if
    present, lacks the terminal kind and the first positional zone, if any,
    has it.
  */
  predicate WellFormed(s: ZoneSet, kind: u16)
  {
    (s.globalZone.Some? ==> !HasGenerator(s.globalZone.value, kind))
    && (s.zones != [] ==> HasGenerator(s.zones[0], kind))
  }

  /** A header with a global zone: its list is the global zone followed by the positional zones. */
  lemma ClassifyWithGlobal(s: ZoneSet, kind: u16)
    requires s.globalZone.Some?
    ensures Classify(ZoneList(s), kind) == s <==> WellFormed(s, kind)
  {
    var zs := ZoneList(s);
    ClassifySplit(zs, kind);
    var f := FirstWith(zs, kind);
    assert zs == [s.globalZone.value] + s.zones;
    assert zs[1..] == s.zones;
    if WellFormed(s, kind) {
      FirstWithUnique(zs, kind, 1);
    } else if HasGenerator(s.globalZone.value, kind) {
      FirstWithUnique(zs, kind, 0);
    } else {
      assert f >= 2;
      assert |zs[f..]| < |s.zones|;
    }
  }

  /** A header without a global zone: its list is its positional zones. */
  lemma ClassifyWithoutGlobal(s: ZoneSet, kind: u16)
    requires s.globalZone.None?
    ensures Classify(ZoneList(s), kind) == s <==> WellFormed(s, kind)
  {
    var zs := ZoneList(s);
    assert zs == s.zones;
    ClassifySplit(zs, kind);
    var f := FirstWith(zs, kind);
    if WellFormed(s, kind) {
      FirstWithUnique(zs, kind, 0);
      assert zs[f..] == s.zones;
    } else {
      assert f >= 1;
    }
  }

  lemma ClassifyZoneList(s: ZoneSet, kind: u16)
    ensures Classify(ZoneList(s), kind) == s <==> WellFormed(s, kind)
  {
    if s.globalZone.Some? {
      ClassifyWithGlobal(s, kind);
    } else {
      ClassifyWithoutGlobal(s, kind);
    }
  }

  /** Header i's zones: from its bag index to the next header's, or to the zone count for the last header. */
  function HeaderZones(starts: seq<u16>, zones: seq<Zone>, i: nat): (r: Result<seq<Zone>>)
    requires i < |starts|
  {
    Range(zones, starts[i], if i + 1 < |starts| then starts[i + 1] else |zones|)
  }

  /** The zone sets of the first n headers, or the first header's error. */
  function GroupUpTo(starts: seq<u16>, zones: seq<Zone>, kind: u16, n: nat): (r: Result<seq<ZoneSet>>)
    requires n <= |starts|
    ensures r.Ok? ==> |r.value| == n
  {
    if n == 0 then Ok([])
    else
      match GroupUpTo(starts, zones, kind, n - 1)
      case Err(e) => Err(e)
      case Ok(ss) =>
        match HeaderZones(starts, zones, n - 1)
        case Err(e) => Err(e)
        case Ok(zs) => Ok(ss + [Classify(zs, kind)])
  }

  function Group(starts: seq<u16>, zones: seq<Zone>, kind: u16): (r: Result<seq<ZoneSet>>)
    ensures r.Ok? ==> |r.value| == |starts|
  {
    GroupUpTo(starts, zones, kind, |starts|)
  }

  /**
    Grouping succeeds exactly when every header's range lies inside the
    zone list, and header i then gets the placement of its own range.
  */
  lemma {:induction false} GroupPointwise(starts: seq<u16>, zones: seq<Zone>, kind: u16, n: nat)
    requires n <= |starts|
    ensures GroupUpTo(starts, zones, kind, n).Ok? <==> forall i :: 0 <= i < n ==> HeaderZones(starts, zones, i).Ok?
    ensures GroupUpTo(starts, zones, kind, n).Ok? ==>
              forall i :: 0 <= i < n ==>
                GroupUpTo(starts, zones, kind, n).value[i] == Classify(HeaderZones(starts, zones, i).value, kind)
  {
    if n > 0 {
      GroupPointwise(starts, zones, kind, n - 1);
    }
  }

  lemma {:induction false} GroupErrorSticks(starts: seq<u16>, zones: seq<Zone>, kind: u16, n: nat, m: nat)
    requires n <= m <= |starts|
    requires GroupUpTo(starts, zones, kind, n).Err?
    ensures GroupUpTo(starts, zones, kind, m) == GroupUpTo(starts, zones, kind, n)
    decreases m - n
  {
    if n < m {
      GroupErrorSticks(starts, zones, kind, n, m - 1);
    }
  }

  /**
    One header: it takes the zones of its bag range one at a time, by the
    placement rule; a range running past the zones read aborts the read.
  */
  method GroupHeader(starts: seq<u16>, zones: seq<Zone>, kind: u16, i: nat) returns (r: Result<ZoneSet>)
    requires i < |starts|
    ensures r.Err? <==> HeaderZones(starts, zones, i).Err?
    ensures r.Err? ==> r.error == HeaderZones(starts, zones, i).error
    ensures r.Ok? ==> r.value == Classify(HeaderZones(starts, zones, i).value, kind)
  {
    var startZone: int := starts[i];
    var numZones := |zones| - startZone;
    if i + 1 <= |starts| - 1 {
      numZones := starts[i + 1] - startZone;
    }
    var s := ZoneSet(None, []);
    var j := startZone;
    while j < startZone + numZones
      invariant startZone <= j && (j <= startZone + numZones || j == startZone)
      invariant j == startZone ==> s == ZoneSet(None, [])
      invariant j > startZone ==> j <= |zones| && s == Classify(zones[startZone..j], kind)
    {
      if j >= |zones| {
        return Err(IndexError);
      }
      assert zones[startZone..j + 1][..j - startZone] == zones[startZone..j];
      if s.zones == [] && !HasGenerator(zones[j], kind) {
        s := ZoneSet(Some(zones[j]), s.zones);
      } else {
        s := ZoneSet(s.globalZone, s.zones + [zones[j]]);
      }
      j := j + 1;
    }
    assert HeaderZones(starts, zones, i) == Ok(if j == startZone then [] else zones[startZone..j]);
    return Ok(s);
  }

  /** The source's loop over the headers; the first header whose range fails aborts the read. */
  method GroupZones(starts: seq<u16>, zones: seq<Zone>, kind: u16) returns (r: Result<seq<ZoneSet>>)
    ensures r == Group(starts, zones, kind)
  {
    var sets: seq<ZoneSet> := [];
    for i := 0 to |starts|
      invariant GroupUpTo(starts, zones, kind, i) == Ok(sets)
    {
      var s := GroupHeader(starts, zones, kind, i);
      if s.Err? {
        GroupErrorSticks(starts, zones, kind, i + 1, |starts|);
        return Err(s.error);
      }
      sets := sets + [s.value];
    }
    return Ok(sets);
  }
}
