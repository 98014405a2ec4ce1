/**
  Writing the zone layer of the SF2 hydra. The zones of all headers are
  laid out one after another; bag j holds the number of generators and of
  modulators of the zones before zone j, and one more bag holds the totals.
  The generator and modulator chunks hold the zones' lists concatenated.
  The running counters are 16 bits wide, as in the source.
*/
module SF2ZoneLayout {
  import opened Ints
  import opened Wrappers
  import opened Lists
  import opened SF2Generator
  import opened SF2Modulator
  import opened SF2Zone
  import opened SF2Bags
  import opened SF2ZoneGroups

  function GenLists(zones: seq<Zone>): (r: seq<seq<Generator>>)
    ensures |r| == |zones| && forall j :: 0 <= j < |zones| ==> r[j] == zones[j].generators
  {
    seq(|zones|, j requires 0 <= j < |zones| => zones[j].generators)
  }

  function ModLists(zones: seq<Zone>): (r: seq<seq<Modulator>>)
    ensures |r| == |zones| && forall j :: 0 <= j < |zones| ==> r[j] == zones[j].modulators
  {
    seq(|zones|, j requires 0 <= j < |zones| => zones[j].modulators)
  }

  /** Every generator of the zones, in zone order. */
  function AllGenerators(zones: seq<Zone>): seq<Generator>
  {
    Concat(GenLists(zones))
  }

  function AllModulators(zones: seq<Zone>): seq<Modulator>
  {
    Concat(ModLists(zones))
  }

  /** Bag j as written: the generator and modulator totals before zone j, kept to 16 bits. */
  function BagAt(zones: seq<Zone>, j: nat): (b: Bag)
    requires j <= |zones|
  {
    Bag(ToU16(Offset(GenLists(zones), j)), ToU16(Offset(ModLists(zones), j)))
  }

  /** The bags as written, the terminal bag with the totals included. */
  function Bags(zones: seq<Zone>): (bs: seq<Bag>)
    ensures |bs| == |zones| + 1
  {
    seq(|zones| + 1, j requires 0 <= j <= |zones| => BagAt(zones, j))
  }

  /** One pass of the bag loop: zone j's bag, then both counters advanced past its lists. */
  method WriteZoneBag(zones: seq<Zone>, j: nat, bags: seq<Bag>, currGenIndex: u16, currModIndex: u16)
    returns (bags': seq<Bag>, currGenIndex': u16, currModIndex': u16)
    requires j < |zones| && bags == Bags(zones)[..j]
    requires currGenIndex == ToU16(Offset(GenLists(zones), j)) && currModIndex == ToU16(Offset(ModLists(zones), j))
    ensures bags' == Bags(zones)[..j + 1]
    ensures currGenIndex' == ToU16(Offset(GenLists(zones), j + 1)) && currModIndex' == ToU16(Offset(ModLists(zones), j + 1))
  {
    PrefixSnoc(Bags(zones), j);
    bags' := bags + [Bag(currGenIndex, currModIndex)];
    ConcatSlice(GenLists(zones), j);
    ConcatSlice(ModLists(zones), j);
    ToU16Add(Offset(GenLists(zones), j), |zones[j].generators|);
    ToU16Add(Offset(ModLists(zones), j), |zones[j].modulators|);
    currGenIndex' := ToU16(currGenIndex + ToU16(|zones[j].generators|));
    currModIndex' := ToU16(currModIndex + ToU16(|zones[j].modulators|));
  }

  /** The source's bag loop: one bag per zone from two `ushort` counters, then the totals. */
  method WriteBags(zones: seq<Zone>) returns (bags: seq<Bag>)
    ensures bags == Bags(zones)
  {
    var currGenIndex: u16 := 0;
    var currModIndex: u16 := 0;
    bags := [];
    for j := 0 to |zones|
      invariant bags == Bags(zones)[..j]
      invariant currGenIndex == ToU16(Offset(GenLists(zones), j))
      invariant currModIndex == ToU16(Offset(ModLists(zones), j))
    {
      bags, currGenIndex, currModIndex := WriteZoneBag(zones, j, bags, currGenIndex, currModIndex);
    }
    PrefixSnoc(Bags(zones), |zones|);
    assert Bags(zones)[..|zones| + 1] == Bags(zones);
    bags := bags + [Bag(currGenIndex, currModIndex)];
  }

  /** The source's generator loop: every zone's generators in turn. */
  method WriteGenerators(zones: seq<Zone>) returns (gens: seq<Generator>)
    ensures gens == AllGenerators(zones)
  {
    gens := [];
    for j := 0 to |zones|
      invariant gens == Concat(GenLists(zones)[..j])
    {
      var zg := zones[j].generators;
      var start := gens;
      for k := 0 to |zg|
        invariant gens == start + zg[..k]
      {
        gens := gens + [zg[k]];
      }
      assert zg[..|zg|] == zg;
      ConcatSnoc(GenLists(zones), j);
    }
    assert GenLists(zones)[..|zones|] == GenLists(zones);
  }

  /** The source's modulator loop: every zone's modulators in turn. */
  method WriteModulators(zones: seq<Zone>) returns (mods: seq<Modulator>)
    ensures mods == AllModulators(zones)
  {
    mods := [];
    for j := 0 to |zones|
      invariant mods == Concat(ModLists(zones)[..j])
    {
      var zm := zones[j].modulators;
      var start := mods;
      for k := 0 to |zm|
        invariant mods == start + zm[..k]
      {
        mods := mods + [zm[k]];
      }
      assert zm[..|zm|] == zm;
      ConcatSnoc(ModLists(zones), j);
    }
    assert ModLists(zones)[..|zones|] == ModLists(zones);
  }

  /**
    Reading back what was written: with the terminal bag dropped, every bag
    recovers its zone's generators and modulators, provided the totals fit
    the 16-bit bag fields.
  */
  lemma ReadWrittenBags(zones: seq<Zone>)
    requires |AllGenerators(zones)| < 0x1_0000 && |AllModulators(zones)| < 0x1_0000
    ensures BagZones(Bags(zones)[..|zones|], AllGenerators(zones), AllModulators(zones)) == Ok(zones)
  {
    var bags := Bags(zones)[..|zones|];
    var gens, mods := AllGenerators(zones), AllModulators(zones);
    forall i | 0 <= i < |zones|
      ensures BagZone(bags, gens, mods, i) == Ok(zones[i])
    {
      BagReadsZone(zones, i);
    }
    BagZonesPointwise(bags, gens, mods, |bags|);
    var r := BagZonesUpTo(bags, gens, mods, |bags|);
    assert r.Ok? && |r.value| == |zones|;
    assert forall i :: 0 <= i < |zones| ==> r.value[i] == zones[i];
    assert r.value == zones;
  }

  lemma BagReadsZone(zones: seq<Zone>, i: nat)
    requires i < |zones|
    requires |AllGenerators(zones)| < 0x1_0000 && |AllModulators(zones)| < 0x1_0000
    ensures BagZone(Bags(zones)[..|zones|], AllGenerators(zones), AllModulators(zones), i) == Ok(zones[i])
  {
    var bags := Bags(zones)[..|zones|];
    var gl, ml := GenLists(zones), ModLists(zones);
    ConcatSlice(gl, i);
    ConcatSlice(ml, i);
    OffsetMonotone(gl, i, i + 1);
    OffsetMonotone(ml, i, i + 1);
    OffsetEnd(gl);
    OffsetEnd(ml);
    assert bags[i].genIndex == Offset(gl, i) && bags[i].modIndex == Offset(ml, i);
    if i + 1 < |zones| {
      OffsetMonotone(gl, i + 1, |zones|);
      OffsetMonotone(ml, i + 1, |zones|);
      assert bags[i + 1].genIndex == Offset(gl, i + 1) && bags[i + 1].modIndex == Offset(ml, i + 1);
    }
    assert GenEnd(bags, AllGenerators(zones), i) == Offset(gl, i + 1);
    assert ModEnd(bags, AllModulators(zones), i) == Offset(ml, i + 1);
  }

  /** The zone lists of the headers, each with its global zone first. */
  function ZoneLists(sets: seq<ZoneSet>): (r: seq<seq<Zone>>)
    ensures |r| == |sets| && forall i :: 0 <= i < |sets| ==> r[i] == ZoneList(sets[i])
  {
    seq(|sets|, i requires 0 <= i < |sets| => ZoneList(sets[i]))
  }

  /** Every zone of the headers, in header order. */
  function AllZones(sets: seq<ZoneSet>): seq<Zone>
  {
    Concat(ZoneLists(sets))
  }

  /** Header i's bag index as written: the zone count of the headers before it, kept to 16 bits. */
  function StartAt(sets: seq<ZoneSet>, i: nat): u16
    requires i <= |sets|
  {
    ToU16(Offset(ZoneLists(sets), i))
  }

  /** One step of the writer's header pass: the running count and the collected zones both advance by header i. */
  lemma StartStep(sets: seq<ZoneSet>, i: nat)
    requires i < |sets|
    ensures StartAt(sets, i + 1) == ToU16(StartAt(sets, i) + ToU16(|ZoneList(sets[i])|))
    ensures Concat(ZoneLists(sets)[..i + 1]) == Concat(ZoneLists(sets)[..i]) + ZoneList(sets[i])
  {
    ConcatSlice(ZoneLists(sets), i);
    ToU16Add(Offset(ZoneLists(sets), i), |ZoneList(sets[i])|);
    ConcatSnoc(ZoneLists(sets), i);
  }

  lemma StartEnd(sets: seq<ZoneSet>)
    ensures Concat(ZoneLists(sets)[..|sets|]) == AllZones(sets)
    ensures StartAt(sets, |sets|) == ToU16(|AllZones(sets)|)
  {
    assert ZoneLists(sets)[..|sets|] == ZoneLists(sets);
    OffsetEnd(ZoneLists(sets));
  }

  function Starts(sets: seq<ZoneSet>): (r: seq<u16>)
    ensures |r| == |sets|
  {
    seq(|sets|, i requires 0 <= i < |sets| => StartAt(sets, i))
  }

  /**
    Reading back what was written: every header gets its own zones back,
    with the global zone in its place, provided every header is well formed
    and the zone total fits the 16-bit bag index.
  */
  lemma ReadWrittenGroups(sets: seq<ZoneSet>, kind: u16)
    requires |AllZones(sets)| < 0x1_0000
    requires forall i :: 0 <= i < |sets| ==> WellFormed(sets[i], kind)
    ensures Group(Starts(sets), AllZones(sets), kind) == Ok(sets)
  {
    var starts, zones := Starts(sets), AllZones(sets);
    forall i | 0 <= i < |sets|
      ensures HeaderZones(starts, zones, i) == Ok(ZoneList(sets[i]))
    {
      HeaderReadsZones(sets, i);
    }
    forall i | 0 <= i < |sets|
      ensures Classify(ZoneList(sets[i]), kind) == sets[i]
    {
      ClassifyZoneList(sets[i], kind);
    }
    GroupPointwise(starts, zones, kind, |starts|);
    var r := GroupUpTo(starts, zones, kind, |starts|);
    assert r.Ok? && |r.value| == |sets|;
    assert forall i :: 0 <= i < |sets| ==> r.value[i] == sets[i];
    assert r.value == sets;
  }

  lemma HeaderReadsZones(sets: seq<ZoneSet>, i: nat)
    requires i < |sets|
    requires |AllZones(sets)| < 0x1_0000
    ensures HeaderZones(Starts(sets), AllZones(sets), i) == Ok(ZoneList(sets[i]))
  {
    var zl := ZoneLists(sets);
    var starts := Starts(sets);
    ConcatSlice(zl, i);
    OffsetMonotone(zl, i, i + 1);
    OffsetEnd(zl);
    assert starts[i] == Offset(zl, i);
    if i + 1 < |sets| {
      OffsetMonotone(zl, i + 1, |sets|);
      assert starts[i + 1] == Offset(zl, i + 1);
    }
  }
}
