/**
  Reading the zone layer of the SF2 hydra (SoundFont 2.04, sections 7.3 to
  7.9). A bag holds the index of its zone's first generator and first
  modulator; bag i owns the generators from its own index up to the next
  bag's index, and the last bag read owns those up to the number of
  generators read. The same holds for modulators.
*/
module SF2Bags {
  import opened Ints
  import opened Bytes
  import opened Wrappers
  import opened SF2Generator
  import opened SF2Modulator
  import opened SF2Zone

  const BagSize: nat := 4

  datatype Bag = Bag(genIndex: u16, modIndex: u16)

  function WriteBag(b: Bag): (r: Bytes)
    ensures |r| == BagSize
  {
    LeU16(b.genIndex) + LeU16(b.modIndex)
  }

  function ReadBag(r: Bytes): (b: Bag)
    requires |r| >= BagSize
    ensures b.genIndex == GetU16(r, 0) && b.modIndex == GetU16(r, 2)
  {
    Bag(GetU16(r, 0), GetU16(r, 2))
  }

  lemma {:induction false} BagRoundTrip(b: Bag)
    ensures ReadBag(WriteBag(b)) == b
  {
    var r := WriteBag(b);
    U16At(r, 0, b.genIndex);
    U16At(r, 2, b.modIndex);
  }

  /**
    What the source's loop `for (j = lo; j < hi; j++) add(s[j])` collects:
    nothing when hi <= lo, the slice when it lies inside s, and an index
    error when the loop would run past the end.
  */
  function Range<T>(s: seq<T>, lo: nat, hi: int): (r: Result<seq<T>>)
    ensures r.Ok? <==> hi <= lo || hi <= |s|
    ensures r.Ok? && lo < hi ==> r.value == s[lo..hi]
    ensures r.Ok? && hi <= lo ==> r.value == []
  {
    if hi <= lo then Ok([])
    else if hi > |s| then Err(IndexError)
    else Ok(s[lo..hi])
  }

  /** Where bag i's generators end: at the next bag's index, or at the number of generators. */
  function GenEnd(bags: seq<Bag>, gens: seq<Generator>, i: nat): int
    requires i < |bags|
  {
    if i + 1 < |bags| then bags[i + 1].genIndex else |gens|
  }

  function ModEnd(bags: seq<Bag>, mods: seq<Modulator>, i: nat): int
    requires i < |bags|
  {
    if i + 1 < |bags| then bags[i + 1].modIndex else |mods|
  }

  /** The zone bag i describes. */
  function BagZone(bags: seq<Bag>, gens: seq<Generator>, mods: seq<Modulator>, i: nat): (r: Result<Zone>)
    requires i < |bags|
  {
    var g := Range(gens, bags[i].genIndex, GenEnd(bags, gens, i));
    var m := Range(mods, bags[i].modIndex, ModEnd(bags, mods, i));
    if g.Err? then Err(g.error)
    else if m.Err? then Err(m.error)
    else Ok(Zone(g.value, m.value))
  }

  /** The zones of the first n bags, or the first bag's error. */
  function BagZonesUpTo(bags: seq<Bag>, gens: seq<Generator>, mods: seq<Modulator>, n: nat): (r: Result<seq<Zone>>)
    requires n <= |bags|
    ensures r.Ok? ==> |r.value| == n
  {
    if n == 0 then Ok([])
    else
      match BagZonesUpTo(bags, gens, mods, n - 1)
      case Err(e) => Err(e)
      case Ok(zs) =>
        match BagZone(bags, gens, mods, n - 1)
        case Err(e) => Err(e)
        case Ok(z) => Ok(zs + [z])
  }

  /** The zones of all bags. */
  function BagZones(bags: seq<Bag>, gens: seq<Generator>, mods: seq<Modulator>): (r: Result<seq<Zone>>)
    ensures r.Ok? ==> |r.value| == |bags|
  {
    BagZonesUpTo(bags, gens, mods, |bags|)
  }

  /**
    Reading succeeds exactly when every bag's ranges lie inside the
    generator and modulator lists, and zone i is then the zone bag i describes.
  */
  lemma {:induction false} BagZonesPointwise(bags: seq<Bag>, gens: seq<Generator>, mods: seq<Modulator>, n: nat)
    requires n <= |bags|
    ensures BagZonesUpTo(bags, gens, mods, n).Ok? <==> forall i :: 0 <= i < n ==> BagZone(bags, gens, mods, i).Ok?
    ensures BagZonesUpTo(bags, gens, mods, n).Ok? ==>
              forall i :: 0 <= i < n ==> BagZone(bags, gens, mods, i) == Ok(BagZonesUpTo(bags, gens, mods, n).value[i])
  {
    if n > 0 {
      BagZonesPointwise(bags, gens, mods, n - 1);
    }
  }

  /** Once a bag fails, the whole read fails with that error. */
  lemma {:induction false} BagZonesErrorSticks(bags: seq<Bag>, gens: seq<Generator>, mods: seq<Modulator>, n: nat, m: nat)
    requires n <= m <= |bags|
    requires BagZonesUpTo(bags, gens, mods, n).Err?
    ensures BagZonesUpTo(bags, gens, mods, m) == BagZonesUpTo(bags, gens, mods, n)
    decreases m - n
  {
    if n < m {
      BagZonesErrorSticks(bags, gens, mods, n, m - 1);
    }
  }

  /** The source's inner loop: the items from lo up to hi one at a time, failing at the first index past the end. */
  method CollectRange<T>(s: seq<T>, lo: nat, hi: int) returns (r: Result<seq<T>>)
    ensures r == Range(s, lo, hi)
  {
    var items: seq<T> := [];
    var j := lo;
    while j < hi
      invariant lo <= j && (j <= hi || j == lo)
      invariant j == lo ==> items == []
      invariant j > lo ==> j <= |s| && items == s[lo..j]
    {
      if j >= |s| {
        return Err(IndexError);
      }
      items := items + [s[j]];
      j := j + 1;
    }
    return Ok(items);
  }

  /** One bag: its generators, then its modulators. */
  method ReadBagZone(bags: seq<Bag>, gens: seq<Generator>, mods: seq<Modulator>, i: nat) returns (r: Result<Zone>)
    requires i < |bags|
    ensures r == BagZone(bags, gens, mods, i)
  {
    var startGen: int := bags[i].genIndex;
    var startMod: int := bags[i].modIndex;
    var numGen := |gens| - startGen;
    var numMod := |mods| - startMod;
    if i + 1 <= |bags| - 1 {
      numGen := bags[i + 1].genIndex - startGen;
      numMod := bags[i + 1].modIndex - startMod;
    }
    var g := CollectRange(gens, startGen, startGen + numGen);
    if g.Err? {
      return Err(g.error);
    }
    var m := CollectRange(mods, startMod, startMod + numMod);
    if m.Err? {
      return Err(m.error);
    }
    return Ok(Zone(g.value, m.value));
  }

  /** The source's loop over the bags; an index past the end aborts the read. */
  method ReadBagZones(bags: seq<Bag>, gens: seq<Generator>, mods: seq<Modulator>) returns (r: Result<seq<Zone>>)
    ensures r == BagZones(bags, gens, mods)
  {
    var zones: seq<Zone> := [];
    for i := 0 to |bags|
      invariant BagZonesUpTo(bags, gens, mods, i) == Ok(zones)
    {
      var z := ReadBagZone(bags, gens, mods, i);
      if z.Err? {
        BagZonesErrorSticks(bags, gens, mods, i + 1, |bags|);
        return Err(z.error);
      }
      zones := zones + [z.value];
    }
    return Ok(zones);
  }
}
