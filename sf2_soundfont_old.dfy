/**
  The older SF2 loader. It cuts one single-channel wave per sample header out
  of the sample data, then joins linked samples (a stereo pair, or any group
  sharing a link number) into one multi-channel wave, and records for every
  raw sample index the index of the wave that sample ended up in.
*/
module SF2SoundFontOld {
  import opened Ints
  import opened Bytes
  import opened Wrappers
  import opened Lists
  import opened RiffWave
  import opened SF2LinkTypes
  import opened SF2SampleItem

  /** One sample header with its samples, as the loader keeps it before joining. */
  datatype RawSample = RawSample(
    data: seq<i16>,
    sampleRate: u32,
    loopStart: u32,
    loopEnd: u32,
    pitch: u8,
    correction: i8,
    link: u16,
    sampleType: u16)

  /** The single-channel wave of a raw sample; it loops exactly when its loop end is not 0. */
  function RawWave(s: RawSample): RiffWave
  {
    RiffWave([s.data], s.sampleRate, s.loopEnd != 0, s.loopStart, s.loopEnd)
  }

  /** The link type the join looks at: the low byte of the type word. */
  function Kind(s: RawSample): u8
  {
    ToU8(s.sampleType)
  }

  /**
    The number of raw samples, `(int)(size / 46 - 1)` in unsigned 32-bit
    arithmetic: the terminal record is not a sample, and below one whole
    record the subtraction wraps to 0xFFFFFFFF, which the cast reads as -1.
  */
  function RawSampleCount(size: u32): (n: int)
    ensures size < SampleHeaderSize ==> n == -1
    ensures size >= SampleHeaderSize ==> 0 <= n && (n + 1) * 46 <= size < (n + 2) * 46
  {
    var u := ToU32(size / 46 - 1);
    if u < 0x8000_0000 then u else u - 0x1_0000_0000
  }

  /** The i-th 46-byte record of the sample header chunk. */
  function Record(shdr: Bytes, i: nat): (b: Bytes)
    requires (i + 1) * 46 <= |shdr|
    ensures |b| == SampleHeaderSize
  {
    shdr[i * 46..(i + 1) * 46]
  }

  /**
    A raw sample: the samples [start, end) of the sample data, with the loop
    points, rate, pitch, link and type of its header. An end before the
    start makes the array length wrap, and a slice past the data makes the
    copy fail; both abort the load.
  */
  function CutSample(h: SampleHeader, pcm: seq<i16>): Result<RawSample>
  {
    if h.end < h.start then Err(FormatError)
    else if h.end > |pcm| then Err(IndexError)
    else Ok(RawSample(pcm[h.start..h.end], h.sampleRate, h.loopStart, h.loopEnd,
                      h.originalPitch, h.pitchCorrection, h.link, h.sampleType))
  }

  /** The headers of the first n records. */
  function Headers(shdr: Bytes, n: nat): (hs: seq<SampleHeader>)
    requires n == 0 || (n + 1) * 46 <= |shdr|
    ensures |hs| == n
  {
    seq(n, i requires 0 <= i < n => ReadSampleHeader(Record(shdr, i)))
  }

  /**
    Where raw sample i comes from: it is read exactly when its end lies
    between its start and the end of the sample data; its samples are that
    slice, its link and type words are the record's, and its wave loops
    exactly when the record's loop end is not 0.
  */
  lemma RawSampleFields(shdr: Bytes, i: nat, pcm: seq<i16>)
    requires (i + 1) * 46 <= |shdr|
    ensures var b, r := Record(shdr, i), CutSample(ReadSampleHeader(Record(shdr, i)), pcm);
            var start, end := GetU32(b, 20), GetU32(b, 24);
            (r.Ok? <==> start <= end <= |pcm|)
            && (r.Ok? ==> r.value.data == pcm[start..end] && r.value.loopStart == GetU32(b, 28)
                          && (RawWave(r.value).loops <==> GetU32(b, 32) != 0)
                          && r.value.link == GetU16(b, 42) && r.value.sampleType == GetU16(b, 44))
  {
  }

  /** The first n raw samples, or the failure of the first header that cannot be cut. */
  function RawSamples(hs: seq<SampleHeader>, pcm: seq<i16>, n: nat): (r: Result<seq<RawSample>>)
    requires n <= |hs|
    ensures r.Ok? ==> |r.value| == n
  {
    if n == 0 then Ok([])
    else
      var prev :- RawSamples(hs, pcm, n - 1);
      var s :- CutSample(hs[n - 1], pcm);
      Ok(prev + [s])
  }

  /**
    The first n raw samples are read exactly when each of their headers
    cuts cleanly, and then sample i is the one header i gives.
  */
  lemma {:induction false} RawSamplesPointwise(hs: seq<SampleHeader>, pcm: seq<i16>, n: nat)
    requires n <= |hs|
    ensures RawSamples(hs, pcm, n).Ok? <==> forall i :: 0 <= i < n ==> CutSample(hs[i], pcm).Ok?
    ensures RawSamples(hs, pcm, n).Ok? ==>
      forall i :: 0 <= i < n ==> CutSample(hs[i], pcm) == Ok(RawSamples(hs, pcm, n).value[i])
  {
    if n > 0 {
      RawSamplesPointwise(hs, pcm, n - 1);
    }
  }

  /** Once a header fails to be cut, reading more records keeps that failure. */
  lemma {:induction false} RawSamplesErrorSticks(hs: seq<SampleHeader>, pcm: seq<i16>, i: nat, n: nat)
    requires i <= n <= |hs|
    requires RawSamples(hs, pcm, i).Err?
    ensures RawSamples(hs, pcm, n) == RawSamples(hs, pcm, i)
    decreases n
  {
    if i < n {
      RawSamplesErrorSticks(hs, pcm, i, n - 1);
    }
  }

  /** How many records the loader reads: a negative count reads none. */
  function RecordsRead(shdr: Bytes): (n: nat)
    requires |shdr| < 0x1_0000_0000
    ensures n == 0 || (n + 1) * 46 <= |shdr|
  {
    var c := RawSampleCount(|shdr|);
    if c < 0 then 0 else c
  }

  /** Reads record i and cuts its samples, after the first i raw samples were read. */
  method ReadRawSample(shdr: Bytes, pcm: seq<i16>, n: nat, i: nat, raw: seq<RawSample>) returns (r: Result<seq<RawSample>>)
    requires i < n && (n + 1) * 46 <= |shdr|
    requires RawSamples(Headers(shdr, n), pcm, i) == Ok(raw)
    ensures r == RawSamples(Headers(shdr, n), pcm, i + 1)
  {
    var h := ReadSampleHeader(Record(shdr, i));
    assert h == Headers(shdr, n)[i];
    var s := CutSample(h, pcm);
    if s.Err? {
      return Err(s.error);
    }
    return Ok(raw + [s.value]);
  }

  /** Reads the raw samples of the records before the terminal one. */
  method ReadRawSamples(shdr: Bytes, pcm: seq<i16>) returns (r: Result<seq<RawSample>>)
    requires |shdr| < 0x1_0000_0000
    ensures r == RawSamples(Headers(shdr, RecordsRead(shdr)), pcm, RecordsRead(shdr))
  {
    var n := RecordsRead(shdr);
    r := ReadRecords(shdr, pcm, n);
  }

  /** Reads the raw samples of the first n records, stopping at the first that cannot be cut. */
  method ReadRecords(shdr: Bytes, pcm: seq<i16>, n: nat) returns (r: Result<seq<RawSample>>)
    requires n == 0 || (n + 1) * 46 <= |shdr|
    ensures r == RawSamples(Headers(shdr, n), pcm, n)
  {
    var raw: seq<RawSample> := [];
    var i := 0;
    while i < n
      invariant i <= n
      invariant RawSamples(Headers(shdr, n), pcm, i) == Ok(raw)
    {
      var next := ReadRawSample(shdr, pcm, n, i, raw);
      if next.Err? {
        RawSamplesErrorSticks(Headers(shdr, n), pcm, i + 1, n);
        return next;
      }
      raw := next.value;
      i := i + 1;
    }
    return Ok(raw);
  }

  // The join.

  /**
    The channels of the wave that raw sample i opens, once samples
    i+1 .. j-1 were looked at: every later sample with the same link
    contributes its samples, at the front when the opener is a left sample
    and at the back otherwise.
  */
  function Gather(raw: seq<RawSample>, i: nat, j: nat): seq<seq<i16>>
    requires i < j <= |raw|
    decreases j
  {
    if j == i + 1 then [raw[i].data]
    else
      var prev := Gather(raw, i, j - 1);
      if raw[j - 1].link != raw[i].link then prev
      else if Kind(raw[i]) == Left then [raw[j - 1].data] + prev
      else prev + [raw[j - 1].data]
  }

  /** The wave map once raw sample i, opening wave w, claimed samples i+1 .. j-1 with its link. */
  function Claim(raw: seq<RawSample>, i: nat, j: nat, ids: map<int, int>, w: int): map<int, int>
    requires i < j <= |raw|
    decreases j
  {
    if j == i + 1 then ids
    else
      var prev := Claim(raw, i, j - 1, ids, w);
      if raw[j - 1].link == raw[i].link then prev[j - 1 := w] else prev
  }

  /** Claiming adds exactly the later samples with the opener's link, all mapped to the new wave. */
  lemma {:induction false} ClaimKeys(raw: seq<RawSample>, i: nat, j: nat, ids: map<int, int>, w: int)
    requires i < j <= |raw|
    ensures forall k :: k in Claim(raw, i, j, ids, w) <==> k in ids || (i < k < j && raw[k].link == raw[i].link)
    ensures forall k :: k in Claim(raw, i, j, ids, w) ==>
      Claim(raw, i, j, ids, w)[k] == if i < k < j && raw[k].link == raw[i].link then w else ids[k]
    decreases j
  {
    if j > i + 1 {
      ClaimKeys(raw, i, j - 1, ids, w);
    }
  }

  /** The waves and the raw-index-to-wave map built so far. */
  datatype Joined = Joined(waves: seq<RiffWave>, ids: map<int, int>)

  /**
    One pass of the join over raw sample i: a sample already claimed is
    skipped; an unclaimed linked sample opens a wave and claims every later
    sample with its link; an unclaimed mono sample becomes a wave of its own.
  */
  function JoinStep(raw: seq<RawSample>, st: Joined, i: nat): Joined
    requires i < |raw|
  {
    if i in st.ids then st
    else if Kind(raw[i]) != Mono then
      var w := |st.waves|;
      Joined(st.waves + [RawWave(raw[i]).(channels := Gather(raw, i, |raw|))], Claim(raw, i, |raw|, st.ids, w)[i := w])
    else
      Joined(st.waves + [RawWave(raw[i])], st.ids[i := |st.waves|])
  }

  /** The join after the first n raw samples. */
  function Join(raw: seq<RawSample>, n: nat): Joined
    requires n <= |raw|
  {
    if n == 0 then Joined([], map[]) else JoinStep(raw, Join(raw, n - 1), n - 1)
  }

  /** The links of the linked (not mono) samples among the first n. */
  function LinkedLinks(raw: seq<RawSample>, n: nat): set<u16>
    requires n <= |raw|
  {
    if n == 0 then {}
    else LinkedLinks(raw, n - 1) + (if Kind(raw[n - 1]) != Mono then {raw[n - 1].link} else {})
  }

  lemma {:induction false} LinkedLinkWitness(raw: seq<RawSample>, n: nat, l: u16) returns (o: nat)
    requires n <= |raw| && l in LinkedLinks(raw, n)
    ensures o < n && Kind(raw[o]) != Mono && raw[o].link == l
  {
    if l in LinkedLinks(raw, n - 1) {
      o := LinkedLinkWitness(raw, n - 1, l);
    } else {
      o := n - 1;
    }
  }

  /**
    The shape of the join after n samples: every key is a raw index, every
    value a wave; the first n indices are mapped; a later index is mapped
    exactly when some linked sample among the first n carries its link.
  */
  ghost predicate Shape(raw: seq<RawSample>, n: nat)
    requires n <= |raw|
  {
    var st := Join(raw, n);
    (forall k :: k in st.ids ==> 0 <= k < |raw| && 0 <= st.ids[k] < |st.waves|)
    && (forall k :: 0 <= k < n ==> k in st.ids)
    && (forall k :: n <= k < |raw| ==> (k in st.ids <==> raw[k].link in LinkedLinks(raw, n)))
  }

  lemma ShapeStep(raw: seq<RawSample>, i: nat)
    requires i < |raw| && Shape(raw, i)
    ensures Shape(raw, i + 1)
  {
    var st := Join(raw, i);
    if i in st.ids {
      assert raw[i].link in LinkedLinks(raw, i);
      assert LinkedLinks(raw, i + 1) == LinkedLinks(raw, i);
    } else if Kind(raw[i]) != Mono {
      ClaimKeys(raw, i, |raw|, st.ids, |st.waves|);
    }
  }

  lemma {:induction false} ShapeHolds(raw: seq<RawSample>, n: nat)
    requires n <= |raw|
    ensures Shape(raw, n)
  {
    if n > 0 {
      ShapeHolds(raw, n - 1);
      ShapeStep(raw, n - 1);
    }
  }

  /**
    When raw sample i opens a wave, none of the samples it claims has an
    entry yet, nor has i itself: every `Add` to the wave map is a new key.
  */
  lemma ClaimsAreFresh(raw: seq<RawSample>, i: nat)
    requires i < |raw| && i !in Join(raw, i).ids && Kind(raw[i]) != Mono
    ensures forall k :: i < k < |raw| && raw[k].link == raw[i].link ==> k !in Join(raw, i).ids
  {
    ShapeHolds(raw, i);
  }

  /** The finished join maps every raw index, and only those, to one of its waves. */
  lemma JoinMapsEverySample(raw: seq<RawSample>)
    ensures forall k :: k in Join(raw, |raw|).ids <==> 0 <= k < |raw|
    ensures forall k :: k in Join(raw, |raw|).ids ==> 0 <= Join(raw, |raw|).ids[k] < |Join(raw, |raw|).waves|
  {
    ShapeHolds(raw, |raw|);
  }

  /** A step keeps every entry it finds. */
  lemma StepExtends(raw: seq<RawSample>, i: nat)
    requires i < |raw|
    ensures forall k :: k in Join(raw, i).ids ==> k in Join(raw, i + 1).ids && Join(raw, i + 1).ids[k] == Join(raw, i).ids[k]
  {
    var st := Join(raw, i);
    if i !in st.ids && Kind(raw[i]) != Mono {
      ClaimsAreFresh(raw, i);
      ClaimKeys(raw, i, |raw|, st.ids, |st.waves|);
    }
  }

  /** After n samples, a linked sample among them and every later sample with its link share a wave. */
  ghost predicate LinkedTogether(raw: seq<RawSample>, n: nat)
    requires n <= |raw|
  {
    var ids := Join(raw, n).ids;
    forall o, k :: 0 <= o < n && o < k < |raw| && Kind(raw[o]) != Mono && raw[o].link == raw[k].link ==>
      o in ids && k in ids && ids[k] == ids[o]
  }

  lemma LinkedTogetherStep(raw: seq<RawSample>, i: nat)
    requires i < |raw| && LinkedTogether(raw, i)
    ensures LinkedTogether(raw, i + 1)
  {
    var st := Join(raw, i);
    var ids := Join(raw, i + 1).ids;
    ShapeHolds(raw, i);
    ShapeHolds(raw, i + 1);
    StepExtends(raw, i);
    if Kind(raw[i]) != Mono {
      if i in st.ids {
        var o := LinkedLinkWitness(raw, i, raw[i].link);
        forall k | i < k < |raw| && raw[k].link == raw[i].link
          ensures k in ids && ids[k] == ids[i]
        {
        }
      } else {
        ClaimKeys(raw, i, |raw|, st.ids, |st.waves|);
      }
    }
  }

  lemma {:induction false} LinkedTogetherHolds(raw: seq<RawSample>, n: nat)
    requires n <= |raw|
    ensures LinkedTogether(raw, n)
  {
    if n > 0 {
      LinkedTogetherHolds(raw, n - 1);
      LinkedTogetherStep(raw, n - 1);
    }
  }

  /** A linked sample and every later sample with the same link end up in the same wave. */
  lemma SameLinkSameWave(raw: seq<RawSample>, o: nat, k: nat)
    requires o < k < |raw| && Kind(raw[o]) != Mono && raw[o].link == raw[k].link
    ensures o in Join(raw, |raw|).ids && k in Join(raw, |raw|).ids
    ensures Join(raw, |raw|).ids[k] == Join(raw, |raw|).ids[o]
  {
    LinkedTogetherHolds(raw, |raw|);
  }

  /** After n samples, two samples sharing a wave share a link. */
  ghost predicate WavesKeepLinks(raw: seq<RawSample>, n: nat)
    requires n <= |raw|
  {
    var ids := Join(raw, n).ids;
    forall a, b :: a in ids && b in ids && ids[a] == ids[b] && 0 <= a < |raw| && 0 <= b < |raw| ==>
      raw[a].link == raw[b].link
  }

  lemma WavesKeepLinksStep(raw: seq<RawSample>, i: nat)
    requires i < |raw| && WavesKeepLinks(raw, i)
    ensures WavesKeepLinks(raw, i + 1)
  {
    var st := Join(raw, i);
    ShapeHolds(raw, i);
    StepExtends(raw, i);
    if i !in st.ids && Kind(raw[i]) != Mono {
      ClaimKeys(raw, i, |raw|, st.ids, |st.waves|);
    }
  }

  lemma {:induction false} WavesKeepLinksHolds(raw: seq<RawSample>, n: nat)
    requires n <= |raw|
    ensures WavesKeepLinks(raw, n)
  {
    if n > 0 {
      WavesKeepLinksHolds(raw, n - 1);
      WavesKeepLinksStep(raw, n - 1);
    }
  }

  /** Two samples that end up in the same wave carry the same link. */
  lemma SameWaveSameLink(raw: seq<RawSample>, a: nat, b: nat)
    requires a < |raw| && b < |raw|
    requires a in Join(raw, |raw|).ids && b in Join(raw, |raw|).ids
    requires Join(raw, |raw|).ids[a] == Join(raw, |raw|).ids[b]
    ensures raw[a].link == raw[b].link
  {
    WavesKeepLinksHolds(raw, |raw|);
  }

  /** The indices of the samples that opened a wave, among the first n, in order. */
  function Openers(raw: seq<RawSample>, n: nat): (os: seq<nat>)
    requires n <= |raw|
    ensures forall w :: 0 <= w < |os| ==> os[w] < n
  {
    if n == 0 then []
    else Openers(raw, n - 1) + (if n - 1 in Join(raw, n - 1).ids then [] else [n - 1])
  }

  /** The wave that raw sample o opens. */
  function OpenedWave(raw: seq<RawSample>, o: nat): RiffWave
    requires o < |raw|
  {
    if Kind(raw[o]) != Mono then RawWave(raw[o]).(channels := Gather(raw, o, |raw|)) else RawWave(raw[o])
  }

  /**
    After n samples, wave w was opened by the w-th opener, which maps to it,
    openers come in increasing order, and no sample maps to a wave whose
    opener comes after it.
  */
  ghost predicate OpenedInOrder(raw: seq<RawSample>, n: nat)
    requires n <= |raw|
  {
    var st, os := Join(raw, n), Openers(raw, n);
    |os| == |st.waves|
    && (forall w :: 0 <= w < |os| ==> os[w] < n && os[w] in st.ids && st.ids[os[w]] == w && st.waves[w] == OpenedWave(raw, os[w]))
    && (forall a, b :: 0 <= a < b < |os| ==> os[a] < os[b])
    && (forall k :: k in st.ids && 0 <= st.ids[k] < |os| ==> os[st.ids[k]] <= k)
  }

  lemma OpenedInOrderStep(raw: seq<RawSample>, i: nat)
    requires i < |raw| && OpenedInOrder(raw, i)
    ensures OpenedInOrder(raw, i + 1)
  {
    var st := Join(raw, i);
    if i !in st.ids {
      ShapeHolds(raw, i);
      StepExtends(raw, i);
      if Kind(raw[i]) != Mono {
        OpenedInOrderLinked(raw, i);
      } else {
        OpenedInOrderMono(raw, i);
      }
    }
  }

  lemma OpenedInOrderLinked(raw: seq<RawSample>, i: nat)
    requires i < |raw| && OpenedInOrder(raw, i) && Shape(raw, i)
    requires i !in Join(raw, i).ids && Kind(raw[i]) != Mono
    requires forall k :: k in Join(raw, i).ids ==> k in Join(raw, i + 1).ids && Join(raw, i + 1).ids[k] == Join(raw, i).ids[k]
    ensures OpenedInOrder(raw, i + 1)
  {
    var st := Join(raw, i);
    ClaimKeys(raw, i, |raw|, st.ids, |st.waves|);
    assert Openers(raw, i + 1) == Openers(raw, i) + [i];
  }

  lemma OpenedInOrderMono(raw: seq<RawSample>, i: nat)
    requires i < |raw| && OpenedInOrder(raw, i) && Shape(raw, i)
    requires i !in Join(raw, i).ids && Kind(raw[i]) == Mono
    ensures OpenedInOrder(raw, i + 1)
  {
    assert Openers(raw, i + 1) == Openers(raw, i) + [i];
  }

  lemma {:induction false} OpenedInOrderHolds(raw: seq<RawSample>, n: nat)
    requires n <= |raw|
    ensures OpenedInOrder(raw, n)
  {
    if n > 0 {
      OpenedInOrderHolds(raw, n - 1);
      OpenedInOrderStep(raw, n - 1);
    }
  }

  /**
    Waves are numbered in order of first appearance: wave w is first reached
    at its opener, which maps to it, openers increase with w, and every
    sample of wave w comes at or after its opener. A mono opener's wave is
    its raw wave unchanged.
  */
  lemma FirstAppearanceOrder(raw: seq<RawSample>)
    ensures forall k :: 0 <= k < |raw| ==> k in Join(raw, |raw|).ids && 0 <= Join(raw, |raw|).ids[k] < |Join(raw, |raw|).waves|
    ensures |Openers(raw, |raw|)| == |Join(raw, |raw|).waves|
    ensures forall w :: 0 <= w < |Openers(raw, |raw|)| ==>
      Openers(raw, |raw|)[w] in Join(raw, |raw|).ids && Join(raw, |raw|).ids[Openers(raw, |raw|)[w]] == w
    ensures forall a, b :: 0 <= a < b < |Openers(raw, |raw|)| ==> Openers(raw, |raw|)[a] < Openers(raw, |raw|)[b]
    ensures forall k :: 0 <= k < |raw| ==> Openers(raw, |raw|)[Join(raw, |raw|).ids[k]] <= k
    ensures forall w :: 0 <= w < |Openers(raw, |raw|)| ==> Join(raw, |raw|).waves[w] == OpenedWave(raw, Openers(raw, |raw|)[w])
  {
    OpenedInOrderHolds(raw, |raw|);
    ShapeHolds(raw, |raw|);
  }

  /** A mono sample that nothing claimed becomes a wave of its own, unchanged. */
  lemma MonoKept(raw: seq<RawSample>, w: nat)
    requires w < |Openers(raw, |raw|)|
    requires Kind(raw[Openers(raw, |raw|)[w]]) == Mono
    ensures |Join(raw, |raw|).waves| == |Openers(raw, |raw|)|
    ensures Join(raw, |raw|).waves[w] == RawWave(raw[Openers(raw, |raw|)[w]])
  {
    OpenedInOrderHolds(raw, |raw|);
  }

  /**
    A pair: when raw sample i has exactly one later partner k with its
    link, the joined wave holds two channels; a left opener puts the
    partner first, any other opener puts itself first.
  */
  lemma {:induction false} GatherPair(raw: seq<RawSample>, i: nat, k: nat, j: nat)
    requires i < k < |raw| && i < j <= |raw| && raw[k].link == raw[i].link
    requires forall m :: i < m < |raw| && m != k ==> raw[m].link != raw[i].link
    ensures j <= k ==> Gather(raw, i, j) == [raw[i].data]
    ensures j > k ==> Gather(raw, i, j) ==
                        (if Kind(raw[i]) == Left then [raw[k].data, raw[i].data] else [raw[i].data, raw[k].data])
    decreases j
  {
    if j > i + 1 {
      GatherPair(raw, i, k, j - 1);
    }
  }

  /** The old sound font: its joined waves and the raw-index-to-wave map. */
  class SoundFontOld {
    var waves: seq<RiffWave>
    var trueWaveIds: map<int, int>

    /** The blank constructor. */
    constructor()
      ensures waves == [] && trueWaveIds == map[]
    {
      waves := [];
      trueWaveIds := map[];
    }

    /**
      Reads the sample headers and joins the linked samples. A sample that
      cannot be cut aborts the load before the waves are touched.
    */
    method Load(shdr: Bytes, pcm: seq<i16>) returns (r: Result<seq<RawSample>>)
      requires |shdr| < 0x1_0000_0000
      modifies this
      ensures r == RawSamples(Headers(shdr, RecordsRead(shdr)), pcm, RecordsRead(shdr))
      ensures r.Err? ==> waves == old(waves) && trueWaveIds == old(trueWaveIds)
      ensures r.Ok? ==> waves == Join(r.value, |r.value|).waves && trueWaveIds == Join(r.value, |r.value|).ids
    {
      r := ReadRawSamples(shdr, pcm);
      if r.Ok? {
        JoinLinkedSamples(r.value);
      }
    }

    /** Rebuilds the waves and the map from the raw samples, one sample at a time. */
    method JoinLinkedSamples(raw: seq<RawSample>)
      modifies this
      ensures waves == Join(raw, |raw|).waves && trueWaveIds == Join(raw, |raw|).ids
    {
      waves := [];
      trueWaveIds := map[];
      var i := 0;
      while i < |raw|
        invariant i <= |raw|
        invariant waves == Join(raw, i).waves && trueWaveIds == Join(raw, i).ids
      {
        AddSample(raw, i);
        i := i + 1;
      }
    }

    /** The pass over raw sample i. */
    method AddSample(raw: seq<RawSample>, i: nat)
      requires i < |raw| && waves == Join(raw, i).waves && trueWaveIds == Join(raw, i).ids
      modifies this
      ensures waves == Join(raw, i + 1).waves && trueWaveIds == Join(raw, i + 1).ids
    {
      var kind := Kind(raw[i]);
      if kind != Mono && i !in trueWaveIds {
        ClaimsAreFresh(raw, i);
        var ids0, w := trueWaveIds, |waves|;
        var channels := [raw[i].data];
        var j := i + 1;
        while j < |raw|
          invariant i < j <= |raw|
          invariant waves == Join(raw, i).waves
          invariant channels == Gather(raw, i, j) && trueWaveIds == Claim(raw, i, j, ids0, w)
        {
          if raw[i].link == raw[j].link {
            ClaimKeys(raw, i, j, ids0, w);
            assert j !in trueWaveIds;
            trueWaveIds := trueWaveIds[j := w];
            if kind == Left {
              channels := [raw[j].data] + channels;
            } else {
              channels := channels + [raw[j].data];
            }
          }
          j := j + 1;
        }
        ClaimKeys(raw, i, |raw|, ids0, w);
        waves := waves + [RawWave(raw[i]).(channels := channels)];
        assert i !in trueWaveIds;
        trueWaveIds := trueWaveIds[i := |waves| - 1];
      } else if i !in trueWaveIds {
        waves := waves + [RawWave(raw[i])];
        trueWaveIds := trueWaveIds[i := |waves| - 1];
      }
    }
  }
}
