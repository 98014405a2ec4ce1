/**
  Generator kind codes of SoundFont 2.04 section 8.1.2. Kinds are stored as
  raw 16-bit codes, so a code outside this list is carried unchanged.
*/
module SF2Generators {
  import opened Ints

  const StartAddrsOffset: u16 := 0
  const EndAddrsOffset: u16 := 1
  const StartloopAddrsOffset: u16 := 2
  const EndloopAddrsOffset: u16 := 3
  const StartAddrsCoarseOffset: u16 := 4
  const ModLfoToPitch: u16 := 5
  const VibLfoToPitch: u16 := 6
  const ModEnvToPitch: u16 := 7
  const InitialFilterFc: u16 := 8
  const InitialFilterQ: u16 := 9
  const ModLfoToFilterFc: u16 := 10
  const ModEnvToFilterFc: u16 := 11
  const EndAddrsCoarseOffset: u16 := 12
  const ModLfoToVolume: u16 := 13
  const ChorusEffectsSend: u16 := 15
  const ReverbEffectsSend: u16 := 16
  const Pan: u16 := 17
  const DelayModLFO: u16 := 21
  const FreqModLFO: u16 := 22
  const DelayVibLFO: u16 := 23
  const FreqVibLFO: u16 := 24
  const DelayModEnv: u16 := 25
  const AttackModEnv: u16 := 26
  const HoldModEnv: u16 := 27
  const DecayModEnv: u16 := 28
  const SustainModEnv: u16 := 29
  const ReleaseModEnv: u16 := 30
  const KeynumToModEnvHold: u16 := 31
  const KeynumToModEnvDecay: u16 := 32
  const DelayVolEnv: u16 := 33
  const AttackVolEnv: u16 := 34
  const HoldVolEnv: u16 := 35
  const DecayVolEnv: u16 := 36
  const SustainVolEnv: u16 := 37
  const ReleaseVolEnv: u16 := 38
  const KeynumToVolEnvHold: u16 := 39
  const KeynumToVolEnvDecay: u16 := 40
  /** Terminal kind of a preset zone: the instrument it plays. */
  const Instrument: u16 := 41
  const KeyRange: u16 := 43
  const VelRange: u16 := 44
  const StartloopAddrsCoarseOffset: u16 := 45
  const Keynum: u16 := 46
  const Velocity: u16 := 47
  const InitialAttenuation: u16 := 48
  const EndloopAddrsCoarseOffset: u16 := 50
  const CoarseTune: u16 := 51
  const FineTune: u16 := 52
  /** Terminal kind of an instrument zone: the sample it plays. */
  const SampleID: u16 := 53
  const SampleModes: u16 := 54
  const ScaleTuning: u16 := 56
  const ExclusiveClass: u16 := 57
  const OverridingRootKey: u16 := 58
  const EndOper: u16 := 60

  /** The converter's "no generator" marker, a code the enumeration does not use. */
  const NoGenerator: int := 100

  /**
    The kinds the reader and the converter act on: the two terminal kinds,
    the two range kinds, the root key and sample modes, and the ten targets
    of the articulation mapping, in increasing code order.
  */
  function UsedKinds(): (ks: seq<u16>)
  {
    [ ChorusEffectsSend, Pan, DelayModLFO, FreqModLFO, DelayVolEnv, AttackVolEnv,
      HoldVolEnv, DecayVolEnv, SustainVolEnv, ReleaseVolEnv, Instrument, KeyRange,
      VelRange, Keynum, SampleID, SampleModes, OverridingRootKey ]
  }

  lemma {:induction false} IncreasingFromAdjacent(ks: seq<u16>, i: nat, j: nat)
    requires forall k :: 0 <= k < |ks| - 1 ==> ks[k] < ks[k + 1]
    requires i < j < |ks|
    ensures ks[i] < ks[j]
    decreases j - i
  {
    if i + 1 < j {
      IncreasingFromAdjacent(ks, i + 1, j);
    }
  }

  /** No two of these kinds share a code, and the "no generator" marker is none of them. */
  lemma UsedKindsDistinct()
    ensures forall i, j :: 0 <= i < j < |UsedKinds()| ==> UsedKinds()[i] < UsedKinds()[j]
    ensures NoGenerator !in UsedKinds()
  {
    var ks := UsedKinds();
    assert forall k :: 0 <= k < |ks| - 1 ==> ks[k] < ks[k + 1];
    forall i, j | 0 <= i < j < |ks| ensures ks[i] < ks[j] {
      IncreasingFromAdjacent(ks, i, j);
    }
  }
}
