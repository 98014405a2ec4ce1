/** Sample link types (the sfSampleType values of SoundFont 2.04 section 7.10). */
module SF2LinkTypes {
  import opened Ints

  const Mono: u16 := 1
  const Right: u16 := 2
  const Left: u16 := 4
  const Linked: u16 := 8

  /** The bit the sample header's type word uses to flag a ROM sample. */
  const RomBit: u16 := 0x8000

  function LinkTypes(): seq<u16>
  {
    [Mono, Right, Left, Linked]
  }

  /**
    Each link type is a distinct single bit below 16: the type word's
    four-bit mask keeps it, and it never overlaps the ROM bit.
  */
  lemma LinkTypesAreLowBits()
    ensures forall i :: 0 <= i < |LinkTypes()| ==>
      LinkTypes()[i] < 16 && LinkTypes()[i] % 16 == LinkTypes()[i] && LinkTypes()[i] + RomBit < 0x1_0000
    ensures forall i, j :: 0 <= i < j < |LinkTypes()| ==> LinkTypes()[i] < LinkTypes()[j]
  {
  }
}
