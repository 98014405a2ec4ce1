# SF2 and DLS sound banks in Dafny

This project models the core of a C# sound-bank library. The core has four
parts:

- **The SF2 hydra codec.** This is `SoundFont.Read` and `SoundFont.Write`
  without the RIFF container and the INFO strings. It covers the nine
  `pdta` sub-chunks as runs of fixed-size records:
  - `phdr`, `pbag`, `pmod`, `pgen`;
  - `inst`, `ibag`, `imod`, `igen`;
  - `shdr`.

  It also covers the sample-data chunk `smpl`, as 16-bit samples.
- **The DLS region codec.** This is `DownloadableSounds.Read` and
  `DownloadableSounds.Write`, as a tree of chunk payloads:
  - `colh` and `insh`;
  - `rgnh`, `wsmp`, `wlnk`, `art2`;
  - `INAM` and `ptbl`.

  It also covers the `AssignLoops` pass.
- **The DLS → SF2 converter.** This is the `SoundFont(DownloadableSounds)`
  constructor and `CreateSampleTable`.
- **The older loader's linked-sample join** (`SoundFontOLD`). It cuts one
  single-channel wave per sample header out of the sample data. It then
  joins the samples that share a link number into one multi-channel wave.

## How the model is built

Values and objects:

- Presets, instruments, zones, generators, modulators, sample items,
  regions, articulators and waves are datatypes.
- `SoundFont`, `DownloadableSounds` and `SoundFontOld` are classes. Their
  list fields are `seq` fields that the methods reassign.

Functions, methods and lemmas:

- Every loop of the source is a method with a `while` or `for` loop. Its
  `ensures` ties the result to a specification function:
  - the reader's record loops;
  - the zone and bag loops;
  - the writer's counters;
  - `CreateSampleTable`;
  - the articulator switch;
  - the join.
- Lemmas state what those functions mean:
  - round trips (`ReadFile(WriteFile(c))`, `ReadDLS(WriteDLS(…))` and every
    record codec);
  - the global-zone rule;
  - the sample-table layout;
  - the invariants of the join.

Integers:

- The integers of the source (`byte`, `sbyte`, `ushort`, `short`, `uint`,
  `int`) are subset types.
- Every unchecked cast is written out, as are the 16-bit bag counters and the
  32-bit `Size / k - 1` record counts.
- Integer division rounds toward zero, as in C#.

Errors:

- A read that the source would abort with an exception yields an `Err`
  value. This covers a list index out of range, a negative array length and
  a count that wrapped around.

Facts the proofs show about the source as written:

- `SoundFont(DownloadableSounds)` sets every sample's pitch correction to
  `(sbyte)(r.Tuning / 65536)`. Since `Tuning` is a `short`, that is always 0
  (`SF2Converter.PitchCorrection`).
- Conversion leaves the sample table as `CreateSampleTable` built it
  (`SF2Converter.PitchCorrectionsNoOp`).
- `SoundFontOLD` joins a pair whose first sample is a left sample
  (type 4) as [partner, left]. The partner is inserted at the front
  (`SF2/SoundFontOLD.cs:112-116`). The model follows the code.
- The `SoundFontOLD` join claims every later sample that carries an earlier non-mono sample's link, whatever its type. So a later mono sample with that link (mono samples usually carry link 0, as does a right sample whose partner is sample 0) becomes a channel of that earlier wave and does not become a wave of its own (`SF2SoundFontOld.SameLinkSameWave`, `SF2/SoundFontOLD.cs:107-117`).
- The SF2 reader gives a header the zones from its bag index to the next
  header's bag index. While the header has no positional zone yet, every zone
  without the terminal generator replaces the global zone. Only the last of
  several such leading zones is kept (`SF2ZoneGroups.ClassifySplit`).

## Model

| member | source | states |
|---|---|---|
| Ints.ToU8 | SF2/SoundFontOLD.cs:99 | the unchecked `(byte)` cast: identity on 0..255, adds 256 to a negative `sbyte` value |
| Ints.ToU16 | SF2/SoundFont.cs:585 | the unchecked `(ushort)` cast: identity on 0..65535, adds 2^16 to a negative `short` value |
| Ints.ToU32 | SF2/SoundFontOLD.cs:62 | the unchecked `uint` arithmetic: identity in range, wraps a negative value or one just past 2^32 by 2^32 |
| Ints.ToI16 | SF2/SoundFont.cs:146 | the unchecked `(short)` cast: identity in range, subtracts 2^16 from a value in 2^15..2^16-1 |
| Ints.ToI8 | SF2/SampleItem.cs:73 | the unchecked `(sbyte)` reinterpretation of a byte: identity below 128, minus 256 above |
| Ints.FixedToInt | SF2/SoundFont.cs:146 | `Scale / 65536` on `int`, rounding toward zero: the quotient brackets the dividend from below for non-negative values and from above for negative ones |
| Bytes.FixedString | SF2/Preset.cs:97 | the 20-byte name field has exactly the requested width, one byte per character, zero bytes after the name |
| Bytes.ReadFixedString | SF2/Preset.cs:83 | the characters read are the non-zero bytes before the first zero byte, and a zero byte ends the name |
| Bytes.FixedStringRoundTrip | SF2/Preset.cs:82-104 | a name of at most the width, without NUL, whose characters are single bytes, reads back unchanged |
| Bytes.LeU16 | SF2/Generator.cs:39-42 | an unsigned 16-bit field is written as 2 bytes |
| Bytes.LeU32 | SF2/SampleItem.cs:91-93 | an unsigned 32-bit field is written as 4 bytes |
| Bytes.LeI16 | SF2/Generator.cs:41 | a signed 16-bit field is written as 2 bytes |
| Bytes.LeI32 | DLS/DownloadableSounds.cs:273 | a signed 32-bit field is written as 4 bytes |
| Bytes.U16RoundTrip | SF2/Generator.cs:29-42 | an unsigned 16-bit field reads back unchanged, whatever bytes follow it |
| Bytes.U32RoundTrip | SF2/SampleItem.cs:57-58 | an unsigned 32-bit field reads back unchanged, whatever bytes follow it |
| Bytes.I16RoundTrip | SF2/Generator.cs:32 | a signed 16-bit field reads back unchanged, whatever bytes follow it |
| Bytes.I32RoundTrip | DLS/DownloadableSounds.cs:166 | a signed 32-bit field reads back unchanged, whatever bytes follow it |
| Records.ReadChunk | SF2/SoundFont.cs:297-301 | a chunk of `Size` bytes yields `Size / k - 1` records, and is an error when `Size < k` (the `uint` count wraps around and the read runs past the chunk) |
| Records.ChunkRoundTrip | SF2/SoundFont.cs:580-590 | records written one after another and followed by a terminal record read back as the same records, the terminal one excluded |
| Records.FlattenLength | SF2/SoundFont.cs:580-590 | records of k bytes each take exactly n·k bytes |
| Records.UnflattenFlatten | SF2/SoundFont.cs:297-301 | decoding the concatenated encodings record by record gives back each record |
| DLSArticulator.MappedDestinations | SF2/SoundFont.cs:143-187 | the converter's switch handles exactly eleven destinations |
| DLSArticulator.MappedDestinationsDistinct | SF2/SoundFont.cs:143-187 | the eleven case labels are pairwise different |
| DLSRegion.NewRegionDefaults | DLS/Region.cs:17-122 | a new region spans the full key and velocity range, is outside any key group, has root note 60, double playback and no truncation, leaves compression allowed, neither loops nor loops through release, and has no articulators |
| DLSChunks.PackFlags | DLS/DownloadableSounds.cs:242-245 | the flag word has only bits 0 and 1 |
| DLSChunks.PackFlagsRoundTrip | DLS/DownloadableSounds.cs:121-123 | the reader's `& 0b1` and `& 0b10` tests recover both written booleans |
| DLSChunks.UnpackFlagsRoundTrip | DLS/DownloadableSounds.cs:242-245 | every two-bit flag word is the packing of its two bits |
| DLSChunks.WriteRgnh | DLS/DownloadableSounds.cs:228-236 | the region header is 14 bytes |
| DLSChunks.ReadRgnh | DLS/DownloadableSounds.cs:106-113 | reading the header leaves the articulators, wave id and loop flag untouched |
| DLSChunks.RgnhRoundTrip | DLS/DownloadableSounds.cs:106-113 | the written key range, velocity range, double-playback flag, key group and layer read back unchanged |
| DLSChunks.WriteWsmp | DLS/DownloadableSounds.cs:237-253 | the sample chunk is 20 bytes, plus a 16-byte loop record exactly when the region loops |
| DLSChunks.ReadWsmp | DLS/DownloadableSounds.cs:116-130 | succeeds iff the chunk holds the 20-byte head and, when the loop count is non-zero, the loop record; the loop flag is `count > 0`; a non-looping read keeps the old loop fields |
| DLSChunks.WsmpHead | DLS/DownloadableSounds.cs:238-246 | root note at byte 4, tuning at 6, gain at 8, flag word at 12, loop count (1 or 0) at 16 |
| DLSChunks.WsmpLoop | DLS/DownloadableSounds.cs:247-252 | a looping region's chunk is 36 bytes with loop type at 24, loop start at 28 and loop length at 32 |
| DLSChunks.WsmpRoundTrip | DLS/DownloadableSounds.cs:116-130 | every field the writer puts in `wsmp` reads back unchanged; the loop fields of a non-looping region keep the reader's values |
| DLSChunks.WriteWlnk | DLS/DownloadableSounds.cs:254-262 | the wave link is 12 bytes |
| DLSChunks.ReadWlnk | DLS/DownloadableSounds.cs:133-139 | reading the link leaves the loop flag and articulators untouched |
| DLSChunks.WlnkRoundTrip | DLS/DownloadableSounds.cs:133-139 | phase master, multichannel, phase group, channel flags and wave id read back unchanged |
| DLSChunks.WriteConnection | DLS/DownloadableSounds.cs:269-273 | a connection is 12 bytes |
| DLSChunks.ConnectionRoundTrip | DLS/DownloadableSounds.cs:161-166 | source, control, destination, transform and scale read back unchanged |
| DLSChunks.ReadArt2 | DLS/DownloadableSounds.cs:157-168 | succeeds iff the chunk holds its 8-byte head and as many 12-byte connections as the count says, and then yields exactly that many |
| DLSChunks.Art2RoundTrip | DLS/DownloadableSounds.cs:264-276 | an articulator with fewer than 2^32 connections reads back unchanged |
| DLSChunks.WriteInsh | DLS/DownloadableSounds.cs:220-224 | the instrument header is 12 bytes |
| DLSChunks.ReadInsh | DLS/DownloadableSounds.cs:94-97 | reading the header leaves name and regions untouched |
| DLSChunks.InshRoundTrip | DLS/DownloadableSounds.cs:94-97 | bank and program read back unchanged (the region count is skipped) |
| DLSChunks.NameBytes | DLS/DownloadableSounds.cs:284-290 | the INAM payload is the name, a NUL, and zero bytes up to a multiple of 4 (1 to 4 bytes longer than the name) |
| DLSChunks.WriteName | DLS/DownloadableSounds.cs:284-290 | the writer's padding loop produces exactly the padded INAM payload |
| DLSChunks.ReadName | DLS/DownloadableSounds.cs:183-186 | every NUL byte is dropped, so the name is never longer than the payload |
| DLSChunks.NameRoundTrip | DLS/DownloadableSounds.cs:179-188 | a name without NUL whose characters are single bytes reads back unchanged from its padded chunk |
| DLSWaveLoops.LoopEnd | DLS/DownloadableSounds.cs:145 | loop length 0 means the wave's sample count; otherwise start + length, wrapping at 2^32 |
| DLSWaveLoops.Looped | DLS/DownloadableSounds.cs:143-146 | a looping region keeps the wave's audio and rate, sets the loop flag, its loop start and the loop end |
| DLSWaveLoops.LoopedTwice | DLS/DownloadableSounds.cs:341-345 | a later looping region fully overrides an earlier one on the same wave |
| DLSWaveLoops.ReadLoop | DLS/DownloadableSounds.cs:142-146 | the reader copies the loop flag onto the wave always, and the loop points only when the region loops |
| DLSWaveLoops.AssignLoopsOver | DLS/DownloadableSounds.cs:336-349 | applying the looping regions in order never changes any wave's audio |
| DLSWaveLoops.ReadLoopsOver | DLS/DownloadableSounds.cs:141-146 | applying every region's loop settings in order never changes any wave's audio |
| DLSWaveLoops.LastLooping | DLS/DownloadableSounds.cs:341-345 | the index of the last looping region on a wave, or -1 when none loops |
| DLSWaveLoops.AssignLoopsLastWins | DLS/DownloadableSounds.cs:336-349 | after `AssignLoops` each wave carries the loop of the last looping region that plays it, or is unchanged when none does |
| DLSWaveLoops.ReadLoopsAppend | DLS/DownloadableSounds.cs:141-146 | reading regions in two runs equals reading them in one |
| DLSFile.ReadArticulators | DLS/DownloadableSounds.cs:153-171 | the `lar2` list yields one articulator per `art2` chunk |
| DLSFile.DecodeRegion | DLS/DownloadableSounds.cs:103-139 | a region decoded from `rgnh`, `wsmp` and `wlnk` has no articulators yet |
| DLSFile.ReadRegion | DLS/DownloadableSounds.cs:100-176 | a region read successfully names a wave in the pool and leaves the pool as its loop settings make it |
| DLSFile.ReadRegions | DLS/DownloadableSounds.cs:100-176 | n regions read in order; the pool equals the original with each region's loops applied in file order |
| DLSFile.ReadInstrument | DLS/DownloadableSounds.cs:85-191 | one region per region chunk, the pool updated by them in order, and an empty name when there is no INAM |
| DLSFile.ReadInstruments | DLS/DownloadableSounds.cs:85-193 | one instrument per `ins ` list; the pool equals the original with every region's loops applied in file order |
| DLSFile.ReadDLS | DLS/DownloadableSounds.cs:56-197 | as many instruments as the file has; the wave pool updated by all regions in file order |
| DLSFile.WriteInstruments | DLS/DownloadableSounds.cs:218-296 | one `ins ` list per instrument, in order |
| DLSFile.PointerEntries | DLS/DownloadableSounds.cs:309-316 | one pointer-table entry per wave |
| DLSFile.Normalized | DLS/DownloadableSounds.cs:247-252 | a looping region is written in full; a non-looping one loses only its loop fields |
| DLSFile.NormalizedRegions | DLS/DownloadableSounds.cs:247-252 | each region as a written file keeps it: only a non-looping region's loop fields reset |
| DLSFile.NormalizedInstruments | DLS/DownloadableSounds.cs:218-280 | each instrument keeps its name, bank and program, with its regions reset as written |
| DLSFile.ArticulatorsRoundTrip | DLS/DownloadableSounds.cs:153-171 | chunks that each read back as an articulator read back, as a list, as those articulators |
| DLSFile.DecodeWrittenRegion | DLS/DownloadableSounds.cs:226-262 | the written `rgnh`, `wsmp` and `wlnk` decode to the region, loop fields reset when it does not loop |
| DLSFile.WrittenArticulators | DLS/DownloadableSounds.cs:263-277 | a region's written `lar2` list reads back as its articulators |
| DLSFile.RegionRoundTrip | DLS/DownloadableSounds.cs:226-279 | a written region reads back as itself (loop fields reset when it does not loop), and the pool gets its loop |
| DLSFile.WriteRegions | DLS/DownloadableSounds.cs:226-279 | one `rgn2` list per region, in order |
| DLSFile.RegionsRoundTrip | DLS/DownloadableSounds.cs:100-176 | the first n written regions read back as themselves, the pool updated by them in order |
| DLSFile.InstrumentRoundTrip | DLS/DownloadableSounds.cs:85-193 | a written instrument reads back with the same name, bank, program and regions |
| DLSFile.NormalizedAllRegions | DLS/DownloadableSounds.cs:218-280 | resetting loop fields per instrument and over the flat region list agree |
| DLSFile.InstrumentsRoundTrip | DLS/DownloadableSounds.cs:85-193 | the first n written instruments read back as themselves |
| DLSFile.DLSRoundTrip | DLS/DownloadableSounds.cs:56-197 | a written DLS file reads back as the same instruments, and the pool with every region's loop applied in order |
| DLSFile.PointerEntriesAscend | DLS/DownloadableSounds.cs:309-316 | the first wave is at offset 0 and each next offset is the previous plus that wave's size |
| DLSDownloadableSounds.ReadArticulatorList | DLS/DownloadableSounds.cs:153-171 | the loop over `art2` chunks computes the articulator list |
| DLSDownloadableSounds.ReadRegionChunk | DLS/DownloadableSounds.cs:100-176 | the loop body over one `rgn2` list computes the region and the updated pool |
| DLSDownloadableSounds.ReadRegionList | DLS/DownloadableSounds.cs:100-176 | the region loop computes all regions and the pool, stopping at the first error |
| DLSDownloadableSounds.ReadInstrumentChunk | DLS/DownloadableSounds.cs:85-191 | one pass of the instrument loop computes the instrument and the updated pool |
| DLSDownloadableSounds.ReadNextInstrument | DLS/DownloadableSounds.cs:85-193 | one more instrument extends the read so far, or keeps its error |
| DLSDownloadableSounds.ReadInstrumentList | DLS/DownloadableSounds.cs:85-193 | the instrument loop computes every instrument and the final pool |
| DLSDownloadableSounds.WriteRegionChunk | DLS/DownloadableSounds.cs:226-279 | the writer's region body emits the region's chunks |
| DLSDownloadableSounds.WriteRegionList | DLS/DownloadableSounds.cs:226-279 | the region loop emits one list per region |
| DLSDownloadableSounds.WriteInstrumentChunk | DLS/DownloadableSounds.cs:219-294 | the writer's instrument body emits `insh`, the regions and INAM when the name is not empty |
| DLSDownloadableSounds.WriteInstrumentList | DLS/DownloadableSounds.cs:218-296 | the instrument loop emits one list per instrument |
| DLSDownloadableSounds.WritePointerTable | DLS/DownloadableSounds.cs:299-316 | the back-patched pointer table is the running offsets of the waves |
| DLSDownloadableSounds.AssignRegionLoop | DLS/DownloadableSounds.cs:341-345 | one region of `AssignLoops` extends the loops applied so far by that region |
| DLSDownloadableSounds.AssignInstrumentLoops | DLS/DownloadableSounds.cs:337-348 | one instrument of `AssignLoops` applies its regions in order |
| DLSDownloadableSounds.AssignLoopsIn | DLS/DownloadableSounds.cs:336-349 | the nested loops apply every looping region of every instrument in order |
| DLSDownloadableSounds.DownloadableSounds.constructor | DLS/DownloadableSounds.cs:22-32 | a new bank has no instruments and no waves |
| DLSDownloadableSounds.DownloadableSounds.Read | DLS/DownloadableSounds.cs:56-197 | on success the instruments read are appended and the pool is replaced by the read waves with their loops; on error nothing changes |
| DLSDownloadableSounds.DownloadableSounds.Write | DLS/DownloadableSounds.cs:203-331 | the file written holds the instruments, the pointer table and the waves |
| DLSDownloadableSounds.DownloadableSounds.AssignLoops | DLS/DownloadableSounds.cs:336-349 | instruments unchanged; waves get the loops of the looping regions, in order |
| SF2GeneratorAmount.UAmount | SF2/SF2GeneratorAmount.cs:15-19 | the unsigned view is low byte + 256·high byte |
| SF2GeneratorAmount.Amount | SF2/SF2GeneratorAmount.cs:15-19 | the signed view is the unsigned one, minus 2^16 from 0x8000 up |
| SF2GeneratorAmount.FromUAmount | SF2/SF2GeneratorAmount.cs:19 | assigning the unsigned view and reading it back gives the assigned value |
| SF2GeneratorAmount.FromAmount | SF2/SF2GeneratorAmount.cs:18 | assigning the signed view reads back as that value, and the unsigned view as its 16-bit pattern |
| SF2GeneratorAmount.SignedMatchesUnsigned | SF2/SF2GeneratorAmount.cs:18-19 | the two views agree exactly below 0x8000 |
| SF2GeneratorAmount.SignedViewRoundTrip | SF2/SF2GeneratorAmount.cs:15-19 | writing the signed view back rebuilds the same two bytes |
| SF2Generators.UsedKindsDistinct | SF2/SF2Generators.cs:12-66 | the kind codes are strictly increasing, hence distinct, and none is the converter's "no generator" code 100 |
| SF2Generator.WriteGenerator | SF2/Generator.cs:39-42 | a generator record is 4 bytes |
| SF2Generator.ReadGenerator | SF2/Generator.cs:29-33 | the amount is the signed 16-bit value at byte 2 |
| SF2Generator.GeneratorRoundTrip | SF2/Generator.cs:29-42 | kind and amount read back unchanged |
| SF2Generator.DefaultGeneratorIsZeros | SF2/SoundFont.cs:623 | the terminal `new Generator()` record is four zero bytes |
| SF2Modulator.WriteModulator | SF2/Modulator.cs:56-62 | a modulator record is 10 bytes |
| SF2Modulator.ModulatorRoundTrip | SF2/Modulator.cs:44-62 | source, destination, amount, amount source and transform read back unchanged |
| SF2Modulator.DefaultModulatorIsZeros | SF2/SoundFont.cs:613 | the terminal `new Modulator()` record is ten zero bytes |
| SF2Zone.ZoneList | SF2/Preset.cs:53 | a header's zone list has its positional zones plus one when it has a global zone |
| SF2Preset.NumZones | SF2/Preset.cs:53 | the zone count is the length of `GetAllZones`, and is 0 exactly when there is neither a global nor a positional zone |
| SF2Preset.GetAllZones | SF2/Preset.cs:69-76 | the global zone, if any, comes first, then the positional zones in order |
| SF2Preset.NewPresetHasNoZones | SF2/Preset.cs:58-63 | a new preset has no zones |
| SF2Preset.WritePresetHeader | SF2/Preset.cs:96-104 | a preset header is 38 bytes |
| SF2Preset.ReadPresetHeader | SF2/Preset.cs:82-90 | name from bytes 0-19, preset number at 20, bank at 22, bag index at 24, library, genre, morphology at 26, 30, 34; no zones yet |
| SF2Preset.PresetHeaderRoundTrip | SF2/Preset.cs:82-104 | every header field reads back unchanged when the name fits 20 bytes |
| SF2Instrument.NumZones | SF2/Instrument.cs:28 | the zone count is the length of `GetAllZones`, and is 0 exactly when there are no zones |
| SF2Instrument.GetAllZones | SF2/Instrument.cs:44-51 | the global zone, if any, comes first, then the positional zones in order |
| SF2Instrument.NewInstrumentHasNoZones | SF2/Instrument.cs:33-38 | a new instrument has no zones |
| SF2Instrument.WriteInstrumentHeader | SF2/Instrument.cs:66-69 | an instrument header is 22 bytes |
| SF2Instrument.ReadInstrumentHeader | SF2/Instrument.cs:57-60 | name from bytes 0-19 and bag index at 20; no zones yet |
| SF2Instrument.InstrumentHeaderRoundTrip | SF2/Instrument.cs:57-69 | name and bag index read back unchanged when the name fits 20 bytes |
| SF2LinkTypes.LinkTypesAreLowBits | SF2/SF2LinkTypes.cs:12-17 | the four link types are distinct, fit the four low bits and leave room for the ROM bit |
| SF2SampleItem.WriteSampleHeader | SF2/SampleItem.cs:84-108 | a sample header is 46 bytes |
| SF2SampleItem.ReadSampleHeader | SF2/SampleItem.cs:55-78 | start at 20, end at 24, loop start at 28, loop end at 32, rate at 36, pitch at 40, correction at 41 (signed), link at 42, type at 44 |
| SF2SampleItem.SampleHeaderRoundTrip | SF2/SampleItem.cs:55-108 | every header field reads back unchanged when the name fits 20 bytes |
| SF2SampleItem.EndOfSamplesLayout | SF2/SoundFont.cs:680-681 | the terminal record is "EOS" followed by 43 zero bytes |
| SF2SampleItem.TypeWord | SF2/SampleItem.cs:104-106 | the type word keeps the link type's low 15 bits and has bit 15 set iff the sample is ROM or the link type already had it |
| SF2SampleItem.LinkTypeOf | SF2/SampleItem.cs:76 | the reader's link type is the low four bits |
| SF2SampleItem.TypeWordRoundTrip | SF2/SampleItem.cs:75-77 | a link type below 16 and the ROM flag read back from the type word unchanged |
| SF2SampleItem.LinkTypesSurviveTypeWord | SF2/SampleItem.cs:75-77 | each of the four link types survives the type word with either ROM flag |
| SF2SampleItem.ToHeader | SF2/SampleItem.cs:91-106 | end = start + sample count; loop points shifted by start when looping, else 0; type word from link type and ROM flag |
| SF2SampleItem.FromHeader | SF2/SampleItem.cs:55-78 | succeeds iff start ≤ end ≤ table size; the wave is table[start..end]; loop points shifted back when the loop end is non-zero; loops iff the loop end is positive |
| SF2SampleItem.LoopPointRoundTrip | SF2/SampleItem.cs:64-69 | adding start on write and subtracting it on read, both modulo 2^32, restores the loop point |
| SF2SampleItem.SampleRoundTrip | SF2/SampleItem.cs:55-108 | a mono sample whose loop settings the record can express reads back unchanged from its header and the table it was written into |
| SF2Bags.WriteBag | SF2/SoundFont.cs:597-598 | a bag record is 4 bytes |
| SF2Bags.ReadBag | SF2/SoundFont.cs:309 | the generator index at byte 0 and the modulator index at byte 2 |
| SF2Bags.BagRoundTrip | SF2/SoundFont.cs:306-311 | both bag indices read back unchanged |
| SF2Bags.Range | SF2/SoundFont.cs:343-345 | the copy loop yields list[lo..hi], is empty when hi ≤ lo, and fails exactly when it would index past the list |
| SF2Bags.BagZonesUpTo | SF2/SoundFont.cs:330-350 | the first n bags yield n zones |
| SF2Bags.BagZones | SF2/SoundFont.cs:330-350 | one zone per bag read |
| SF2Bags.BagZonesPointwise | SF2/SoundFont.cs:330-350 | the zones are read iff every bag's ranges are in bounds, and zone i is bag i's ranges |
| SF2Bags.CollectRange | SF2/SoundFont.cs:343-345 | the copy loop computes the range |
| SF2Bags.ReadBagZone | SF2/SoundFont.cs:331-349 | one pass of the bag loop computes that bag's zone |
| SF2Bags.ReadBagZones | SF2/SoundFont.cs:330-350 | the bag loop computes every zone, stopping at the first error |
| SF2Hydra.PresetsWithBagIndices | SF2/SoundFont.cs:583-588 | the writer keeps one preset per preset |
| SF2Hydra.Block | SF2/SoundFont.cs:570-571 | a sample's block in `smpl` is its samples followed by 46 zero samples |
| SF2Hydra.Blocks | SF2/SoundFont.cs:568-572 | one block per sample, in order |
| SF2Hydra.SampleHeaders | SF2/SoundFont.cs:675-679 | one header per sample |
| SF2Hydra.BagIndices | SF2/SoundFont.cs:356 | the bag index of each header, in order |
| SF2Hydra.ReadZoneSets | SF2/SoundFont.cs:330-371 | a zone set per header when the bags, generators and modulators read |
| SF2Hydra.AttachPresetZones | SF2/SoundFont.cs:365-367 | each preset header gets exactly its global and positional zones |
| SF2Hydra.AttachInstrumentZones | SF2/SoundFont.cs:442-445 | each instrument header gets exactly its global and positional zones |
| SF2Hydra.SamplesUpTo | SF2/SoundFont.cs:452-457 | the first n headers yield n samples |
| SF2ZoneGroups.FirstWith | SF2/SoundFont.cs:363-369 | the first zone carrying the terminal generator; none before it does |
| SF2ZoneGroups.ClassifySplit | SF2/SoundFont.cs:363-369 | the positional zones are those from the first zone with the terminal generator on; the global zone is the zone just before it, if any |
| SF2ZoneGroups.ClassifyZoneList | SF2/SoundFont.cs:363-369 | a header's zone list reads back as its global and positional zones iff the global zone lacks the terminal generator and the first positional zone has it |
| SF2ZoneGroups.GroupUpTo | SF2/SoundFont.cs:353-371 | the first n headers each get a zone set |
| SF2ZoneGroups.Group | SF2/SoundFont.cs:353-371 | one zone set per header |
| SF2ZoneGroups.GroupPointwise | SF2/SoundFont.cs:353-371 | grouping succeeds iff every header's zone range is in bounds, and header i's set classifies exactly its range |
| SF2ZoneGroups.GroupHeader | SF2/SoundFont.cs:355-369 | one pass of the header loop classifies that header's zones, or reports the range error |
| SF2ZoneGroups.GroupZones | SF2/SoundFont.cs:353-371 | the header loop computes every header's zone set |
| SF2ZoneLayout.Bags | SF2/SoundFont.cs:593-604 | one bag per zone plus the terminal bag |
| SF2ZoneLayout.WriteZoneBag | SF2/SoundFont.cs:596-601 | one pass of the bag loop writes the running 16-bit totals and adds that zone's counts |
| SF2ZoneLayout.WriteBags | SF2/SoundFont.cs:593-604 | the bag loop writes each zone's running totals, then the grand totals |
| SF2ZoneLayout.WriteGenerators | SF2/SoundFont.cs:617-622 | the nested loop writes all zones' generators in order |
| SF2ZoneLayout.WriteModulators | SF2/SoundFont.cs:607-612 | the nested loop writes all zones' modulators in order |
| SF2ZoneLayout.ReadWrittenBags | SF2/SoundFont.cs:330-350 | with fewer than 2^16 generators and modulators, the written bags read back as the same zones |
| SF2ZoneLayout.Starts | SF2/SoundFont.cs:583-588 | one bag index per header |
| SF2ZoneLayout.ReadWrittenGroups | SF2/SoundFont.cs:353-371 | with fewer than 2^16 zones, well-formed zone sets laid out by bag index group back as themselves |
| SF2RoundTrip.BagChunkRoundTrip | SF2/SoundFont.cs:593-604 | the written `pbag`/`ibag` chunk reads back as the zones' bags without the terminal one |
| SF2RoundTrip.GeneratorChunkRoundTrip | SF2/SoundFont.cs:617-624 | the written generator chunk reads back as the generators |
| SF2RoundTrip.ModulatorChunkRoundTrip | SF2/SoundFont.cs:607-614 | the written modulator chunk reads back as the modulators |
| SF2RoundTrip.ZoneSetsRoundTrip | SF2/SoundFont.cs:330-371 | the zone layer of well-formed zone sets within the 16-bit limits reads back as the same sets |
| SF2RoundTrip.PresetHeadersRoundTrip | SF2/SoundFont.cs:580-590 | the `phdr` chunk reads back as the written headers, bag indices included, without the EOP record |
| SF2RoundTrip.InstrumentHeadersRoundTrip | SF2/SoundFont.cs:627-637 | the `inst` chunk reads back as the written headers without the EOI record |
| SF2RoundTrip.PresetZonesRoundTrip | SF2/SoundFont.cs:353-371 | every preset gets back its own global and positional zones |
| SF2RoundTrip.PresetChunksRoundTrip | SF2/SoundFont.cs:296-371 | the preset chunks read back as the presets with their written bag indices |
| SF2RoundTrip.PresetsRoundTrip | SF2/SoundFont.cs:296-371 | a written file's presets read back as written |
| SF2RoundTrip.InstrumentZonesRoundTrip | SF2/SoundFont.cs:430-449 | every instrument gets back its own global and positional zones |
| SF2RoundTrip.InstrumentChunksRoundTrip | SF2/SoundFont.cs:373-449 | the instrument chunks read back as the instruments with their written bag indices |
| SF2RoundTrip.InstrumentsRoundTrip | SF2/SoundFont.cs:373-449 | a written file's instruments read back as written |
| SF2RoundTrip.SampleFromTable | SF2/SampleItem.cs:55-78 | each sample's header cut out of the written sample table gives back that sample |
| SF2RoundTrip.SampleHeadersRoundTrip | SF2/SoundFont.cs:674-682 | the `shdr` chunk reads back as the written headers without the EOS record |
| SF2RoundTrip.SamplesFromTable | SF2/SoundFont.cs:452-457 | reading all headers against the written table gives back all samples |
| SF2RoundTrip.SampleChunksRoundTrip | SF2/SoundFont.cs:451-457 | the sample chunks read back as the samples |
| SF2RoundTrip.SamplesRoundTrip | SF2/SoundFont.cs:563-572 | a written file's samples read back unchanged |
| SF2RoundTrip.FileRoundTrip | SF2/SoundFont.cs:287-461 | reading a written file gives back the presets and instruments with their written bag indices and the same samples |
| SF2RoundTrip.BagIndicesKeepZones | SF2/SoundFont.cs:583-588 | assigning bag indices changes no header's zones |
| SF2SoundFont.ReadZones | SF2/SoundFont.cs:330-371 | the bag and header loops compute the zone sets |
| SF2SoundFont.ReadSampleItems | SF2/SoundFont.cs:452-457 | the sample loop reads every header against the table |
| SF2SoundFont.ReadPresetList | SF2/SoundFont.cs:296-371 | the preset part of `Read` computes the presets |
| SF2SoundFont.ReadInstrumentList | SF2/SoundFont.cs:373-449 | the instrument part of `Read` computes the instruments |
| SF2SoundFont.ReadSampleList | SF2/SoundFont.cs:451-457 | the sample part of `Read` computes the samples |
| SF2SoundFont.AssignPresetBag | SF2/SoundFont.cs:584-587 | one pass sets the preset's bag index to the running 16-bit total and appends its zones |
| SF2SoundFont.AssignPresetBagIndices | SF2/SoundFont.cs:581-589 | the loop assigns every bag index, collects all zones, and ends with the 16-bit zone total for EOP |
| SF2SoundFont.AssignInstrumentBag | SF2/SoundFont.cs:631-634 | one pass sets the instrument's bag index to the running 16-bit total and appends its zones |
| SF2SoundFont.AssignInstrumentBagIndices | SF2/SoundFont.cs:628-636 | the loop assigns every bag index, collects all zones, and ends with the 16-bit zone total for EOI |
| SF2SoundFont.WriteSampleTable | SF2/SoundFont.cs:566-572 | the sample loop writes every block and records each sample's start |
| SF2SoundFont.WriteSampleBlock | SF2/SoundFont.cs:568-571 | one pass appends the sample's block and its header |
| SF2SoundFont.WriteZones | SF2/SoundFont.cs:593-624 | the bag, modulator and generator chunks of the zones |
| SF2SoundFont.WritePresetChunks | SF2/SoundFont.cs:579-624 | the preset chunks, with the presets' new bag indices |
| SF2SoundFont.WriteInstrumentChunks | SF2/SoundFont.cs:626-671 | the instrument chunks, with the instruments' new bag indices |
| SF2SoundFont.SoundFont.constructor | SF2/SoundFont.cs:86 | a new sound font has no presets, instruments or samples |
| SF2SoundFont.SoundFont.FromDls | SF2/SoundFont.cs:98-217 | the DLS waves get their loops and loop flags; samples are the sample table of those waves; instruments and presets are the conversion of the DLS instruments |
| SF2SoundFont.SoundFont.CreateSampleTable | SF2/SoundFont.cs:699-757 | waves marked looping when their loop end is non-zero; samples and new indices are the table of the fixed waves; presets and instruments untouched |
| SF2SoundFont.SoundFont.Read | SF2/SoundFont.cs:287-461 | on success the contents are what the file reads as; on error the error is reported, the lists are cleared first and each list read before the failing step is kept |
| SF2SoundFont.SoundFont.Write | SF2/SoundFont.cs:563-682 | the file is the writing of the old contents, and each header's bag index is overwritten as the writer does |
| SF2SampleTable.Decimal | SF2/SoundFont.cs:722 | the decimal digits of the wave index in the sample name |
| SF2SampleTable.DecimalRoundTrip | SF2/SoundFont.cs:722 | the digits name the index: reading them back gives the index |
| SF2SampleTable.FixLoop | SF2/SoundFont.cs:707-711 | a wave loops afterwards iff it looped before or its loop end is non-zero; nothing else changes |
| SF2SampleTable.FixLoops | SF2/SoundFont.cs:707-711 | every wave is fixed in place |
| SF2SampleTable.FixLoopFlags | SF2/SoundFont.cs:707-711 | the loop computes the fixed waves |
| SF2SampleTable.WaveSamples | SF2/SoundFont.cs:718-735 | one sample per channel, each holding one channel of the wave and its settings, pitch 60 and correction 0 |
| SF2SampleTable.NewIndices | SF2/SoundFont.cs:752-753 | one new index per wave |
| SF2SampleTable.LinkStep | SF2/SoundFont.cs:734 | the link counter goes up by one (16 bits) after a stereo wave only |
| SF2SampleTable.AddWave | SF2/SoundFont.cs:718-748 | the switch appends the wave's samples and advances the link counter after a stereo wave |
| SF2SampleTable.TableWave | SF2/SoundFont.cs:715-755 | one pass of the loop extends samples, new indices, channel count and link counter |
| SF2SampleTable.BuildSampleTable | SF2/SoundFont.cs:714-755 | the loop computes the sample table and the new indices |
| SF2SampleTable.CreateSampleTable | SF2/SoundFont.cs:699-757 | the loop flags are fixed first, then the table and new indices are built from the fixed waves |
| SF2SampleTable.OffsetIsChannelsBefore | SF2/SoundFont.cs:752-753 | a wave's new index is the number of channels of the waves before it |
| SF2SampleTable.SamplesOfWave | SF2/SoundFont.cs:718-753 | a wave's samples sit in the table from its new index on, one per channel |
| SF2SampleTable.FirstSampleOfWave | SF2/SoundFont.cs:721-753 | the sample at a wave's new index holds that wave's first channel |
| SF2SampleTable.WaveSamplesKinds | SF2/SoundFont.cs:721-735 | a mono wave is one Mono sample with link 0; a stereo wave is a Left then a Right sample sharing the current link |
| SF2SampleTable.TableIsMono | SF2/SoundFont.cs:718-735 | every sample in the table has exactly one channel and correction 0 |
| SF2SampleTable.NewIndicesIncrease | SF2/SoundFont.cs:752-753 | new indices strictly increase with the wave index |
| SF2SampleTable.StereoLinksDistinct | SF2/SoundFont.cs:733-734 | two stereo waves get different link numbers while fewer than 65535 stereo waves precede |
| SF2Converter.ScaledAmount | SF2/SoundFont.cs:146 | the generator amount is the 16.16 scale truncated toward zero |
| SF2Converter.SustainAmount | SF2/SoundFont.cs:170 | the sustain amount is the exact rational value of (1 − scale/65536/1000)·1000, truncated toward zero, where that fits a `short` (the source's `double` evaluation can be one lower; see Left out) |
| SF2Converter.SustainEnds | SF2/SoundFont.cs:168-171 | scale 1000·65536 gives 0 and scale 0 gives 1000 |
| SF2Converter.SustainLinear | SF2/SoundFont.cs:170 | in the exact-rational model, a scale of k·65536 (k in 0..1000) gives 1000 − k; this is a fact about the model, not about the `double` expression of the source |
| SF2Converter.DestinationKind | SF2/SoundFont.cs:139-188 | the switch yields "no generator" (100) exactly for the destinations it has no case for |
| SF2Converter.ConnectionGenerator | SF2/SoundFont.cs:139-193 | a connection gives a generator iff its destination is mapped; the amount is the sustain formula for EG1 sustain and the truncated scale otherwise |
| SF2Converter.ConnectionKindsDistinct | SF2/SoundFont.cs:143-188 | different mapped destinations give different generator kinds |
| SF2Converter.ArticulationKindsAreNotStructural | SF2/SoundFont.cs:143-188 | no articulation generator is a key range, velocity range, root key, sample, loop mode or instrument generator |
| SF2Converter.ConnectionGenerators | SF2/SoundFont.cs:136-200 | at most one generator per connection, all of articulation kinds |
| SF2Converter.ArticulatorGenerators | SF2/SoundFont.cs:135-201 | all generators from articulators are of articulation kinds |
| SF2Converter.UnmappedGiveNothing | SF2/SoundFont.cs:191-193 | connections to unmapped destinations add no generator |
| SF2Converter.MappedGiveOneEach | SF2/SoundFont.cs:191-193 | connections to mapped destinations add exactly one generator each |
| SF2Converter.AddConnectionGenerators | SF2/SoundFont.cs:136-200 | the connection loop appends the connections' generators |
| SF2Converter.ArticulationGenerators | SF2/SoundFont.cs:135-201 | the articulator loop computes all articulation generators |
| SF2Converter.RangeAmount | SF2/SoundFont.cs:116 | a byte-sized low and high bound become the amount's low and high byte |
| SF2Converter.BuildZone | SF2/SoundFont.cs:112-201 | the zone-building statements compute the region's zone |
| SF2Converter.ArticulationHasNoStructuralKind | SF2/SoundFont.cs:135-201 | articulation generators add no key range, velocity range or loop mode, and no sample id |
| SF2Converter.RegionZoneGenerators | SF2/SoundFont.cs:112-201 | the zone has a key range iff the region's is not full, a velocity range iff not full, a loop mode iff the wave loops, always a root key and exactly the given sample id |
| SF2Converter.ZoneKeyRange | SF2/SoundFont.cs:115-117 | a key range generator iff the key range is not 0-127 |
| SF2Converter.ZoneVelocityRange | SF2/SoundFont.cs:120-122 | a velocity range generator iff the velocity range is not 0-127 |
| SF2Converter.ZoneLoopMode | SF2/SoundFont.cs:132 | a loop mode generator iff the wave loops |
| SF2Converter.ZoneRootKey | SF2/SoundFont.cs:125 | every zone has a root key generator |
| SF2Converter.ZoneSample | SF2/SoundFont.cs:131 | every zone has a sample generator, and every one of them names the given sample |
| SF2Converter.RegionZones | SF2/SoundFont.cs:109-206 | one zone per region |
| SF2Converter.ConvertInstrument | SF2/SoundFont.cs:106-208 | same name, no global zone, one zone per region |
| SF2Converter.ConvertPresets | SF2/SoundFont.cs:212-215 | one preset per DLS instrument |
| SF2Converter.PresetSelectsInstrument | SF2/SoundFont.cs:212-215 | preset k has the instrument's name, bank and program, and one zone holding one Instrument generator with value k |
| SF2Converter.BuildPresets | SF2/SoundFont.cs:212-215 | the preset loop computes the presets, counting instruments in 16 bits |
| SF2Converter.PitchCorrection | SF2/SoundFont.cs:128 | `(sbyte)(Tuning / 65536)` of a `short` tuning is always 0 |
| SF2Converter.WithPitchCorrections | SF2/SoundFont.cs:128 | setting corrections keeps the number of samples |
| SF2Converter.PitchCorrectionsNoOp | SF2/SoundFont.cs:128 | on samples whose correction is already 0 the assignments change nothing |
| SF2Converter.BuildRegionZone | SF2/SoundFont.cs:112-204 | the region body computes the zone for the wave's new index and loop flag |
| SF2Converter.BuildInstrument | SF2/SoundFont.cs:106-208 | the region loop computes the instrument and applies each region's pitch correction |
| SF2Converter.ConvertInstruments | SF2/SoundFont.cs:106-209 | one SF2 instrument per DLS instrument |
| SF2Converter.BuildInstruments | SF2/SoundFont.cs:106-209 | the instrument loop computes all instruments and corrections |
| SF2Converter.ConvertedWaves | SF2/SoundFont.cs:102-103 | the waves after `AssignLoops` and the loop fix keep their audio |
| SF2Converter.IndicesInTable | SF2/SoundFont.cs:128-131 | every region's new index points into the sample table |
| SF2Converter.AllIndicesInTable | SF2/SoundFont.cs:128-131 | every region of every instrument has a wave and an index into the table |
| SF2Converter.LoopsAssignedSplittable | SF2/SoundFont.cs:102-103 | assigning loops and fixing flags gives the converted waves, still mono or stereo |
| SF2Converter.ConversionPrepared | SF2/SoundFont.cs:102-131 | after the first two steps every region indexes the table and the corrections leave it unchanged |
| SF2Converter.ZoneNamesItsSample | SF2/SoundFont.cs:128-132 | each region's zone names the sample holding its wave's first channel, and has a loop mode iff that wave loops |
| SF2SoundFontOld.RawSampleCount | SF2/SoundFontOLD.cs:62 | `(int)(Size / 46 - 1)` is -1 below one record, otherwise the number of whole records minus one |
| SF2SoundFontOld.Record | SF2/SoundFontOLD.cs:72-88 | each header record is 46 bytes |
| SF2SoundFontOld.Headers | SF2/SoundFontOLD.cs:68-91 | one header per record read |
| SF2SoundFontOld.RawSampleFields | SF2/SoundFontOLD.cs:72-88 | the cut succeeds iff start ≤ end ≤ data size, takes pcm[start..end], and keeps loop start, link and type, looping iff the loop end is non-zero |
| SF2SoundFontOld.RawSamples | SF2/SoundFontOLD.cs:68-91 | n headers yield n raw samples |
| SF2SoundFontOld.RawSamplesPointwise | SF2/SoundFontOLD.cs:68-91 | the read succeeds iff every header's cut does, and sample i is header i's cut |
| SF2SoundFontOld.RecordsRead | SF2/SoundFontOLD.cs:62-68 | the loop runs over whole records only (none when the count is -1) |
| SF2SoundFontOld.ReadRawSample | SF2/SoundFontOLD.cs:70-89 | one pass of the loop cuts the next sample |
| SF2SoundFontOld.ReadRawSamples | SF2/SoundFontOLD.cs:62-91 | the loop reads every whole record, stopping at the first failed cut |
| SF2SoundFontOld.ReadRecords | SF2/SoundFontOLD.cs:68-91 | the while loop computes the first n raw samples |
| SF2SoundFontOld.ClaimKeys | SF2/SoundFontOLD.cs:107-117 | the inner loop maps exactly the later samples with the opener's link to the new wave and keeps every other entry |
| SF2SoundFontOld.ShapeHolds | SF2/SoundFontOLD.cs:96-133 | after n steps the map holds every index below n, and a later index exactly when an earlier linked opener shares its link |
| SF2SoundFontOld.ClaimsAreFresh | SF2/SoundFontOLD.cs:111 | the indices an opener claims are not yet in the map, so `Dictionary.Add` never throws |
| SF2SoundFontOld.JoinMapsEverySample | SF2/SoundFontOLD.cs:96-133 | every raw sample, and nothing else, is mapped to an existing wave |
| SF2SoundFontOld.StepExtends | SF2/SoundFontOLD.cs:96-133 | a step never changes an existing map entry |
| SF2SoundFontOld.SameLinkSameWave | SF2/SoundFontOLD.cs:107-123 | a later sample sharing a linked sample's link is in the same wave |
| SF2SoundFontOld.SameWaveSameLink | SF2/SoundFontOLD.cs:107-123 | samples in the same wave share a link number |
| SF2SoundFontOld.FirstAppearanceOrder | SF2/SoundFontOLD.cs:96-133 | waves appear in the order of their first samples; each sample maps to a wave opened at or before it |
| SF2SoundFontOld.MonoKept | SF2/SoundFontOLD.cs:128-131 | a mono sample that no earlier linked sample claimed opens a wave of its own, and that wave is its raw wave unchanged |
| SF2SoundFontOld.GatherPair | SF2/SoundFontOLD.cs:107-119 | a pair whose opener is Left becomes [partner, opener]; any other opener gives [opener, partner] |
| SF2SoundFontOld.SoundFontOld.constructor | SF2/SoundFontOLD.cs:36 | a new loader has no waves and an empty map |
| SF2SoundFontOld.SoundFontOld.Load | SF2/SoundFontOLD.cs:59-133 | reads the raw samples; on success the fields are the join of all of them, on error nothing changes |
| SF2SoundFontOld.SoundFontOld.JoinLinkedSamples | SF2/SoundFontOLD.cs:94-133 | the outer loop leaves the waves and map of the full join |
| SF2SoundFontOld.SoundFontOld.AddSample | SF2/SoundFontOLD.cs:98-131 | one pass of the outer loop, with its inner loop, performs one join step |

## Left out

- The RIFF container (chunk lookup, sizes, list nesting), the INFO chunk strings and alignment, and `FileReader`/`FileWriter` are not part of this model. Files are records of chunk payloads.
- The audio library is not part of this model. A wave is its 16-bit channels, rate and loop settings. Decoding and encoding wave files, `FromOtherStreamFile` (taken as an exact copy) and the `ptbl` wave sizes (given as a parameter) are outside it.
- `SoundFontOLD`'s file opening and `smpl` read (lines 42-57) are not modelled; `Load` takes the `shdr` payload and the samples as parameters. Its constructor taking a path is modelled as `constructor()` followed by `Load`. Lines 135-208 of that file are not part of the core.
- `SF2Converter.SustainAmount`: uses the exact rational value of the formula truncated toward zero, not IEEE `double` arithmetic. The model can be one higher than the source, and this is common. Under `double` rounding, scale 66·65536 gives (1 − 0.066)·1000 = 933.9999999999999, which the cast truncates to 933; the model gives 934. The same happens for 198 of the whole-unit scales k·65536 with k in 0..1000 (k = 66, 68, 70, 191, …), and for scale −65536 (source 1000, model 1001). `SF2Converter.SustainLinear` therefore describes the model only.
- The modulator stub (`SoundFont.cs:196-198`) does nothing and is not modelled; the empty `DownloadableSounds(SoundFont)` constructor is not modelled.
- DLS `lar1` chunks: the source looks one up but always iterates `lar2`, as the model does. A region with only a `lar1` list (DLS Level 1) makes the source dereference a missing `lar2` and throw; the model's region record always has a `lar2` list, so such a file cannot be expressed in it.
- `SF2SampleTable.CreateSampleTable` and `SF2SoundFont.SoundFont.CreateSampleTable`: waves with 0 or more than 2 channels are excluded by a precondition (`Splittable`). The source's `default` branch (`SF2/SoundFont.cs:738-746`) is not modelled. It walks every wave of the pool and takes channel 1, 2, … of each; it need not throw (a pool of one 3-channel wave gives one Left sample "Sample 0 Link 1").
- `SF2SoundFont.SoundFont.FromDls`: its preconditions exclude three cases:
  - wave ids out of range, where the source would throw;
  - a looping region with loop length 0 on a wave without channels (`CanLoop`), where the source would throw;
  - pools holding a wave with 0 or more than 2 channels (`Splittable`). For 0 channels the source would throw. For more than 2 it takes the unmodelled `default` branch of `CreateSampleTable` described above, which need not throw.
- `DLSDownloadableSounds.DownloadableSounds.AssignLoops`: like the source, which looks a wave up only inside `if (reg.Loops)` (`DLS/DownloadableSounds.cs:341-344`), it accepts non-looping regions with any wave id (`LoopsFit`). Its precondition excludes only two kinds of looping region, and the source would throw on both: one whose wave id is out of range, and one with loop length 0 whose wave has no channels (`CanLoop`, where the source reads `Channels[0]`; `DLS/DownloadableSounds.cs:344`).
- Aliasing is not captured. `CreateSampleTable` writes loop flags into `RiffWave` objects shared with the DLS bank, and `Write` overwrites the bag index of shared `Preset` objects. In the model each is a field assignment of the owning object.
- `DLSDownloadableSounds.DownloadableSounds.Read` and `SF2SoundFontOld.SoundFontOld.Load` change nothing when the read fails; the source may already have appended objects before its exception, which is not modelled.
- `SF2SoundFont.SoundFont.Read`: like the source, it first clears presets, instruments and samples, and keeps each list read before the failing step. Unlike the source, the list whose read fails stays empty. The source keeps what it had already appended to it, e.g. preset headers whose zones were not yet attached.
- SF2 and DLS names are one byte per character; text encodings are not modelled.
- `SF2RoundTrip.FileRoundTrip`: holds only for names that fit 20 bytes and zone, generator and modulator totals below 2^16; with larger totals the 16-bit counters of the writer wrap around.
- Samples read past the end of the sample data give an error; the source would read whatever bytes follow.
- `DLSFile.DecodeRegion`, `DLSChunks.ReadWsmp` and `DLSChunks.ReadArt2`: a chunk payload shorter than its fixed layout is a format error in the model. This covers a 12-byte DLS Level 1 `rgnh` without `usLayer`, a `wsmp` or `wlnk` cut short, and an `art2` whose connection count overruns the payload. The source reads these fixed fields without checking the chunk size (`DLS/DownloadableSounds.cs:106-166`), so it goes on into the bytes of the following chunk (for the 12-byte `rgnh`, the next chunk's first two bytes become the layer). The model holds each chunk as a separate payload, so those following bytes cannot be expressed in it.
