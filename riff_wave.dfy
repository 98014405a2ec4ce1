/**
  The part of an audio wave the sound-bank code reads and writes: the
  channels as 16-bit PCM, the sample rate and the loop settings. The wave
  container itself belongs to the audio library and is not part of this model.
*/
module RiffWave {
  import opened Ints

  datatype RiffWave = RiffWave(
    channels: seq<seq<i16>>,
    sampleRate: u32,
    loops: bool,
    loopStart: u32,
    loopEnd: u32)

  /** The number of samples of the first channel, which every loop conversion uses. */
  function NumSamples(w: RiffWave): (n: nat)
    requires |w.channels| > 0
    ensures n == |w.channels[0]|
  {
    |w.channels[0]|
  }
}
