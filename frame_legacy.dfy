/** The older, audio-only frame still used by the PCM and raw-video codecs (src/core/frame.rs). */
module LegacyFrames {
  import opened Ints
  import opened CoreTime

  datatype LegacyFrame = LegacyFrame(
    data: seq<u8>, pts: i64, timebase: Timebase, sampleRate: u32, channels: u8, nbSamples: nat)

  function NewLegacyFrame(data: seq<u8>, timebase: Timebase, sampleRate: u32, channels: u8, nbSamples: nat): (f: LegacyFrame)
    ensures f.pts == 0
    ensures f.data == data && f.timebase == timebase && f.sampleRate == sampleRate
    ensures f.channels == channels && f.nbSamples == nbSamples
  {
    LegacyFrame(data, 0, timebase, sampleRate, channels, nbSamples)
  }

  function WithPts(f: LegacyFrame, pts: i64): (g: LegacyFrame)
    ensures g.pts == pts && g == f.(pts := pts)
  {
    f.(pts := pts)
  }

  function Size(f: LegacyFrame): nat
  {
    |f.data|
  }

  function IsEmpty(f: LegacyFrame): (empty: bool)
    ensures empty <==> Size(f) == 0
  {
    f.data == []
  }
}
