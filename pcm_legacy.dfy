/**
 * The older PCM codec working on the audio-only frame (src/codecs/pcm/decode.rs
 * and src/codecs/pcm/encode.rs).  These files read a `timebase` from the
 * packet; the packet of this model carries its unit as `time`, and that pair
 * is read as the timebase.
 */
module LegacyPcm {
  import opened Wrappers
  import opened Ints
  import opened CoreTime
  import opened LegacyFrames
  import opened Packets
  import opened IoError
  import WavFormats
  import AudioFrames

  /** The packet's unit read as a timebase. */
  function TimebaseOf(t: Time): (tb: Timebase)
    ensures tb.num == t.num && tb.den == t.den
  {
    Timebase(t.num, t.den)
  }

  /** The timebase written as a packet unit. */
  function TimeOf(tb: Timebase): (t: Time)
    ensures TimebaseOf(t) == tb
  {
    Time(tb.num, tb.den)
  }

  /**
   * `PcmDecoder::decode`: the packet's bytes become one frame of the format's
   * rate and channel count, holding as many samples as whole sample frames
   * fit in the packet's (32-bit) size, with the packet's pts.  A format with
   * zero-byte sample frames divides by zero, hence the requires.
   */
  function Decode(format: WavFormats.WavFormat, packet: Packet): (r: IoResult<Option<LegacyFrame>>)
    requires WavFormats.BytesPerFrame(format) > 0
    ensures r.Ok? && r.value.Some?
    ensures var f := r.value.value;
      f.data == packet.data && f.pts == packet.pts && f.timebase == TimebaseOf(packet.time) &&
      f.sampleRate == format.sampleRate && f.channels == AudioFrames.Count(format.channels) &&
      f.nbSamples * WavFormats.BytesPerFrame(format) <= Packets.Size(packet) < (f.nbSamples + 1) * WavFormats.BytesPerFrame(format)
  {
    var unit := WavFormats.BytesPerFrame(format);
    DivBounds(Packets.Size(packet), unit);
    var nbSamples := Packets.Size(packet) / unit;
    Ok(Some(LegacyFrames.WithPts(
      NewLegacyFrame(packet.data, TimebaseOf(packet.time), format.sampleRate, AudioFrames.Count(format.channels), nbSamples),
      packet.pts)))
  }

  /** `PcmEncoder::encode`: the frame's bytes and pts in a packet of stream 0 in the encoder's timebase. */
  function Encode(timebase: Timebase, frame: LegacyFrame): (r: IoResult<Option<Packet>>)
    ensures r.Ok? && r.value.Some?
    ensures var p := r.value.value;
      p.data == frame.data && p.pts == frame.pts && p.streamId == 0 && TimebaseOf(p.time) == timebase &&
      p.dts == 0 && !p.keyframe && !p.discard
  {
    Ok(Some(Packets.WithPts(NewPacket(frame.data, 0, TimeOf(timebase)), frame.pts)))
  }

  /**
   * Decoding then encoding in the packet's own timebase gives back a packet
   * of stream 0 with the same bytes, pts and unit.
   */
  lemma DecodeEncodeRoundTrip(format: WavFormats.WavFormat, packet: Packet)
    requires WavFormats.BytesPerFrame(format) > 0
    ensures Encode(TimebaseOf(packet.time), Decode(format, packet).value.value).value.value
      == NewPacket(packet.data, 0, packet.time).(pts := packet.pts)
  {
    var f := Decode(format, packet).value.value;
    var p := Encode(TimebaseOf(packet.time), f).value.value;
    assert p.time == packet.time;
  }

  /** Encoding then decoding keeps the frame's bytes and pts and counts its samples from the format. */
  lemma EncodeDecodeKeepsPayload(format: WavFormats.WavFormat, timebase: Timebase, frame: LegacyFrame)
    requires WavFormats.BytesPerFrame(format) > 0
    ensures var g := Decode(format, Encode(timebase, frame).value.value).value.value;
      g.data == frame.data && g.pts == frame.pts && g.timebase == timebase
  {
    var p := Encode(timebase, frame).value.value;
    assert TimebaseOf(p.time) == timebase;
  }
}
