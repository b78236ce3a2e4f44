/**
 * The raw-video codec on the audio-only frame (src/codecs/rawvideo/decode.rs
 * and src/codecs/rawvideo/encode.rs).  The Y4M stream description is not part
 * of this model: the decoder is given its frame-rate numerator.
 */
module RawVideo {
  import opened Wrappers
  import opened Ints
  import opened CoreTime
  import opened LegacyFrames
  import opened Packets
  import opened IoError
  import LegacyPcm

  /**
   * `RawVideoDecoder::decode`: the packet's bytes become one frame at the
   * stream's frame-rate numerator, with one channel and one sample, and the
   * packet's pts and unit.
   */
  function Decode(framerateNum: u32, packet: Packet): (r: IoResult<Option<LegacyFrame>>)
    ensures r.Ok? && r.value.Some?
    ensures var f := r.value.value;
      f.data == packet.data && f.pts == packet.pts && f.timebase == LegacyPcm.TimebaseOf(packet.time) &&
      f.sampleRate == framerateNum && f.channels == 1 && f.nbSamples == 1
  {
    Ok(Some(LegacyFrames.WithPts(NewLegacyFrame(packet.data, LegacyPcm.TimebaseOf(packet.time), framerateNum, 1, 1), packet.pts)))
  }

  /** `RawVideoEncoder::encode`: the frame's bytes and pts in a packet of stream 0 in the encoder's timebase. */
  function Encode(timebase: Timebase, frame: LegacyFrame): (r: IoResult<Option<Packet>>)
    ensures r.Ok? && r.value.Some?
    ensures var p := r.value.value;
      p.data == frame.data && p.pts == frame.pts && p.streamId == 0 &&
      LegacyPcm.TimebaseOf(p.time) == timebase && p.dts == 0 && !p.keyframe && !p.discard
  {
    Ok(Some(Packets.WithPts(NewPacket(frame.data, 0, LegacyPcm.TimeOf(timebase)), frame.pts)))
  }

  /** A picture passes through decode and encode unchanged, pts and unit included. */
  lemma DecodeEncodeRoundTrip(framerateNum: u32, packet: Packet)
    ensures Encode(LegacyPcm.TimebaseOf(packet.time), Decode(framerateNum, packet).value.value).value.value
      == NewPacket(packet.data, 0, packet.time).(pts := packet.pts)
  {
    var f := Decode(framerateNum, packet).value.value;
    var p := Encode(LegacyPcm.TimebaseOf(packet.time), f).value.value;
    assert p.time == packet.time;
  }
}
