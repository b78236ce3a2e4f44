/** Decoding interleaved PCM packets into audio frames (src/codecs/audio/pcm/decoder.rs). */
module PcmDecoders {
  import opened Wrappers
  import opened Ints
  import opened AudioFrames
  import opened Frames
  import opened Packets
  import opened Messages
  import WavFormats

  /** `PcmDecoder`: the stream's rate, channel layout and bytes per sample. */
  datatype PcmDecoder = PcmDecoder(sampleRate: u32, channels: Channels, bytesPerSample: nat)

  /** `new_from_metadata`: the decoder for the samples a WAV header describes. */
  function NewFromMetadata(metadata: WavFormats.WavFormat): (d: PcmDecoder)
    ensures d.sampleRate == metadata.sampleRate && d.channels == metadata.channels
    ensures d.bytesPerSample * Count(d.channels) == WavFormats.BytesPerFrame(metadata)
  {
    PcmDecoder(metadata.sampleRate, metadata.channels, WavFormats.BytesPerSample(metadata))
  }

  /** The frame format a sample width stands for; a width other than 2, 3 or 4 bytes is labelled 16-bit. */
  function FormatOfWidth(bytesPerSample: nat): (format: AudioFormat)
    ensures format in {PCM16, PCM24, PCM32}
    ensures bytesPerSample in {2, 3, 4} <==> BytesPerSample(format) == Some(bytesPerSample)
  {
    match bytesPerSample
    case 2 => PCM16
    case 3 => PCM24
    case 4 => PCM32
    case _ => PCM16
  }

  /** Bytes of one sample on every channel. */
  function SampleFrameSize(d: PcmDecoder): nat
  {
    Count(d.channels) * d.bytesPerSample
  }

  /**
   * `decode`: an empty packet gives no frame; otherwise the packet's bytes
   * become one audio frame whose sample count is the number of whole
   * sample frames in them, carrying the packet's pts and stream id.  The
   * source's two-argument `Frame::new_audio` is read as a frame in the
   * packet's time unit at stream index 0.  The division panics when a sample
   * frame has no bytes, hence the requires.
   */
  function Decode(d: PcmDecoder, packet: Packet): (r: MsgResult<Option<Frame>>)
    requires packet.data != [] ==> SampleFrameSize(d) > 0
    ensures r.Ok?
    ensures r.value.None? <==> packet.data == []
    ensures r.value.Some? ==>
      var f := r.value.value;
      f.pts == packet.pts && f.streamId == packet.streamId && f.time == packet.time &&
      Audio(f).Some? && Audio(f).value.data == packet.data &&
      Audio(f).value.sampleRate == d.sampleRate && Audio(f).value.channels == d.channels &&
      Audio(f).value.format == FormatOfWidth(d.bytesPerSample) &&
      Audio(f).value.nbSamples * SampleFrameSize(d) <= |packet.data| < (Audio(f).value.nbSamples + 1) * SampleFrameSize(d)
  {
    if Packets.IsEmpty(packet) then Ok(None)
    else
      var unit := SampleFrameSize(d);
      DivBounds(|packet.data|, unit);
      var nbSamples := |packet.data| / unit;
      var format := FormatOfWidth(d.bytesPerSample);
      var audio := WithNbSamples(NewFrameAudio(packet.data, d.sampleRate, d.channels, format), nbSamples);
      Ok(Some(Frames.WithPts(NewAudio(audio, packet.time, 0, packet.streamId), packet.pts)))
  }

  /** For 2-, 3- and 4-byte samples the sample count agrees with the one the frame computes from its own format. */
  lemma DecodedCountMatchesFormat(d: PcmDecoder, packet: Packet)
    requires packet.data != [] && d.bytesPerSample in {2, 3, 4} && Count(d.channels) > 0
    ensures var f := Audio(Decode(d, packet).value.value).value;
      FrameSize(f).Some? && FrameSize(f).value <= |packet.data| < FrameSize(f).value + SampleFrameSize(d)
  {
    var f := Audio(Decode(d, packet).value.value).value;
    var n := f.nbSamples;
    ProductRegroup(d.bytesPerSample, Count(d.channels), n);
    assert FrameSize(f).value == n * SampleFrameSize(d);
    MulSucc(n, SampleFrameSize(d));
  }

  /**
   * With 8-bit samples the frame is labelled 16-bit but counted at one byte
   * per sample, so the size it claims is twice the bytes it holds.
   */
  lemma EightBitFrameClaimsDoubleSize(d: PcmDecoder, packet: Packet)
    requires d.bytesPerSample == 1 && d.channels == Mono && |packet.data| == 2
    ensures var f := Audio(Decode(d, packet).value.value).value;
      f.format == PCM16 && f.nbSamples == 2 && FrameSize(f) == Some(4)
  {
  }
}
