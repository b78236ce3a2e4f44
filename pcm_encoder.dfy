/** Encoding audio frames into PCM packets, optionally converting the sample format (src/codecs/audio/pcm/encoder.rs). */
module PcmEncoders {
  import opened Wrappers
  import opened Ints
  import opened CoreTime
  import opened AudioFrames
  import opened Frames
  import opened Packets
  import opened Messages
  import WavFormats
  import PcmDecoders

  /** `PcmEncoder`: the output rate and, when set, the sample format to convert to. */
  datatype PcmEncoder = PcmEncoder(sampleRate: u32, targetFormat: Option<AudioFormat>)

  /**
   * The sample converter of the WAV container, whose code is not part of this
   * model: `to_f32` decodes bytes of one layout to samples, `from_f32`
   * encodes samples in another layout; either may fail.
   */
  datatype Converter = Converter(
    toF32: (seq<u8>, WavFormats.WavFormat) -> MsgResult<seq<real>>,
    fromF32: (seq<real>, WavFormats.WavFormat) -> MsgResult<seq<u8>>)

  /** `new`: no conversion. */
  function New(sampleRate: u32): (e: PcmEncoder)
    ensures e.sampleRate == sampleRate && e.targetFormat.None?
  {
    PcmEncoder(sampleRate, None)
  }

  /** `with_target_format`: convert every frame to `format`. */
  function WithTargetFormat(e: PcmEncoder, format: AudioFormat): (g: PcmEncoder)
    ensures g.targetFormat == Some(format) && g.sampleRate == e.sampleRate
  {
    e.(targetFormat := Some(format))
  }

  /**
   * `wav_format`: the WAV layout of a frame format.  Formats other than the
   * three PCM widths are treated as 16-bit; format code 3 (float) goes with
   * 32-bit samples, 1 (integer) with the others.
   */
  function WavFormatOf(format: AudioFormat, channels: Channels, sampleRate: u32): (w: WavFormats.WavFormat)
    ensures w.channels == channels && w.sampleRate == sampleRate
    ensures w.formatCode == 3 <==> format == PCM32
    ensures w.formatCode in {1, 3}
    ensures WavFormats.SampleFormat(w) == (if format in {PCM16, PCM24, PCM32} then format else PCM16)
    ensures BytesPerSample(format).Some? ==> WavFormats.BytesPerSample(w) == BytesPerSample(format).value
  {
    var bitDepth: u16 := match format
      case PCM16 => 16
      case PCM24 => 24
      case PCM32 => 32
      case _ => 16;
    var formatCode: u16 := if bitDepth == 32 then 3 else 1;
    WavFormats.WavFormat(channels, sampleRate, bitDepth, formatCode)
  }

  /** The packet unit: one tick per sample at the encoder's rate. */
  function SampleTime(e: PcmEncoder): Time
  {
    Time(1, e.sampleRate)
  }

  /**
   * `encode`: a frame without audio gives no packet.  Without a target format
   * the audio bytes are copied; with one they are decoded from the frame's
   * layout and re-encoded in the target layout, and a converter failure is
   * the result.  The packet keeps the frame's pts and stream id.
   */
  function Encode(e: PcmEncoder, conv: Converter, frame: Frame): (r: MsgResult<Option<Packet>>)
    ensures Audio(frame).None? ==> r == Ok(None)
    ensures Audio(frame).Some? && e.targetFormat.None? ==>
      r.Ok? && r.value.Some? && r.value.value.data == Audio(frame).value.data
    ensures Audio(frame).Some? && e.targetFormat.Some? ==>
      var audio := Audio(frame).value;
      var decoded := conv.toF32(audio.data, WavFormatOf(audio.format, audio.channels, e.sampleRate));
      var target := WavFormatOf(e.targetFormat.value, audio.channels, e.sampleRate);
      (decoded.Err? ==> r == Err(decoded.error)) &&
      (decoded.Ok? && conv.fromF32(decoded.value, target).Err? ==> r == Err(conv.fromF32(decoded.value, target).error)) &&
      (decoded.Ok? && conv.fromF32(decoded.value, target).Ok? ==>
        r.Ok? && r.value.Some? && r.value.value.data == conv.fromF32(decoded.value, target).value)
    ensures r.Ok? && r.value.Some? ==>
      var p := r.value.value;
      p.pts == frame.pts && p.streamId == frame.streamId && p.time == SampleTime(e) &&
      p.dts == 0 && !p.keyframe && !p.discard
  {
    match Audio(frame)
    case None => Ok(None)
    case Some(audio) =>
      var time := SampleTime(e);
      match e.targetFormat
      case Some(target) =>
        var format := WavFormatOf(audio.format, audio.channels, e.sampleRate);
        var targetFormat := WavFormatOf(target, audio.channels, e.sampleRate);
        (match conv.toF32(audio.data, format)
         case Err(err) => Err(err)
         case Ok(samples) =>
           match conv.fromF32(samples, targetFormat)
           case Err(err) => Err(err)
           case Ok(data) => Ok(Some(Packets.WithPts(NewPacket(data, frame.streamId, time), frame.pts))))
      case None =>
        Ok(Some(Packets.WithPts(NewPacket(audio.data, frame.streamId, time), frame.pts)))
  }

  /**
   * Decoding a non-empty PCM packet and encoding the frame again without
   * conversion gives back the packet's bytes, pts and stream id, in the
   * encoder's sample-tick unit.
   */
  lemma DecodeEncodeRoundTrip(d: PcmDecoders.PcmDecoder, e: PcmEncoder, conv: Converter, packet: Packet)
    requires packet.data != [] && PcmDecoders.SampleFrameSize(d) > 0 && e.targetFormat.None?
    ensures var frame := PcmDecoders.Decode(d, packet).value.value;
      var q := Encode(e, conv, frame);
      q.Ok? && q.value.Some? && q.value.value == packet.(time := SampleTime(e), dts := 0, keyframe := false, discard := false)
  {
    var frame := PcmDecoders.Decode(d, packet).value.value;
    var q := Encode(e, conv, frame).value.value;
    assert q.data == packet.data && q.pts == packet.pts && q.streamId == packet.streamId;
  }

  /** The layout chosen for a PCM format names that format again. */
  lemma WavFormatNamesFormat(format: AudioFormat, channels: Channels, sampleRate: u32)
    requires format in {PCM16, PCM24, PCM32}
    ensures WavFormats.SampleFormat(WavFormatOf(format, channels, sampleRate)) == format
  {
  }
}
