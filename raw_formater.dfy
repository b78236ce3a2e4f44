/** The sample layout of headerless PCM input and output (src/container/raw/formater.rs). */
module RawFormats {
  import opened Wrappers
  import opened Ints
  import opened AudioFrames
  import opened CodecNames

  /** `RawPcmFormat`. */
  datatype RawPcmFormat = RawPcmFormat(channels: Channels, sampleRate: u32, bitDepth: u16)

  /** 16-bit stereo at 44.1 kHz. */
  function Default(): RawPcmFormat
  {
    RawPcmFormat(Stereo, 44100, 16)
  }

  function Unsupported(codec: string): string
  {
    "raw codec '" + codec + "' is not supported"
  }

  /** `new_for_codec`: the default layout at the codec's bit depth; other codecs are refused. */
  function NewForCodec(codec: string): (r: Result<RawPcmFormat, string>)
    ensures r.Ok? <==> codec in {PCM_S16LE, PCM_S24LE, PCM_F32LE}
    ensures r.Ok? ==> r.value.channels == Stereo && r.value.sampleRate == 44100
    ensures r.Ok? ==> r.value.bitDepth == (if codec == PCM_S16LE then 16 else if codec == PCM_S24LE then 24 else 32)
    ensures r.Err? ==> r.error == Unsupported(codec)
  {
    if codec == PCM_S16LE then Ok(Default())
    else if codec == PCM_S24LE then Ok(Default().(bitDepth := 24))
    else if codec == PCM_F32LE then Ok(Default().(bitDepth := 32))
    else Err(Unsupported(codec))
  }

  function BytesPerSample(f: RawPcmFormat): nat
  {
    f.bitDepth / 8
  }

  function BytesPerFrame(f: RawPcmFormat): nat
  {
    BytesPerSample(f) * Count(f.channels)
  }

  /** `byte_rate`: rate, channels and sample width multiplied with `u32` saturation at each step. */
  function ByteRate(f: RawPcmFormat): u32
  {
    SaturatingMulU32(SaturatingMulU32(f.sampleRate, Count(f.channels)), BytesPerSample(f))
  }

  /** `block_align`: a `u16` product, which wraps when the frame is wider than 65535 bytes. */
  function BlockAlign(f: RawPcmFormat): u16
  {
    WrapU16(Count(f.channels) * (f.bitDepth / 8))
  }

  /** The sample format for the bit depth; unknown depths read as 16-bit. */
  function SampleFormat(f: RawPcmFormat): (format: AudioFormat)
    ensures format in {PCM16, PCM24, PCM32}
    ensures format == PCM24 <==> f.bitDepth == 24
    ensures format == PCM32 <==> f.bitDepth == 32
  {
    match f.bitDepth
    case 16 => PCM16
    case 24 => PCM24
    case 32 => PCM32
    case _ => PCM16
  }

  /** The codec name for the bit depth; unknown depths read as 16-bit. */
  function ToCodecString(f: RawPcmFormat): (codec: string)
    ensures codec in {PCM_S16LE, PCM_S24LE, PCM_F32LE}
    ensures codec == PCM_S24LE <==> f.bitDepth == 24
    ensures codec == PCM_F32LE <==> f.bitDepth == 32
  {
    match f.bitDepth
    case 16 => PCM_S16LE
    case 24 => PCM_S24LE
    case 32 => PCM_F32LE
    case _ => PCM_S16LE
  }

  /**
   * `apply_codec`: the format with the codec's bit depth, everything else
   * kept; an unknown codec is refused and the format stays as it was.
   */
  function ApplyCodec(f: RawPcmFormat, codec: string): (r: Result<RawPcmFormat, string>)
    ensures r.Ok? <==> codec in {PCM_S16LE, PCM_S24LE, PCM_F32LE}
    ensures r.Ok? ==> r.value.channels == f.channels && r.value.sampleRate == f.sampleRate
    ensures r.Ok? ==> r.value.bitDepth == (if codec == PCM_S16LE then 16 else if codec == PCM_S24LE then 24 else 32)
    ensures r.Err? ==> r.error == Unsupported(codec)
  {
    if codec == PCM_S16LE then Ok(f.(bitDepth := 16))
    else if codec == PCM_S24LE then Ok(f.(bitDepth := 24))
    else if codec == PCM_F32LE then Ok(f.(bitDepth := 32))
    else Err(Unsupported(codec))
  }

  /** Applying a codec and reading the codec name back gives that codec; so does building from it. */
  lemma CodecRoundTrip(f: RawPcmFormat, codec: string)
    requires codec in {PCM_S16LE, PCM_S24LE, PCM_F32LE}
    ensures ToCodecString(ApplyCodec(f, codec).value) == codec
    ensures ToCodecString(NewForCodec(codec).value) == codec
    ensures NewForCodec(codec) == ApplyCodec(Default(), codec)
  {
  }

  /** The sample format and the codec name always describe the same bit depth. */
  lemma SampleFormatAgreesWithCodec(f: RawPcmFormat)
    ensures SampleFormat(f) == PCM16 <==> ToCodecString(f) == PCM_S16LE
    ensures SampleFormat(f) == PCM24 <==> ToCodecString(f) == PCM_S24LE
    ensures SampleFormat(f) == PCM32 <==> ToCodecString(f) == PCM_F32LE
  {
  }

  /** The two saturating steps amount to one saturation of the full product. */
  lemma ByteRateSaturates(f: RawPcmFormat)
    ensures ByteRate(f) == Min(f.sampleRate * Count(f.channels) * BytesPerSample(f), U32_LIMIT - 1)
  {
    SaturatingMulTwice(f.sampleRate, Count(f.channels), BytesPerSample(f));
  }

  /** `block_align` is the frame size whenever that fits in a `u16`; a non-zero `block_align` means a non-empty frame. */
  lemma BlockAlignIsFrameSize(f: RawPcmFormat)
    ensures BytesPerFrame(f) < U16_LIMIT ==> BlockAlign(f) == BytesPerFrame(f)
    ensures BlockAlign(f) > 0 ==> BytesPerFrame(f) > 0
  {
    var n, w := Count(f.channels), f.bitDepth / 8;
    assert BytesPerFrame(f) == w * n;
    assert n * w == w * n;
  }
}
