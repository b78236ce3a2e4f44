/** The sample layout of a WAV file (src/container/wav/formater.rs). */
module WavFormats {
  import opened Wrappers
  import opened Ints
  import opened AudioFrames
  import opened CodecNames
  import RawFormats

  /** `WavFormat`: the raw layout plus the WAVE format code (1 integer PCM, 3 float, 0x11 IMA ADPCM). */
  datatype WavFormat = WavFormat(channels: Channels, sampleRate: u32, bitDepth: u16, formatCode: u16)

  /** 16-bit integer PCM, stereo, 44.1 kHz. */
  function Default(): WavFormat
  {
    WavFormat(Stereo, 44100, 16, 1)
  }

  function Unsupported(codec: string): string
  {
    "wav codec '" + codec + "' is not supported"
  }

  /** `new_for_codec`: the default layout at the codec's bit depth, format code 3 for float; other codecs are refused. */
  function NewForCodec(codec: string): (r: Result<WavFormat, string>)
    ensures r.Ok? <==> codec in {PCM_S16LE, PCM_S24LE, PCM_F32LE}
    ensures r.Ok? ==> r.value.channels == Stereo && r.value.sampleRate == 44100
    ensures r.Ok? ==> r.value.bitDepth == (if codec == PCM_S16LE then 16 else if codec == PCM_S24LE then 24 else 32)
    ensures r.Ok? ==> (r.value.formatCode == 3 <==> codec == PCM_F32LE)
    ensures r.Err? ==> r.error == Unsupported(codec)
  {
    if codec == PCM_S16LE then Ok(Default())
    else if codec == PCM_S24LE then Ok(Default().(bitDepth := 24))
    else if codec == PCM_F32LE then Ok(Default().(bitDepth := 32, formatCode := 3))
    else Err(Unsupported(codec))
  }

  /** `to_raw_format`: the same layout without the format code. */
  function ToRawFormat(f: WavFormat): (raw: RawFormats.RawPcmFormat)
    ensures raw.channels == f.channels && raw.sampleRate == f.sampleRate && raw.bitDepth == f.bitDepth
  {
    RawFormats.RawPcmFormat(f.channels, f.sampleRate, f.bitDepth)
  }

  function BytesPerSample(f: WavFormat): nat
  {
    f.bitDepth / 8
  }

  function BytesPerFrame(f: WavFormat): nat
  {
    BytesPerSample(f) * Count(f.channels)
  }

  function ByteRate(f: WavFormat): u32
  {
    SaturatingMulU32(SaturatingMulU32(f.sampleRate, Count(f.channels)), BytesPerSample(f))
  }

  function BlockAlign(f: WavFormat): u16
  {
    WrapU16(Count(f.channels) * (f.bitDepth / 8))
  }

  function SampleFormat(f: WavFormat): AudioFormat
  {
    match f.bitDepth
    case 16 => PCM16
    case 24 => PCM24
    case 32 => PCM32
    case _ => PCM16
  }

  function ToCodecString(f: WavFormat): string
  {
    match f.bitDepth
    case 16 => PCM_S16LE
    case 24 => PCM_S24LE
    case 32 => PCM_F32LE
    case _ => PCM_S16LE
  }

  /**
   * `apply_codec`: sets the codec's bit depth and, for float, format code 3.
   * The format code is never set back to 1, so a float format switched to
   * 16-bit keeps code 3.  An unknown codec is refused with the format unchanged.
   */
  function ApplyCodec(f: WavFormat, codec: string): (r: Result<WavFormat, string>)
    ensures r.Ok? <==> codec in {PCM_S16LE, PCM_S24LE, PCM_F32LE}
    ensures r.Ok? ==> r.value.channels == f.channels && r.value.sampleRate == f.sampleRate
    ensures r.Ok? ==> r.value.bitDepth == (if codec == PCM_S16LE then 16 else if codec == PCM_S24LE then 24 else 32)
    ensures r.Ok? ==> r.value.formatCode == (if codec == PCM_F32LE then 3 else f.formatCode)
    ensures r.Err? ==> r.error == Unsupported(codec)
  {
    if codec == PCM_S16LE then Ok(f.(bitDepth := 16))
    else if codec == PCM_S24LE then Ok(f.(bitDepth := 24))
    else if codec == PCM_F32LE then Ok(f.(bitDepth := 32, formatCode := 3))
    else Err(Unsupported(codec))
  }

  /** Every size, rate and name of a WAV layout is the one its raw layout gives. */
  lemma AgreesWithRawFormat(f: WavFormat)
    ensures BytesPerSample(f) == RawFormats.BytesPerSample(ToRawFormat(f))
    ensures BytesPerFrame(f) == RawFormats.BytesPerFrame(ToRawFormat(f))
    ensures ByteRate(f) == RawFormats.ByteRate(ToRawFormat(f))
    ensures BlockAlign(f) == RawFormats.BlockAlign(ToRawFormat(f))
    ensures SampleFormat(f) == RawFormats.SampleFormat(ToRawFormat(f))
    ensures ToCodecString(f) == RawFormats.ToCodecString(ToRawFormat(f))
  {
  }

  /** Applying a codec agrees with the raw layout's `apply_codec` on everything but the format code. */
  lemma ApplyCodecAgreesWithRaw(f: WavFormat, codec: string)
    ensures ApplyCodec(f, codec).Ok? <==> RawFormats.ApplyCodec(ToRawFormat(f), codec).Ok?
    ensures ApplyCodec(f, codec).Ok? ==>
              ToRawFormat(ApplyCodec(f, codec).value) == RawFormats.ApplyCodec(ToRawFormat(f), codec).value
  {
  }

  /** Applying a codec, or building from it, and reading the codec name back gives that codec. */
  lemma CodecRoundTrip(f: WavFormat, codec: string)
    requires codec in {PCM_S16LE, PCM_S24LE, PCM_F32LE}
    ensures ToCodecString(ApplyCodec(f, codec).value) == codec
    ensures ToCodecString(NewForCodec(codec).value) == codec
    ensures NewForCodec(codec) == ApplyCodec(Default(), codec)
  {
  }

  /** A float format switched back to 16-bit keeps format code 3. */
  lemma FloatCodeSurvivesSwitchTo16(f: WavFormat)
    requires f.formatCode == 3
    ensures ApplyCodec(f, PCM_S16LE) == Ok(f.(bitDepth := 16))
    ensures ApplyCodec(f, PCM_S16LE).value.formatCode == 3
  {
  }
}
