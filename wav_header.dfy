/** The parsed `fmt ` chunk of a WAV file and its validation (src/container/wav/header.rs). */
module WavHeaders {
  import opened Wrappers
  import opened Ints
  import opened Messages
  import opened AudioFrames
  import opened WavFormats

  datatype WavHeader = WavHeader(
    channels: Channels, sampleRate: u32, byteRate: u32, blockAlign: u16, bitsPerSample: u16, formatCode: u16)

  /** `to_format`: the stream layout the header describes; the header's own byte rate and block align are dropped. */
  function ToFormat(h: WavHeader): (f: WavFormat)
    ensures f.channels == h.channels && f.sampleRate == h.sampleRate
    ensures f.bitDepth == h.bitsPerSample && f.formatCode == h.formatCode
  {
    WavFormat(h.channels, h.sampleRate, h.bitsPerSample, h.formatCode)
  }

  /** `validate_pcm_bits`: a non-zero whole number of bytes per sample. */
  function ValidatePcmBits(h: WavHeader): (r: MsgResult<()>)
    ensures r.Ok? <==> h.bitsPerSample > 0 && h.bitsPerSample % 8 == 0
    ensures h.bitsPerSample == 0 ==> r == Err(ErrorMessage("bits per sample must be non-zero"))
    ensures h.bitsPerSample % 8 != 0 ==> r == Err(ErrorMessage("bits per sample must be multiple of 8"))
  {
    if h.bitsPerSample == 0 then Err(ErrorMessage("bits per sample must be non-zero"))
    else if h.bitsPerSample % 8 != 0 then Err(ErrorMessage("bits per sample must be multiple of 8"))
    else Ok(())
  }

  /** `validate_ima_adpcm`: exactly 4 bits per sample. */
  function ValidateImaAdpcm(h: WavHeader): (r: MsgResult<()>)
    ensures r.Ok? <==> h.bitsPerSample == 4
    ensures r.Err? ==> r.error == ErrorMessage("IMA ADPCM must have 4 bits per sample")
  {
    if h.bitsPerSample != 4 then Err(ErrorMessage("IMA ADPCM must have 4 bits per sample")) else Ok(())
  }

  /** The formats a WAV file may declare, with the sample widths each allows. */
  predicate Acceptable(h: WavHeader)
  {
    Count(h.channels) != 0 && h.sampleRate != 0
    && match h.formatCode
       case 1 => h.bitsPerSample > 0 && h.bitsPerSample % 8 == 0
       case 3 => h.bitsPerSample > 0 && h.bitsPerSample % 8 == 0
       case 0x11 => h.bitsPerSample == 4
       case _ => false
  }

  /** `validate`: channels, then sample rate, then the format code and its sample width. */
  function Validate(h: WavHeader): (r: MsgResult<()>)
    ensures r.Ok? <==> Acceptable(h)
    ensures Count(h.channels) == 0 ==> r == Err(ErrorMessage("channels must be non-zero"))
    ensures Count(h.channels) != 0 && h.sampleRate == 0 ==> r == Err(ErrorMessage("sample rate must be non-zero"))
    ensures Count(h.channels) != 0 && h.sampleRate != 0 && h.formatCode !in {1, 3, 0x11} ==>
              r == Err(ErrorMessage("audio format code " + Decimal(h.formatCode) + " is not supported"))
    ensures r.Err? ==> r.error.kind == Error
  {
    if Count(h.channels) == 0 then Err(ErrorMessage("channels must be non-zero"))
    else if h.sampleRate == 0 then Err(ErrorMessage("sample rate must be non-zero"))
    else match h.formatCode
      case 1 => ValidatePcmBits(h)
      case 3 => ValidatePcmBits(h)
      case 0x11 => ValidateImaAdpcm(h)
      case code => Err(ErrorMessage("audio format code " + Decimal(code) + " is not supported"))
  }

  /** A valid PCM header has whole, non-empty frames. */
  lemma ValidPcmFramesAreNonEmpty(h: WavHeader)
    requires Validate(h).Ok? && h.formatCode != 0x11
    ensures WavFormats.BytesPerSample(ToFormat(h)) >= 1 && BytesPerFrame(ToFormat(h)) >= 1
    ensures WavFormats.BytesPerSample(ToFormat(h)) * 8 == h.bitsPerSample
  {
  }

  /** A valid IMA ADPCM header has 4-bit samples, which `block_align` rounds down to 0 bytes. */
  lemma ValidAdpcmHasZeroBlockAlign(h: WavHeader)
    requires Validate(h).Ok? && h.formatCode == 0x11
    ensures BlockAlign(ToFormat(h)) == 0 && BytesPerFrame(ToFormat(h)) == 0
  {
  }

  /** A valid PCM header whose frame is exactly 65536 bytes wide also gets `block_align` 0. */
  lemma WideValidFrameWrapsBlockAlign()
    ensures var h := WavHeader(Custom(128), 8000, 0, 0, 4096, 1);
            Validate(h).Ok? && BytesPerFrame(ToFormat(h)) == U16_LIMIT && BlockAlign(ToFormat(h)) == 0
  {
  }
}
