/** Decoded audio frames: sample formats, channel layouts and frame sizes (src/core/frame/audio.rs). */
module AudioFrames {
  import opened Wrappers
  import opened Ints

  datatype AudioFormat = PCM16 | PCM24 | PCM32 | FLAC | AAC | OPUS | ADPCM

  datatype Channels = Mono | Stereo | Quad | Surround | SevenPointOne | Custom(c: u8)

  /** The number of channels of a layout. */
  function Count(ch: Channels): u8
  {
    match ch
    case Mono => 1
    case Stereo => 2
    case Quad => 4
    case Surround => 6
    case SevenPointOne => 8
    case Custom(c) => c
  }

  /** The layout's display name; a custom layout is shown as its count followed by " channels". */
  function Name(ch: Channels): string
  {
    match ch
    case Mono => "mono"
    case Stereo => "stereo"
    case Quad => "quad"
    case Surround => "5.1"
    case SevenPointOne => "7.1"
    case Custom(c) => Decimal(c) + " channels"
  }

  /** `from_count`: the named layout for 1, 2, 4, 6 and 8 channels, a custom one otherwise. */
  function FromCount(count: u8): Channels
  {
    match count
    case 1 => Mono
    case 2 => Stereo
    case 4 => Quad
    case 6 => Surround
    case 8 => SevenPointOne
    case _ => Custom(count)
  }

  /** A layout is canonical when `from_count` can produce it. */
  predicate Canonical(ch: Channels)
  {
    ch.Custom? ==> ch.c !in {1, 2, 4, 6, 8}
  }

  /** `from_count` keeps the count and always gives a canonical layout. */
  lemma FromCountKeepsCount(count: u8)
    ensures Count(FromCount(count)) == count
    ensures Canonical(FromCount(count))
  {
  }

  /** Converting a layout's count back gives the same layout exactly when the layout is canonical. */
  lemma FromCountOfCount(ch: Channels)
    ensures FromCount(Count(ch)) == ch <==> Canonical(ch)
  {
  }

  /** A custom layout's name never coincides with a named layout's name. */
  lemma CustomNamesDiffer(c: u8, named: Channels)
    requires !named.Custom?
    ensures Name(Custom(c)) != Name(named)
  {
    var n := Name(Custom(c));
    assert n[|n| - 1] == 's';
    assert n[|n| - 2] == 'l';
  }

  /** Bytes per sample of the interleaved PCM formats; compressed formats have none. */
  function BytesPerSample(format: AudioFormat): (bps: Option<nat>)
    ensures bps.Some? <==> format in {PCM16, PCM24, PCM32}
    ensures bps.Some? ==> 2 <= bps.value <= 4
  {
    match format
    case PCM16 => Some(2)
    case PCM24 => Some(3)
    case PCM32 => Some(4)
    case _ => None
  }

  datatype FrameAudio = FrameAudio(
    data: seq<u8>, sampleRate: u32, channels: Channels, nbSamples: nat, format: AudioFormat)

  /**
   * `FrameAudio::new`: for PCM the sample count is the number of whole
   * samples-per-channel in `data`; for compressed formats it is 0.  A PCM
   * frame with zero channels divides by zero in the source, hence the requires.
   */
  function NewFrameAudio(data: seq<u8>, sampleRate: u32, channels: Channels, format: AudioFormat): (f: FrameAudio)
    requires BytesPerSample(format).Some? ==> Count(channels) > 0
    ensures f.data == data && f.sampleRate == sampleRate && f.channels == channels && f.format == format
    ensures BytesPerSample(format).None? ==> f.nbSamples == 0
    ensures BytesPerSample(format).Some? ==>
      var unit := Count(channels) * BytesPerSample(format).value;
      f.nbSamples * unit <= |data| < (f.nbSamples + 1) * unit
  {
    match BytesPerSample(format)
    case Some(bps) =>
      var unit := Count(channels) * bps;
      DivBounds(|data|, unit);
      FrameAudio(data, sampleRate, channels, |data| / unit, format)
    case None => FrameAudio(data, sampleRate, channels, 0, format)
  }

  /** `frame_size`: bytes covered by `nb_samples` samples on every channel. */
  function FrameSize(f: FrameAudio): (size: Option<nat>)
    ensures size.Some? <==> BytesPerSample(f.format).Some?
    ensures size.Some? ==> size.value == BytesPerSample(f.format).value * Count(f.channels) * f.nbSamples
  {
    match BytesPerSample(f.format)
    case Some(bps) => Some(bps * Count(f.channels) * f.nbSamples)
    case None => None
  }

  /** A freshly built PCM frame's size covers its data except a trailing partial sample. */
  lemma NewFrameSizeCoversData(data: seq<u8>, sampleRate: u32, channels: Channels, format: AudioFormat)
    requires BytesPerSample(format).Some? && Count(channels) > 0
    ensures var f := NewFrameAudio(data, sampleRate, channels, format);
      var unit := Count(channels) * BytesPerSample(format).value;
      FrameSize(f).value <= |data| < FrameSize(f).value + unit
  {
    var f := NewFrameAudio(data, sampleRate, channels, format);
    var bps, n := BytesPerSample(format).value, f.nbSamples;
    var unit := Count(channels) * bps;
    ProductRegroup(bps, Count(channels), n);
    MulSucc(n, unit);
  }

  function WithNbSamples(f: FrameAudio, nbSamples: nat): (g: FrameAudio)
    ensures g.nbSamples == nbSamples
    ensures g.data == f.data && g.sampleRate == f.sampleRate && g.channels == f.channels && g.format == f.format
  {
    f.(nbSamples := nbSamples)
  }

  function WithFormat(f: FrameAudio, format: AudioFormat): (g: FrameAudio)
    ensures g.format == format
    ensures g.data == f.data && g.sampleRate == f.sampleRate && g.channels == f.channels && g.nbSamples == f.nbSamples
  {
    f.(format := format)
  }

  /** `is_compressed`: the format has no fixed sample size. */
  function IsCompressed(f: FrameAudio): (compressed: bool)
    ensures compressed <==> f.format in {FLAC, AAC, OPUS, ADPCM}
    ensures compressed <==> FrameSize(f).None?
  {
    BytesPerSample(f.format).None?
  }
}
