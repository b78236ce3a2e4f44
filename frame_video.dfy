/** Decoded video frames: pixel formats and their expected byte sizes (src/core/frame/video.rs). */
module VideoFrames {
  import opened Wrappers
  import opened Ints

  datatype VideoFormat = RGB24 | RGBA32 | YUV420 | YUV422 | YUV444 | GRAY8

  /** Bytes per pixel of the packed formats; the subsampled YUV formats have none. */
  function BytesPerPixel(format: VideoFormat): (bpp: Option<nat>)
    ensures bpp.None? <==> format in {YUV420, YUV422}
  {
    match format
    case RGB24 => Some(3)
    case RGBA32 => Some(4)
    case YUV444 => Some(3)
    case GRAY8 => Some(1)
    case _ => None
  }

  /**
   * `expected_size`: the byte size of one picture, computed in `u32` as the
   * source does (so it wraps when `width * height * 4` exceeds 32 bits).
   */
  function ExpectedSize(format: VideoFormat, width: u32, height: u32): u32
  {
    match format
    case RGB24 => WrapU32(width * height * 3)
    case RGBA32 => WrapU32(width * height * 4)
    case YUV444 => WrapU32(width * height * 3)
    case GRAY8 => WrapU32(width * height)
    case YUV420 => WrapU32(width * height * 3) / 2
    case YUV422 => WrapU32(width * height * 2)
  }

  /**
   * Without overflow the expected size is width x height x bytes per pixel;
   * YUV 4:2:0 takes one and a half bytes per pixel and YUV 4:2:2 two.
   */
  lemma ExpectedSizeAgreesWithBytesPerPixel(format: VideoFormat, width: u32, height: u32)
    requires width * height * 4 < U32_LIMIT
    ensures BytesPerPixel(format).Some? ==>
      ExpectedSize(format, width, height) == width * height * BytesPerPixel(format).value
    ensures format == YUV420 ==> ExpectedSize(format, width, height) == (width * height * 3) / 2
    ensures format == YUV422 ==> ExpectedSize(format, width, height) == width * height * 2
  {
    var a := width * height;
    assert 0 <= a;
    assert a * 4 < U32_LIMIT;
    match format
    case RGB24 => WrapSmall(a * 3);
    case RGBA32 => WrapSmall(a * 4);
    case YUV444 => WrapSmall(a * 3);
    case GRAY8 => WrapSmall(a);
    case YUV420 => WrapSmall(a * 3);
    case YUV422 => WrapSmall(a * 2);
  }

  lemma WrapSmall(x: int)
    requires 0 <= x < U32_LIMIT
    ensures WrapU32(x) == x
  {
  }

  datatype FrameVideo = FrameVideo(data: seq<u8>, width: u32, height: u32, format: VideoFormat, keyframe: bool)

  function NewFrameVideo(data: seq<u8>, width: u32, height: u32, format: VideoFormat, keyframe: bool): (f: FrameVideo)
    ensures f.data == data && f.width == width && f.height == height && f.format == format && f.keyframe == keyframe
  {
    FrameVideo(data, width, height, format, keyframe)
  }

  function FrameExpectedSize(f: FrameVideo): u32
  {
    ExpectedSize(f.format, f.width, f.height)
  }

  /** `is_valid`: the data holds exactly one picture of the frame's size and format. */
  function IsValid(f: FrameVideo): (valid: bool)
    ensures valid <==> |f.data| == ExpectedSize(f.format, f.width, f.height)
  {
    |f.data| == FrameExpectedSize(f)
  }

  /** A 2x2 RGB24 picture takes 12 bytes, so 12 bytes of data make a valid frame and 11 do not. */
  lemma SmallRgbFrameValidity(d12: seq<u8>, d11: seq<u8>)
    requires |d12| == 12 && |d11| == 11
    ensures IsValid(NewFrameVideo(d12, 2, 2, RGB24, true))
    ensures !IsValid(NewFrameVideo(d11, 2, 2, RGB24, true))
  {
  }
}
