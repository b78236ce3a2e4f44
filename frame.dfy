/**
 * The frame passed between decoders, transforms and encoders
 * (src/core/frame/mod.rs), with the subtitle payload of
 * src/core/frame/subtitle.rs.
 */
module Frames {
  import opened Wrappers
  import opened Ints
  import opened CoreTime
  import opened AudioFrames
  import opened VideoFrames

  datatype SubtitleFormat = SRT | ASS | VTT

  datatype FrameSubtitle = FrameSubtitle(data: seq<u8>, format: SubtitleFormat)

  datatype FrameKind = AudioKind | VideoKind | SubtitleKind

  datatype FrameData = AudioData(audio: FrameAudio) | VideoData(video: FrameVideo) | SubtitleData(subtitle: FrameSubtitle)

  datatype Frame = Frame(pts: i64, dts: Option<i64>, time: Time, streamIndex: nat, streamId: u32, data: FrameData)

  /** A new frame carries its payload, its unit, its indices, pts 0 and no dts. */
  predicate Fresh(f: Frame, time: Time, streamIndex: nat, streamId: u32)
  {
    f.pts == 0 && f.dts == None && f.time == time && f.streamIndex == streamIndex && f.streamId == streamId
  }

  function NewAudio(audio: FrameAudio, time: Time, streamIndex: nat, streamId: u32): (f: Frame)
    ensures Fresh(f, time, streamIndex, streamId) && Audio(f) == Some(audio)
  {
    Frame(0, None, time, streamIndex, streamId, AudioData(audio))
  }

  function NewVideo(video: FrameVideo, time: Time, streamIndex: nat, streamId: u32): (f: Frame)
    ensures Fresh(f, time, streamIndex, streamId) && Video(f) == Some(video)
  {
    Frame(0, None, time, streamIndex, streamId, VideoData(video))
  }

  function NewSubtitle(subtitle: FrameSubtitle, time: Time, streamIndex: nat, streamId: u32): (f: Frame)
    ensures Fresh(f, time, streamIndex, streamId) && Subtitle(f) == Some(subtitle)
  {
    Frame(0, None, time, streamIndex, streamId, SubtitleData(subtitle))
  }

  function WithPts(f: Frame, pts: i64): (g: Frame)
    ensures g.pts == pts && g == f.(pts := pts)
  {
    f.(pts := pts)
  }

  function WithDts(f: Frame, dts: i64): (g: Frame)
    ensures g.dts == Some(dts) && g == f.(dts := Some(dts))
  {
    f.(dts := Some(dts))
  }

  /** `size`: the byte length of whichever payload the frame holds. */
  function Size(f: Frame): nat
  {
    match f.data
    case AudioData(a) => |a.data|
    case VideoData(v) => |v.data|
    case SubtitleData(s) => |s.data|
  }

  function IsEmpty(f: Frame): (empty: bool)
    ensures empty <==> Size(f) == 0
  {
    Size(f) == 0
  }

  function Kind(f: Frame): FrameKind
  {
    match f.data
    case AudioData(_) => AudioKind
    case VideoData(_) => VideoKind
    case SubtitleData(_) => SubtitleKind
  }

  /** Only a video frame marked as a keyframe is a keyframe. */
  function IsKeyframe(f: Frame): (key: bool)
    ensures key <==> Video(f).Some? && Video(f).value.keyframe
  {
    f.data.VideoData? && f.data.video.keyframe
  }

  /** `audio()` (and `audio_mut()`): the audio payload if the frame holds one. */
  function Audio(f: Frame): Option<FrameAudio>
  {
    if f.data.AudioData? then Some(f.data.audio) else None
  }

  /** `video()` (and `video_mut()`). */
  function Video(f: Frame): Option<FrameVideo>
  {
    if f.data.VideoData? then Some(f.data.video) else None
  }

  /** `subtitle()` (and `subtitle_mut()`). */
  function Subtitle(f: Frame): Option<FrameSubtitle>
  {
    if f.data.SubtitleData? then Some(f.data.subtitle) else None
  }

  /** The kind names the one accessor that returns a payload, and that payload's size is the frame's size. */
  lemma KindMatchesAccessors(f: Frame)
    ensures Kind(f) == AudioKind <==> Audio(f).Some?
    ensures Kind(f) == VideoKind <==> Video(f).Some?
    ensures Kind(f) == SubtitleKind <==> Subtitle(f).Some?
    ensures Audio(f).Some? ==> Size(f) == |Audio(f).value.data|
    ensures Video(f).Some? ==> Size(f) == |Video(f).value.data|
    ensures Subtitle(f).Some? ==> Size(f) == |Subtitle(f).value.data|
  {
  }

  /** Setting the timestamps changes neither the payload nor the kind, size or keyframe flag. */
  lemma TimestampsKeepPayload(f: Frame, pts: i64, dts: i64)
    ensures var g := WithDts(WithPts(f, pts), dts);
      g.data == f.data && Kind(g) == Kind(f) && Size(g) == Size(f) && IsKeyframe(g) == IsKeyframe(f)
      && g.pts == pts && g.dts == Some(dts)
  {
  }
}
