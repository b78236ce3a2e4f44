/**
 * The codec name constants (`codecs::video`, `codecs::audio`,
 * `codecs::subtitle`).  The module defining them is not part of this model;
 * they are represented by lower-case names that are pairwise distinct within
 * each group.
 */
module CodecNames {
  // video codecs
  const H264: string := "h264"
  const H265: string := "h265"
  const VP6: string := "vp6"
  const VP8: string := "vp8"
  const VP9: string := "vp9"
  const AV1: string := "av1"
  const MPEG2: string := "mpeg2"
  const MPEG4: string := "mpeg4"
  const THEORA: string := "theora"

  // audio codecs
  const AAC: string := "aac"
  const MP2: string := "mp2"
  const MP3: string := "mp3"
  const VORBIS: string := "vorbis"
  const OPUS: string := "opus"
  const FLAC: string := "flac"
  const ALAC: string := "alac"
  const PCM_S16LE: string := "pcm_s16le"
  const PCM_S24LE: string := "pcm_s24le"
  const PCM_F32LE: string := "pcm_f32le"

  // subtitle formats
  const MOV_TEXT: string := "mov_text"
  const SRT: string := "srt"
  const ASS: string := "ass"
  const VTT: string := "vtt"
}
