/**
 * Which codecs each output container accepts (src/core/compatible.rs).
 *
 * The container name constants live in a module that is not part of this
 * model; they are represented here by their lower-case names, which are
 * pairwise distinct.
 */
module Compatibility {
  import opened Wrappers
  import opened IoError
  import opened CodecNames

  // containers
  const MP4: string := "mp4"
  const MKV: string := "mkv"
  const MOV: string := "mov"
  const WEBM: string := "webm"
  const AVI: string := "avi"
  const OGV: string := "ogv"
  const FLV: string := "flv"
  const MXF: string := "mxf"
  const TS: string := "ts"
  const MP3_CONTAINER: string := "mp3"
  const AAC_CONTAINER: string := "aac"
  const OPUS_CONTAINER: string := "opus"
  const FLAC_CONTAINER: string := "flac"
  const WAV: string := "wav"
  const M4A: string := "m4a"
  const ALAC_CONTAINER: string := "alac"
  const OGG: string := "ogg"
  const RAW: string := "raw"
  const PCM: string := "pcm"

  function Elements(names: seq<string>): set<string>
  {
    set n | n in names
  }

  /** The message a codec check fails with. */
  function CodecRefusal(codec: string, container: string): string
  {
    "codec '" + codec + "' not supported in '" + container + "'"
  }

  function NotSupported(name: string): string
  {
    "'" + name + "' is not supported"
  }

  /** What one container accepts; the `supports_*` methods add to its sets. */
  class ContainerCompatible {
    const name: string
    var videoCodecs: set<string>
    var audioCodecs: set<string>
    var subtitleFormats: set<string>

    /** `ContainerCompatible::new`: accepts nothing yet. */
    constructor (name: string)
      ensures this.name == name && videoCodecs == {} && audioCodecs == {} && subtitleFormats == {}
    {
      this.name := name;
      videoCodecs, audioCodecs, subtitleFormats := {}, {}, {};
    }

    method SupportsVideo(codecs: seq<string>)
      modifies this
      ensures videoCodecs == old(videoCodecs) + Elements(codecs)
      ensures audioCodecs == old(audioCodecs) && subtitleFormats == old(subtitleFormats)
    {
      videoCodecs := videoCodecs + Elements(codecs);
    }

    method SupportsAudio(codecs: seq<string>)
      modifies this
      ensures audioCodecs == old(audioCodecs) + Elements(codecs)
      ensures videoCodecs == old(videoCodecs) && subtitleFormats == old(subtitleFormats)
    {
      audioCodecs := audioCodecs + Elements(codecs);
    }

    method SupportsSubtitles(formats: seq<string>)
      modifies this
      ensures subtitleFormats == old(subtitleFormats) + Elements(formats)
      ensures videoCodecs == old(videoCodecs) && audioCodecs == old(audioCodecs)
    {
      subtitleFormats := subtitleFormats + Elements(formats);
    }

    /** `assert_video_codec`: succeeds exactly for an accepted codec, otherwise invalid data naming both. */
    function AssertVideoCodec(codec: string): (r: IoResult<()>)
      reads this
      ensures r.Ok? <==> codec in videoCodecs
      ensures r.Err? ==> r.error == InvalidDataError(CodecRefusal(codec, name))
    {
      if codec in videoCodecs then Ok(()) else Err(InvalidDataError(CodecRefusal(codec, name)))
    }

    function AssertAudioCodec(codec: string): (r: IoResult<()>)
      reads this
      ensures r.Ok? <==> codec in audioCodecs
      ensures r.Err? ==> r.error == InvalidDataError(CodecRefusal(codec, name))
    {
      if codec in audioCodecs then Ok(()) else Err(InvalidDataError(CodecRefusal(codec, name)))
    }

    function AssertSubtitleFormat(format: string): (r: IoResult<()>)
      reads this
      ensures r.Ok? <==> format in subtitleFormats
      ensures r.Err? ==> r.error == InvalidDataError("format '" + format + "' not supported in '" + name + "'")
    {
      if format in subtitleFormats then Ok(())
      else Err(InvalidDataError("format '" + format + "' not supported in '" + name + "'"))
    }
  }

  /** One entry of the table: a container and the three calls that fill it. */
  method Entry(name: string, video: seq<string>, audio: seq<string>, subtitles: seq<string>)
    returns (c: ContainerCompatible)
    ensures fresh(c) && c.name == name
    ensures c.videoCodecs == Elements(video) && c.audioCodecs == Elements(audio)
    ensures c.subtitleFormats == Elements(subtitles)
  {
    c := new ContainerCompatible(name);
    c.SupportsVideo(video);
    c.SupportsAudio(audio);
    c.SupportsSubtitles(subtitles);
  }

  /** The entry for `key` in `g` has this name and accepts exactly these codecs and formats. */
  ghost predicate Accepts(g: map<string, ContainerCompatible>, key: string,
                          video: set<string>, audio: set<string>, subtitles: set<string>)
    reads g.Values
  {
    key in g && g[key].name == key && g[key].videoCodecs == video
    && g[key].audioCodecs == audio && g[key].subtitleFormats == subtitles
  }

  ghost predicate FirstVideoContainers(g: map<string, ContainerCompatible>)
    reads g.Values
  {
    g.Keys == {MP4, MKV, MOV, WEBM, AVI} && FirstVideoEntries(g)
  }

  ghost predicate FirstVideoEntries(g: map<string, ContainerCompatible>)
    reads g.Values
  {
    Accepts(g, MP4, {H264, H265}, {AAC, MP3}, {MOV_TEXT})
    && Accepts(g, MKV, {H264, H265, VP9, AV1}, {AAC, VORBIS, OPUS, MP3}, {SRT, ASS, VTT})
    && Accepts(g, MOV, {H264, H265}, {AAC, MP3}, {MOV_TEXT})
    && Accepts(g, WEBM, {VP8, VP9, AV1}, {VORBIS, OPUS}, {VTT})
    && Accepts(g, AVI, {MPEG4, H264}, {MP3, AAC}, {})
  }

  ghost predicate OtherVideoContainers(g: map<string, ContainerCompatible>)
    reads g.Values
  {
    g.Keys == {OGV, FLV, MXF, TS} && OtherVideoEntries(g)
  }

  ghost predicate OtherVideoEntries(g: map<string, ContainerCompatible>)
    reads g.Values
  {
    Accepts(g, OGV, {THEORA}, {VORBIS}, {})
    && Accepts(g, FLV, {H264, VP6}, {MP3}, {})
    && Accepts(g, MXF, {MPEG2, H264, H265}, {PCM_S16LE, AAC}, {})
    && Accepts(g, TS, {H264, H265, MPEG2}, {AAC, MP2}, {})
  }

  ghost predicate CompressedAudioContainers(g: map<string, ContainerCompatible>)
    reads g.Values
  {
    g.Keys == {MP3_CONTAINER, AAC_CONTAINER, OPUS_CONTAINER, FLAC_CONTAINER, M4A} && CompressedAudioEntries(g)
  }

  ghost predicate CompressedAudioEntries(g: map<string, ContainerCompatible>)
    reads g.Values
  {
    Accepts(g, MP3_CONTAINER, {}, {MP3}, {})
    && Accepts(g, AAC_CONTAINER, {}, {AAC}, {})
    && Accepts(g, OPUS_CONTAINER, {}, {OPUS}, {})
    && Accepts(g, FLAC_CONTAINER, {}, {FLAC}, {})
    && Accepts(g, M4A, {}, {AAC, ALAC}, {})
  }

  ghost predicate OtherAudioContainers(g: map<string, ContainerCompatible>)
    reads g.Values
  {
    g.Keys == {WAV, ALAC_CONTAINER, OGG, RAW, PCM} && OtherAudioEntries(g)
  }

  ghost predicate OtherAudioEntries(g: map<string, ContainerCompatible>)
    reads g.Values
  {
    Accepts(g, WAV, {}, {PCM_S16LE, PCM_S24LE, PCM_F32LE}, {})
    && Accepts(g, ALAC_CONTAINER, {}, {ALAC}, {})
    && Accepts(g, OGG, {}, {VORBIS, OPUS}, {})
    && Accepts(g, RAW, {}, {PCM_S16LE, PCM_S24LE, PCM_F32LE}, {})
    && Accepts(g, PCM, {}, {PCM_S16LE, PCM_S24LE, PCM_F32LE}, {})
  }

  method FirstVideoTable() returns (g: map<string, ContainerCompatible>)
    ensures FirstVideoContainers(g)
  {
    var mp4 := Entry(MP4, [H264, H265], [AAC, MP3], [MOV_TEXT]);
    var mkv := Entry(MKV, [H264, H265, VP9, AV1], [AAC, VORBIS, OPUS, MP3], [SRT, ASS, VTT]);
    var mov := Entry(MOV, [H264, H265], [AAC, MP3], [MOV_TEXT]);
    var webm := Entry(WEBM, [VP8, VP9, AV1], [VORBIS, OPUS], [VTT]);
    var avi := Entry(AVI, [MPEG4, H264], [MP3, AAC], []);
    g := map[MP4 := mp4, MKV := mkv, MOV := mov, WEBM := webm, AVI := avi];
  }

  method OtherVideoTable() returns (g: map<string, ContainerCompatible>)
    ensures OtherVideoContainers(g)
  {
    var ogv := Entry(OGV, [THEORA], [VORBIS], []);
    var flv := Entry(FLV, [H264, VP6], [MP3], []);
    var mxf := Entry(MXF, [MPEG2, H264, H265], [PCM_S16LE, AAC], []);
    var ts := Entry(TS, [H264, H265, MPEG2], [AAC, MP2], []);
    g := map[OGV := ogv, FLV := flv, MXF := mxf, TS := ts];
  }

  method CompressedAudioTable() returns (g: map<string, ContainerCompatible>)
    ensures CompressedAudioContainers(g)
  {
    var mp3 := Entry(MP3_CONTAINER, [], [MP3], []);
    var aac := Entry(AAC_CONTAINER, [], [AAC], []);
    var opus := Entry(OPUS_CONTAINER, [], [OPUS], []);
    var flac := Entry(FLAC_CONTAINER, [], [FLAC], []);
    var m4a := Entry(M4A, [], [AAC, ALAC], []);
    g := map[MP3_CONTAINER := mp3, AAC_CONTAINER := aac, OPUS_CONTAINER := opus,
             FLAC_CONTAINER := flac, M4A := m4a];
  }

  method OtherAudioTable() returns (g: map<string, ContainerCompatible>)
    ensures OtherAudioContainers(g)
  {
    var wav := Entry(WAV, [], [PCM_S16LE, PCM_S24LE, PCM_F32LE], []);
    var alac := Entry(ALAC_CONTAINER, [], [ALAC], []);
    var ogg := Entry(OGG, [], [VORBIS, OPUS], []);
    var raw := Entry(RAW, [], [PCM_S16LE, PCM_S24LE, PCM_F32LE], []);
    var pcm := Entry(PCM, [], [PCM_S16LE, PCM_S24LE, PCM_F32LE], []);
    g := map[WAV := wav, ALAC_CONTAINER := alac, OGG := ogg, RAW := raw, PCM := pcm];
  }

  /** A group whose keys the later groups do not share keeps its entries in the union. */
  lemma FirstGroupKept(first: map<string, ContainerCompatible>, other: map<string, ContainerCompatible>,
                       compressed: map<string, ContainerCompatible>, audio: map<string, ContainerCompatible>)
    requires FirstVideoContainers(first)
    requires other.Keys == {OGV, FLV, MXF, TS}
    requires compressed.Keys == {MP3_CONTAINER, AAC_CONTAINER, OPUS_CONTAINER, FLAC_CONTAINER, M4A}
    requires audio.Keys == {WAV, ALAC_CONTAINER, OGG, RAW, PCM}
    ensures FirstVideoEntries(first + other + compressed + audio)
  {
    assert first.Keys !! other.Keys;
    assert first.Keys !! compressed.Keys;
    assert first.Keys !! audio.Keys;
    assert forall k :: k in first ==> (first + other + compressed + audio)[k] == first[k];
  }

  lemma SecondGroupKept(first: map<string, ContainerCompatible>, other: map<string, ContainerCompatible>,
                        compressed: map<string, ContainerCompatible>, audio: map<string, ContainerCompatible>)
    requires OtherVideoContainers(other)
    requires compressed.Keys == {MP3_CONTAINER, AAC_CONTAINER, OPUS_CONTAINER, FLAC_CONTAINER, M4A}
    requires audio.Keys == {WAV, ALAC_CONTAINER, OGG, RAW, PCM}
    ensures OtherVideoEntries(first + other + compressed + audio)
  {
    assert other.Keys !! compressed.Keys;
    assert other.Keys !! audio.Keys;
    assert forall k :: k in other ==> (first + other + compressed + audio)[k] == other[k];
  }

  lemma ThirdGroupKept(front: map<string, ContainerCompatible>, compressed: map<string, ContainerCompatible>,
                       audio: map<string, ContainerCompatible>)
    requires CompressedAudioContainers(compressed)
    requires audio.Keys == {WAV, ALAC_CONTAINER, OGG, RAW, PCM}
    ensures CompressedAudioEntries(front + compressed + audio)
  {
    assert compressed.Keys !! audio.Keys;
    assert forall k :: k in compressed ==> (front + compressed + audio)[k] == compressed[k];
  }

  lemma LastGroupKept(front: map<string, ContainerCompatible>, audio: map<string, ContainerCompatible>)
    requires OtherAudioContainers(audio)
    ensures OtherAudioEntries(front + audio)
  {
    assert forall k :: k in audio ==> (front + audio)[k] == audio[k];
  }

  /** The four groups' keys together. */
  lemma AssembledKeys(first: map<string, ContainerCompatible>, other: map<string, ContainerCompatible>,
                      compressed: map<string, ContainerCompatible>, audio: map<string, ContainerCompatible>)
    requires first.Keys == {MP4, MKV, MOV, WEBM, AVI}
    requires other.Keys == {OGV, FLV, MXF, TS}
    requires compressed.Keys == {MP3_CONTAINER, AAC_CONTAINER, OPUS_CONTAINER, FLAC_CONTAINER, M4A}
    requires audio.Keys == {WAV, ALAC_CONTAINER, OGG, RAW, PCM}
    ensures (first + other + compressed + audio).Keys
            == {MP4, MKV, MOV, WEBM, AVI, OGV, FLV, MXF, TS, MP3_CONTAINER, AAC_CONTAINER,
                OPUS_CONTAINER, FLAC_CONTAINER, WAV, M4A, ALAC_CONTAINER, OGG, RAW, PCM}
  {
  }

  /** The table `Compatible::new` builds. */
  ghost predicate StandardTable(g: map<string, ContainerCompatible>)
    reads g.Values
  {
    g.Keys == {MP4, MKV, MOV, WEBM, AVI, OGV, FLV, MXF, TS, MP3_CONTAINER, AAC_CONTAINER,
               OPUS_CONTAINER, FLAC_CONTAINER, WAV, M4A, ALAC_CONTAINER, OGG, RAW, PCM}
    && FirstVideoEntries(g) && OtherVideoEntries(g)
    && CompressedAudioEntries(g) && OtherAudioEntries(g)
  }

  lemma Assemble(first: map<string, ContainerCompatible>, other: map<string, ContainerCompatible>,
                 compressed: map<string, ContainerCompatible>, audio: map<string, ContainerCompatible>)
    requires FirstVideoContainers(first) && OtherVideoContainers(other)
    requires CompressedAudioContainers(compressed) && OtherAudioContainers(audio)
    ensures StandardTable(first + other + compressed + audio)
  {
    FirstGroupKept(first, other, compressed, audio);
    SecondGroupKept(first, other, compressed, audio);
    ThirdGroupKept(first + other, compressed, audio);
    LastGroupKept(first + other + compressed, audio);
    AssembledKeys(first, other, compressed, audio);
  }

  /** The graph of `Compatible::new`, one insertion per container. */
  method StandardGraph() returns (g: map<string, ContainerCompatible>)
    ensures StandardTable(g)
  {
    var first := FirstVideoTable();
    var other := OtherVideoTable();
    var compressed := CompressedAudioTable();
    var audio := OtherAudioTable();
    Assemble(first, other, compressed, audio);
    g := first + other + compressed + audio;
  }

  /** The container table keyed by extension. */
  class Compatible {
    const graph: map<string, ContainerCompatible>

    ghost predicate IsStandardTable()
      reads this, graph.Values
    {
      StandardTable(graph)
    }

    /** `Compatible::new`. */
    constructor ()
      ensures IsStandardTable()
    {
      var g := StandardGraph();
      graph := g;
    }

    /** `container`: the entry for an extension, if any. */
    function Container(extension: string): (c: Option<ContainerCompatible>)
      reads this
      ensures c.Some? <==> extension in graph
      ensures c.Some? ==> c.value == graph[extension]
    {
      if extension in graph then Some(graph[extension]) else None
    }

    function AssertContainerSupported(extension: string): (r: IoResult<()>)
      reads this
      ensures r.Ok? <==> extension in graph
      ensures r.Err? ==> r.error == InvalidDataError(NotSupported(extension))
    {
      if extension in graph then Ok(()) else Err(InvalidDataError(NotSupported(extension)))
    }

    /** `assert_video_supported`: the container must be known and accept the codec. */
    function AssertVideoSupported(container: string, codec: string): (r: IoResult<()>)
      reads this, graph.Values
      ensures r.Ok? <==> container in graph && codec in graph[container].videoCodecs
      ensures container !in graph ==> r == Err(InvalidDataError(NotSupported(container)))
    {
      match Container(container)
      case Some(c) => c.AssertVideoCodec(codec)
      case None => Err(InvalidDataError(NotSupported(container)))
    }

    function AssertAudioSupported(container: string, codec: string): (r: IoResult<()>)
      reads this, graph.Values
      ensures r.Ok? <==> container in graph && codec in graph[container].audioCodecs
      ensures container !in graph ==> r == Err(InvalidDataError(NotSupported(container)))
    {
      match Container(container)
      case Some(c) => c.AssertAudioCodec(codec)
      case None => Err(InvalidDataError(NotSupported(container)))
    }

    function AssertSubtitleSupported(container: string, format: string): (r: IoResult<()>)
      reads this, graph.Values
      ensures r.Ok? <==> container in graph && format in graph[container].subtitleFormats
      ensures container !in graph ==> r == Err(InvalidDataError(NotSupported(container)))
    {
      match Container(container)
      case Some(c) => c.AssertSubtitleFormat(format)
      case None => Err(InvalidDataError(NotSupported(container)))
    }

    /** `assert_subtitle_format_supported` performs the same check as `assert_subtitle_supported`. */
    function AssertSubtitleFormatSupported(container: string, format: string): (r: IoResult<()>)
      reads this, graph.Values
      ensures r == AssertSubtitleSupported(container, format)
    {
      match Container(container)
      case Some(c) => c.AssertSubtitleFormat(format)
      case None => Err(InvalidDataError(NotSupported(container)))
    }
  }

  /** A WAV file accepts exactly the three PCM codecs, and so do the raw and pcm outputs. */
  lemma WavAcceptsExactlyPcm(table: Compatible, codec: string)
    requires table.IsStandardTable()
    ensures table.AssertAudioSupported(WAV, codec).Ok? <==> codec in {PCM_S16LE, PCM_S24LE, PCM_F32LE}
    ensures table.AssertAudioSupported(RAW, codec).Ok? <==> codec in {PCM_S16LE, PCM_S24LE, PCM_F32LE}
    ensures table.AssertAudioSupported(PCM, codec).Ok? <==> codec in {PCM_S16LE, PCM_S24LE, PCM_F32LE}
    ensures table.AssertVideoSupported(WAV, codec).Err?
  {
  }

  /** An MP3 file accepts only the MP3 codec and no video or subtitles. */
  lemma Mp3AcceptsOnlyMp3(table: Compatible, codec: string)
    requires table.IsStandardTable()
    ensures table.AssertAudioSupported(MP3_CONTAINER, codec).Ok? <==> codec == MP3
    ensures table.AssertVideoSupported(MP3_CONTAINER, codec).Err?
    ensures table.AssertSubtitleSupported(MP3_CONTAINER, codec).Err?
  {
  }

  /** Only Matroska, MP4, MOV and WebM carry subtitles. */
  lemma SubtitleContainers(table: Compatible, container: string, format: string)
    requires table.IsStandardTable()
    requires table.AssertSubtitleSupported(container, format).Ok?
    ensures container in {MKV, MP4, MOV, WEBM}
  {
  }

  /** An unknown extension is refused by every check with the same message. */
  lemma UnknownContainerRefused(table: Compatible, container: string, codec: string)
    requires table.IsStandardTable()
    requires container !in table.graph
    ensures table.AssertContainerSupported(container) == Err(InvalidDataError(NotSupported(container)))
    ensures table.AssertAudioSupported(container, codec) == table.AssertContainerSupported(container)
    ensures table.AssertVideoSupported(container, codec) == table.AssertContainerSupported(container)
    ensures table.AssertSubtitleSupported(container, codec) == table.AssertContainerSupported(container)
  {
  }
}
