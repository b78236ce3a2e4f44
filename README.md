# ffmpreg core, modelled in Dafny

ffmpreg is a small media toolkit written in Rust. It reads media files through its
own byte I/O layer, splits containers into packets, decodes packets into frames,
runs frames through transforms, and encodes and muxes them back. This project
models the toolkit's core, one Dafny module per Rust source file, and proves
properties of that model.

- **I/O.** The error kinds and their messages (`IoError`, `Messages`). The `MediaRead`
  and `MediaWrite` traits with their little/big-endian integer readers and writers
  (`IoReader`, `IoWriter`). The buffered reader and writer. The vector-backed
  seekable `Cursor` (`IoCursor`).
- **Core types.** Timebases and timestamps (`CoreTime`). Audio, video and legacy
  frames (`AudioFrames`, `VideoFrames`, `Frames`, `LegacyFrames`). Packets (`Packets`).
  Streams (`CoreStream`). The codec/container compatibility table (`Compatibility`).
  The demuxer trait (`DemuxerTrait`).
- **Containers.**
  - Raw PCM: format, demuxer and muxer (`RawFormats`, `RawDemuxers`, `RawMuxers`).
  - WAV: format (`WavFormats`), header checks (`WavHeaders`), chunk-walking
    demuxer with its `LIST`/`INFO` metadata (`WavDemuxers`, `Riff`), and the
    header-patching muxer (`WavMuxers`).
- **Codecs.**
  - PCM decoder and encoder (`PcmDecoders`, `PcmEncoders`).
  - The older PCM codec pair (`LegacyPcm`).
  - The IMA ADPCM block decoder (`AdpcmDecoders`).
  - The raw video codec (`RawVideo`).
  - The MPEG-1/2 Layer III audio decoder, split as the Rust file is split:
    - bit reading (`Mp3Bits`) and side information (`Mp3SideInfo`);
    - scale factors (`Mp3Scalefactors`);
    - Huffman decoding (`Mp3Huffman`);
    - requantization (`Mp3Requantize`);
    - stereo, reorder, alias reduction, IMDCT and frequency inversion (`Mp3Stages`);
    - the frame-level decoder with its bit reservoir and synthesis output (`Mp3Layer3`).
- **Command line and transforms.** Track selectors and subtitle options (`Tracks`,
  `Subtitles`). File-extension extraction (`CliUtils`). The transform chain (`Transforms`).

**How the model is built.**
- Objects whose methods update fields in place are classes whose methods state
  their whole new state. Examples: the cursor, the buffered reader and writer,
  the demuxers and muxers, the ADPCM decoder, the Layer III decoder.
- Loops over buffers are methods with loop invariants, proved against
  closed-form specification functions. Examples: the endian readers, the
  Layer III stages, ADPCM, the WAV chunk walk.
- Pure parsing and formatting code is functions over datatypes, with lemmas.
- A Rust panic (an index out of range, a `usize` subtraction that underflows)
  is either a `requires` or an explicit `Panic`/`Panicked` outcome. Which one
  is used depends on whether the surrounding code can reach it on valid input.
- Integer arithmetic that wraps in a release build is written out modulo
  `2^k` (the `Ints` module).
- Generic readers and writers (`R: MediaRead`, `W: MediaWrite`) are
  represented by scripted stand-ins, `IoReader.Source` and `IoWriter.Sink`.
  These replay a script of partial reads or writes and failures. With an
  empty script they behave exactly like the `&[u8]` reader and the
  `Vec<u8>` writer. The WAV muxer is the exception: its writer must also
  seek (`W: MediaWrite + MediaSeek`), and it is modelled over the
  vector-backed `IoCursor.Cursor`, whose writes never fail.
- Code whose source is not part of this model is passed in as a parameter
  and its results are taken as given. This covers the Layer III Huffman
  tables, IMDCT, windowing, synthesis filterbank and power law, and the
  ADPCM nibble step and sample converters.

The model follows the code as written, including behaviour that is probably
not what the authors intended:
- The WAV muxer's `LIST` size leaves out the 4-byte `INFO` tag.
  Shown in `WavMuxers`.
- The muxer's RIFF size is right only for a 16-byte `fmt ` chunk.
  Shown in `WavMuxers`.
- The muxer writes the `LIST` chunk after `data`, where the demuxer (which
  stops at `data`) never reads it back. Shown in `WavMuxers`.
- The Layer III decoder ignores the granule number when it decodes scale
  factors. Bands that `scfsi` marks as shared are therefore skipped in
  both granules. The table starts at zero for every granule, so shared
  bands get scale factor 0, not the first granule's values. Shown in
  `Mp3Scalefactors.LongReads` and `Mp3Layer3.ReadChannel`.
- Every short block panics in the IMDCT: the 12-point windows are
  overlapped into indices up to 41 of a 36-value buffer. Stated in
  `Mp3Layer3.ChannelStages`.
- A mixed block is requantized by two separate loops: the first eight
  long bands, then short bands 3 to 12. A line inside both ranges is
  requantized twice, and a line inside neither is left as read. Stated for
  any band tables in `Mp3Requantize.MixedRequantize`.
- The WAV demuxer's `read_packet` divides by `block_align` to size its
  chunk. A valid IMA ADPCM header (4-bit samples) has `block_align` 0, and
  so does a 65536-byte frame once it wraps to 16 bits, so reading any data
  from such a file panics. Shown in `WavHeaders.ValidAdpcmHasZeroBlockAlign`,
  `WavHeaders.WideValidFrameWrapsBlockAlign` and
  `WavDemuxers.WavDemuxer.ReadPacket`; the raw demuxer divides the same way
  (`RawDemuxers.RawPcmDemuxer.ReadPacket`).

## Model

| member | source | states |
|---|---|---|
| IoError.New | src/io/mod.rs:38-41 | the error has the given kind and no message |
| IoError.WithMessage | src/io/mod.rs:43-47 | the error has the given kind and carries the given message |
| IoError.AccessorsInvertConstructors | src/io/mod.rs:49-57 | `kind()` and `message()` give back exactly what `new`/`with_message` were given |
| IoError.UnexpectedEofError | src/io/mod.rs:59-62 | kind `UnexpectedEof`, no message |
| IoError.WriteZeroError | src/io/mod.rs:64-67 | kind `WriteZero`, no message |
| IoError.InvalidDataError | src/io/mod.rs:69-72 | kind `InvalidData` carrying the message |
| IoError.NotSeekableError | src/io/mod.rs:74-77 | kind `NotSeekable`, no message |
| IoError.Display | src/io/mod.rs:88-95 | shows the message when present, otherwise the kind's `Debug` name |
| IoError.ToMessage | src/io/mod.rs:79-85 | an error-kind message whose text is the message, or the kind's name when there is none |
| IoError.ToMessageAgreesWithDisplay | src/io/mod.rs:79-95 | `to_message` and `Display` produce the same text for every error |
| IoError.KindDebugNameInjective | src/io/mod.rs:17-29 | distinct kinds have distinct `Debug` names, so a message-less text identifies its kind |
| IoError.FromStd | src/io/mod.rs:99-113 | no message; the result is `Other` exactly when the std kind is not one of the eight listed |
| IoError.FromStdInjectiveOnSharedKinds | src/io/mod.rs:101-111 | on the eight listed kinds the mapping is one to one |
| IoError.FromStdNeverNotSeekable | src/io/mod.rs:101-111 | the conversion never yields `NotSeekable` |
| Messages.KindNameInjective | src/message.rs:17-31 | the labels "error", "warning", "info" are pairwise distinct, so the label identifies the kind |
| Messages.ErrorMessage | src/message.rs:46-48 | kind `Error` with the given text |
| Messages.WarningMessage | src/message.rs:50-52 | kind `Warning` with the given text |
| Messages.InfoMessage | src/message.rs:54-56 | kind `Info` with the given text |
| Messages.FromStdIoError | src/message.rs:33-37 | an error message whose text is the I/O error's display text |
| IoWriter.Sink.constructor | src/io/writer.rs:4-8 | a sink starts with the given accepted bytes and answer script |
| IoWriter.Sink.Write | src/io/writer.rs:154-159 | an unscripted sink (the `Vec<u8>` writer) accepts the whole buffer and reports its length; a scripted one accepts at most its allowance or fails without accepting anything |
| IoWriter.Sink.Flush | src/io/writer.rs:161-164 | flushing the in-memory writer always succeeds |
| IoWriter.WriteAll | src/io/writer.rs:11-21 | on success every byte was appended in order; on failure only a proper prefix was appended and the error is either "write returned zero" or one the sink raised; a sink that accepts everything never fails |
| IoWriter.LeBytes | src/io/writer.rs:33-36 | `to_le_bytes` yields exactly the requested number of bytes |
| IoWriter.BeBytes | src/io/writer.rs:28-31 | `to_be_bytes` yields exactly the requested number of bytes |
| IoWriter.BeIsReversedLe | src/io/writer.rs:28-91 | the big-endian encoding of a value is its little-endian encoding reversed, for every width |
| IoWriter.WriteInt | src/io/writer.rs:23-91 | writing an integer appends exactly its encoding in the chosen byte order and width, and cannot fail on a sink that accepts everything |
| IoReader.Source.constructor | src/io/reader.rs:4-6 | a source starts with the given unread bytes and answer script |
| IoReader.Source.Read | src/io/reader.rs:257-265 | an unscripted source (the byte-slice reader) copies `min(remaining, room)` bytes into the buffer and drops them from its front; a scripted one delivers at most its allowance or fails leaving everything as it was |
| IoReader.ReadExact | src/io/reader.rs:9-20 | on success the buffer holds the next bytes of the source in order; with fewer bytes left than asked it fails, with "unexpected EOF" or a failure the source raised; an unscripted source succeeds exactly when enough bytes remain |
| IoReader.Pow256 | src/io/reader.rs:22-68 | the bound of an `n`-byte unsigned value is positive |
| IoReader.DecodedBound | src/io/reader.rs:22-68 | `from_le_bytes` and `from_be_bytes` of `n` bytes are below 256 to the power `n` |
| IoReader.LeRoundTrip | src/io/reader.rs:36-41 | reading little-endian what `to_le_bytes` wrote gives the value modulo the width |
| IoReader.BeRoundTrip | src/io/reader.rs:29-34 | reading big-endian what `to_be_bytes` wrote gives the value modulo the width |
| IoReader.LeBytesOfDecoded | src/io/reader.rs:36-41 | writing little-endian a value read little-endian gives back the same bytes |
| IoReader.BeBytesOfDecoded | src/io/reader.rs:29-34 | writing big-endian a value read big-endian gives back the same bytes |
| IoReader.SignedRoundTrip | src/io/reader.rs:71-118 | a signed value in range written with `write_iN_*` reads back unchanged with `read_iN_*`, in both byte orders |
| IoReader.UnsignedRoundTrip | src/io/reader.rs:22-69 | an unsigned value in range written with `write_uN_*` reads back unchanged with `read_uN_*`, in both byte orders |
| IoReader.ReadUInt | src/io/reader.rs:22-69 | on success the result is the next `size` bytes of the source decoded in the chosen order; an unscripted source succeeds exactly when `size` bytes remain |
| IoReader.ReadInt | src/io/reader.rs:71-118 | on success the result is the next `size` bytes read as two's complement in the chosen order; an unscripted source succeeds exactly when `size` bytes remain |
| IoReader.CopyInto | src/io/reader.rs:251 | `copy_from_slice` overwrites exactly the target range and leaves the rest of the buffer alone |
| IoReader.HandOut | src/io/reader.rs:249-253 | handing out `amt` buffered bytes keeps the stream order: what is handed out is the front of the stream and the rest follows |
| IoReader.BufferedReader.constructor | src/io/reader.rs:191-193 | a new buffered reader holds no buffered bytes |
| IoReader.BufferedReader.Consume | src/io/reader.rs:221-223 | the read position advances by `amt` but never past `filled`, dropping that many buffered bytes |
| IoReader.BufferedReader.DiscardBuffer | src/io/reader.rs:226-229 | position and fill level both return to zero |
| IoReader.BufferedReader.FillBuf | src/io/reader.rs:233-239 | the remaining stream is unchanged; buffered bytes are returned as they are, and an empty buffer is refilled from the source with at most one read |
| IoReader.BufferedReader.ReadFromBuffer | src/io/reader.rs:249-253 | the bytes copied out are the front of the remaining stream and are removed from it; on failure neither the stream nor the buffer changes |
| IoReader.BufferedReader.Read | src/io/reader.rs:243-254 | `read` hands out the front of the remaining stream in order; a caller buffer at least the capacity with nothing buffered bypasses the buffer after discarding it |
| IoReader.BufferedWriter.constructor | src/io/reader.rs:273-275 | a new buffered writer holds no buffered bytes |
| IoReader.BufferedWriter.FlushBuf | src/io/reader.rs:299-312 | on success the buffered bytes reached the sink in order and the buffer is empty; a sink that accepts everything never fails |
| IoReader.BufferedWriter.Write | src/io/reader.rs:316-325 | every accepted byte joins the accepted stream in order; small writes are buffered and report their full length, writes of at least the capacity go straight to the sink after a flush |
| IoReader.BufferedWriter.Flush | src/io/reader.rs:327-330 | on success everything accepted so far has reached the sink and the buffer is empty |
| IoCursor.Overwritten | src/io/cursor.rs:56-73 | the vector after a write is as long as the longer of the old vector and the written range |
| IoCursor.OverwrittenMeaning | src/io/cursor.rs:56-73 | after a write the written bytes sit at the position, every other old byte is kept, and any gap between the old end and the position is zeros |
| IoCursor.Cursor.constructor | src/io/cursor.rs:10-12 | a new cursor holds the given bytes at position 0 |
| IoCursor.Cursor.SetPosition | src/io/cursor.rs:35-37 | the position becomes the given value and the bytes are untouched |
| IoCursor.Cursor.Read | src/io/cursor.rs:41-52 | at or past the end nothing is copied; otherwise the next `min(remaining, room)` bytes are copied in order and the position advances by that count; reading never fails and never changes the bytes |
| IoCursor.Cursor.Write | src/io/cursor.rs:56-74 | the whole buffer is accepted, the vector becomes the padded-and-overwritten result, and the position moves past the written bytes |
| IoCursor.Cursor.Flush | src/io/cursor.rs:77-79 | flushing always succeeds |
| IoCursor.Cursor.Seek | src/io/cursor.rs:83-95 | a target that is negative as an `i64` is refused with the position unchanged; otherwise the position becomes the target and is returned; the bytes never change |
| IoCursor.SeekStartExact | src/io/cursor.rs:86 | seeking from the start to an offset below 2^63 lands exactly there |
| IoCursor.SeekStartHighBitRefused | src/io/cursor.rs:86-92 | a start offset of 2^63 or more turns negative in the `as i64` cast, so the seek is refused |
| IoCursor.SeekCurrentZeroIsPosition | src/io/cursor.rs:88 | seeking by zero from the current position reports that position |
| IoCursor.SeekEndZeroIsLength | src/io/cursor.rs:84-87 | seeking by zero from the end goes to the length of the vector |
| IoCursor.RewriteSameBytesIsIdentity | src/io/cursor.rs:56-73 | writing back the bytes already stored at the position leaves the vector unchanged |
| IoCursor.LastWriteWins | src/io/cursor.rs:56-73 | of two equal-length writes at the same position only the later one is visible |
| IoCursor.WriteSteps | src/io/cursor.rs:57-70 | the three steps of `write` (zero-pad, overwrite in place, append the rest) compute exactly `Overwritten` |
| IoCursor.ConsecutiveWrites | src/io/cursor.rs:56-73 | two writes, the second where the first stopped, equal one write of both buffers |
| IoCursor.AppendingWrite | src/io/cursor.rs:68-70 | a write at the end of the vector appends the buffer |
| IoCursor.OverwriteInside | src/io/cursor.rs:64-66 | overwriting bytes in the middle with as many new ones replaces exactly those bytes |
| IoCursor.WrittenConsecutive | src/io/writer.rs:11-21 | `write_all` calls that follow on from each other compose into one, empty buffers included |
| IoCursor.WriteAll | src/io/writer.rs:11-21 | `write_all` on a vector-backed cursor always succeeds, leaves the vector as one write of the whole buffer, and moves the position past it |
| CoreTime.NewTimebase | src/core/time.rs:8-11 | a time base is built only from a positive numerator and denominator (the source panics otherwise) and keeps both |
| Frames.NewAudio | src/core/frame/mod.rs:35-42 | a new audio frame has pts 0, no dts, the given unit and indices, and exactly the given audio payload |
| Frames.NewVideo | src/core/frame/mod.rs:44-51 | a new video frame has pts 0, no dts, the given unit and indices, and exactly the given video payload |
| Frames.NewSubtitle | src/core/frame/mod.rs:53-60 | a new subtitle frame has pts 0, no dts, the given unit and indices, and exactly the given subtitle payload |
| Frames.WithPts | src/core/frame/mod.rs:62-65 | only the pts changes |
| Frames.WithDts | src/core/frame/mod.rs:67-70 | only the dts changes, to the given value |
| Frames.IsEmpty | src/core/frame/mod.rs:72-82 | a frame is empty exactly when its payload has no bytes |
| Frames.IsKeyframe | src/core/frame/mod.rs:92-94 | a frame is a keyframe exactly when it is a video frame whose keyframe flag is set |
| Frames.KindMatchesAccessors | src/core/frame/mod.rs:72-140 | the frame's kind is the one whose accessor returns a payload, and that payload's length is the frame's size |
| Frames.TimestampsKeepPayload | src/core/frame/mod.rs:62-94 | setting pts and dts changes neither payload, kind, size nor keyframe flag |
| AudioFrames.FromCountKeepsCount | src/core/frame/audio.rs:23-55 | `from_count` keeps the channel count and picks the named layout whenever one exists |
| AudioFrames.FromCountOfCount | src/core/frame/audio.rs:23-55 | converting a layout's count back gives the same layout exactly when no named layout has that count or the layout is that named one |
| AudioFrames.CustomNamesDiffer | src/core/frame/audio.rs:34-43 | the name of a custom layout never equals the name of a named layout |
| AudioFrames.BytesPerSample | src/core/frame/audio.rs:59-66 | exactly the three PCM formats have a sample size, of 2 to 4 bytes |
| AudioFrames.NewFrameAudio | src/core/frame/audio.rs:79-85 | for PCM the sample count is the largest number of whole all-channel samples that fit in the data; compressed formats get 0; every other field is as given |
| AudioFrames.FrameSize | src/core/frame/audio.rs:87-89 | a frame size exists exactly for PCM formats and is bytes-per-sample times channels times samples |
| AudioFrames.NewFrameSizeCoversData | src/core/frame/audio.rs:79-89 | a freshly built PCM frame's size covers its data except at most a trailing partial sample |
| AudioFrames.WithNbSamples | src/core/frame/audio.rs:91-94 | only the sample count changes |
| AudioFrames.WithFormat | src/core/frame/audio.rs:96-99 | only the format changes |
| AudioFrames.IsCompressed | src/core/frame/audio.rs:101-103 | a frame is compressed exactly for FLAC, AAC, Opus and ADPCM, which are exactly the formats without a frame size |
| LegacyFrames.NewLegacyFrame | src/core/frame.rs:14-22 | a new legacy frame has pts 0 and every other field as given |
| LegacyFrames.WithPts | src/core/frame.rs:24-27 | only the pts changes |
| LegacyFrames.IsEmpty | src/core/frame.rs:29-35 | a legacy frame is empty exactly when its size is zero |
| VideoFrames.BytesPerPixel | src/core/frame/video.rs:12-20 | exactly the two subsampled YUV formats have no whole bytes-per-pixel |
| VideoFrames.ExpectedSizeAgreesWithBytesPerPixel | src/core/frame/video.rs:12-31 | when the 32-bit products do not overflow, the expected size is width times height times bytes per pixel, one and a half bytes per pixel for YUV 4:2:0 and two for YUV 4:2:2 |
| VideoFrames.NewFrameVideo | src/core/frame/video.rs:44-46 | a new video frame keeps every given field |
| VideoFrames.IsValid | src/core/frame/video.rs:48-54 | a frame is valid exactly when its data length is the expected size of its format and dimensions |
| VideoFrames.SmallRgbFrameValidity | src/core/frame/video.rs:22-54 | a 2x2 RGB24 frame is valid with 12 bytes of data and invalid with 11 |
| Packets.NewPacket | src/core/packet.rs:15-17 | a new packet has pts and dts 0, is neither a keyframe nor discarded, and keeps its data, stream id and unit |
| Packets.WithPts | src/core/packet.rs:19-22 | only the pts changes |
| Packets.WithDts | src/core/packet.rs:24-27 | only the dts changes |
| Packets.WithKeyframe | src/core/packet.rs:29-32 | only the keyframe flag changes |
| Packets.IsEmpty | src/core/packet.rs:38-40 | a packet is empty exactly when it has no data |
| Packets.SizeIsLengthBelowLimit | src/core/packet.rs:34-40 | below 4 GiB the `u32` size is the data length, and the packet is empty exactly when its size is 0 |
| Packets.SizeWrapsAtFourGiB | src/core/packet.rs:34-40 | the `as u32` cast makes a 4 GiB packet report size 0 although it is not empty |
| CoreStream.NewStream | src/core/stream.rs:23-25 | a new stream has no codec-private data and keeps every other given field |
| CoreStream.WithCodecPrivate | src/core/stream.rs:27-30 | only the codec-private data changes |
| CoreStream.ExactlyOneKind | src/core/stream.rs:33-45 | every stream satisfies exactly one of the three kind tests |
| CoreStream.Describe | src/core/stream.rs:91-95 | a stream's line starts with "stream " and ends with its codec in brackets |
| CoreStream.DescribeAll | src/core/stream.rs:97-103 | the text of a stream list starts with its first stream's line and a newline, and is empty for no streams |
| CoreStream.DescribeAllAppend | src/core/stream.rs:97-103 | the text of a joined list is the texts of its parts one after the other |
| CoreStream.OfKind | src/core/stream.rs:74-84 | the filtered streams are exactly those of the list with the given kind, and no more than the list |
| CoreStream.KindsPartition | src/core/stream.rs:74-84 | the audio, video and subtitle filters split the list: their sizes add up to its length |
| CoreStream.OfKindAppend | src/core/stream.rs:62-84 | appending a stream extends exactly its own kind's filtered list |
| CoreStream.Streams.constructor | src/core/stream.rs:54-56 | a list built from streams holds exactly them |
| CoreStream.Streams.Empty | src/core/stream.rs:58-60 | `new_empty` holds no streams |
| CoreStream.Streams.Add | src/core/stream.rs:62-64 | `add` appends the stream at the end, and the audio count grows by one exactly when it is an audio stream |
| CoreStream.Streams.Get | src/core/stream.rs:70-72 | `get` finds a stream exactly for an index inside the list, and it is the stream at that index |
| CoreStream.Streams.CountAudio | src/core/stream.rs:86-88 | the audio count is the number of streams that are neither video nor subtitle |
| Compatibility.ContainerCompatible.constructor | src/core/compatible.rs:17-19 | a new container entry has its name and accepts no codec or format |
| Compatibility.ContainerCompatible.SupportsVideo | src/core/compatible.rs:21-23 | the given codecs join the accepted video codecs; audio and subtitle sets are unchanged |
| Compatibility.ContainerCompatible.SupportsAudio | src/core/compatible.rs:25-27 | the given codecs join the accepted audio codecs; video and subtitle sets are unchanged |
| Compatibility.ContainerCompatible.SupportsSubtitles | src/core/compatible.rs:29-31 | the given formats join the accepted subtitle formats; video and audio sets are unchanged |
| Compatibility.ContainerCompatible.AssertVideoCodec | src/core/compatible.rs:33-39 | succeeds exactly for an accepted video codec, otherwise fails with invalid data naming the codec and the container |
| Compatibility.ContainerCompatible.AssertAudioCodec | src/core/compatible.rs:41-47 | succeeds exactly for an accepted audio codec, otherwise fails with invalid data naming the codec and the container |
| Compatibility.ContainerCompatible.AssertSubtitleFormat | src/core/compatible.rs:49-56 | succeeds exactly for an accepted subtitle format, otherwise fails with invalid data naming the format and the container |
| Compatibility.Entry | src/core/compatible.rs:77-81 | one table entry built by `new` and the three `supports_*` calls accepts exactly the listed codecs and formats |
| Compatibility.FirstVideoTable | src/core/compatible.rs:77-115 | the MP4, Matroska, MOV, WebM and AVI entries accept exactly their listed codecs and formats |
| Compatibility.OtherVideoTable | src/core/compatible.rs:117-135 | the OGV, FLV, MXF and MPEG-TS entries accept exactly their listed codecs |
| Compatibility.CompressedAudioTable | src/core/compatible.rs:138-164 | the MP3, AAC, Opus, FLAC and M4A entries accept exactly their listed audio codecs and nothing else |
| Compatibility.OtherAudioTable | src/core/compatible.rs:154-188 | the WAV, ALAC, Ogg, raw and pcm entries accept exactly their listed audio codecs and nothing else |
| Compatibility.AssembledKeys | src/core/compatible.rs:74-188 | the assembled table has exactly the nineteen container keys |
| Compatibility.Assemble | src/core/compatible.rs:74-190 | joining the four groups gives the standard table: every entry keeps its name and accepted sets |
| Compatibility.StandardGraph | src/core/compatible.rs:71-190 | the graph built by `Compatible::new` is the standard table |
| Compatibility.Compatible.constructor | src/core/compatible.rs:71-190 | `Compatible::new` holds the standard table |
| Compatibility.Compatible.Container | src/core/compatible.rs:193-195 | an entry is found exactly for a known extension, and it is that extension's entry |
| Compatibility.Compatible.AssertContainerSupported | src/core/compatible.rs:197-202 | succeeds exactly for a known extension, otherwise fails with "'<ext>' is not supported" |
| Compatibility.Compatible.AssertVideoSupported | src/core/compatible.rs:204-209 | succeeds exactly when the container is known and accepts the video codec; an unknown container fails with the not-supported message |
| Compatibility.Compatible.AssertAudioSupported | src/core/compatible.rs:211-216 | succeeds exactly when the container is known and accepts the audio codec; an unknown container fails with the not-supported message |
| Compatibility.Compatible.AssertSubtitleSupported | src/core/compatible.rs:218-223 | succeeds exactly when the container is known and accepts the subtitle format; an unknown container fails with the not-supported message |
| Compatibility.Compatible.AssertSubtitleFormatSupported | src/core/compatible.rs:225-230 | gives the same answer as `assert_subtitle_supported` for every container and format |
| Compatibility.WavAcceptsExactlyPcm | src/core/compatible.rs:154-188 | WAV, raw and pcm outputs accept exactly the three PCM codecs, and WAV accepts no video |
| Compatibility.Mp3AcceptsOnlyMp3 | src/core/compatible.rs:138-140 | an MP3 file accepts only the MP3 audio codec, and no video or subtitles |
| Compatibility.SubtitleContainers | src/core/compatible.rs:77-110 | only MP4, Matroska, MOV and WebM accept any subtitle format |
| Compatibility.UnknownContainerRefused | src/core/compatible.rs:197-230 | an unknown extension is refused by every check with the same not-supported error |
| DemuxerTrait.Scan | src/core/traits/demuxer.rs:9-38 | the filter loop returns the first packet whose stream exists and has the wanted kind, or the first error, or nothing at the end; everything it skipped before that is a non-matching packet |
| DemuxerTrait.ScanFindsFirstMatch | src/core/traits/demuxer.rs:9-18 | a matching packet preceded only by non-matching packets is the one returned, after consuming exactly up to it |
| DemuxerTrait.ScriptedDemuxer.constructor | src/core/traits/demuxer.rs:5-7 | a demuxer over the given streams whose `read_packet` results follow the script |
| DemuxerTrait.ScriptedDemuxer.ReadPacket | src/core/traits/demuxer.rs:7 | `read_packet` returns the next scripted packet or error and consumes it; at the end it keeps returning nothing |
| DemuxerTrait.ScriptedDemuxer.ReadPacketOfKind | src/core/traits/demuxer.rs:9-38 | the `while let` loop returns exactly what `Scan` predicts and consumes exactly the packets `Scan` used |
| DemuxerTrait.ScriptedDemuxer.ReadAudioPacket | src/core/traits/demuxer.rs:9-18 | `read_audio_packet` returns the first packet of an audio stream, the first error, or nothing, consuming what it read |
| DemuxerTrait.ScriptedDemuxer.ReadVideoPacket | src/core/traits/demuxer.rs:20-28 | `read_video_packet` returns the first packet of a video stream, the first error, or nothing, consuming what it read |
| DemuxerTrait.ScriptedDemuxer.ReadSubtitlePacket | src/core/traits/demuxer.rs:30-38 | `read_subtitle_packet` returns the first packet of a subtitle stream, the first error, or nothing, consuming what it read |
| RawDemuxers.MaxChunk | src/container/raw/demuxer.rs:29-31 | the request size is a positive multiple of the block size, at most 64 KiB and less than one block short of it |
| RawDemuxers.AudioStream | src/container/raw/demuxer.rs:20-22 | the one stream is an audio stream with id and index 0, named after the format's codec, with no codec-private data |
| RawDemuxers.RawPcmDemuxer.constructor | src/container/raw/demuxer.rs:19-26 | a new demuxer exposes exactly that audio stream, has read nothing and knows no data length |
| RawDemuxers.RawPcmDemuxer.ReadPacket | src/container/raw/demuxer.rs:28-52 | a zero `block_align` panics in the chunk-size division, before any read, and only then; otherwise the result is the one `ReadChunk` states: the next non-empty run of source bytes stamped with the old sample position, the counters advanced with 64-bit wrap-around, the end or the failure passed on |
| RawDemuxers.RawPcmDemuxer.ReadChunk | src/container/raw/demuxer.rs:30-51 | with a non-zero `block_align`, a packet is the next non-empty run of source bytes, at most one chunk of whole blocks, stamped with the sample position before the read; the position then advances by the whole frames read, the count by one and a known remaining length shrinks, all with 64-bit wrap-around; a read of 0 bytes is the end and changes nothing; a read failure is passed on |
| RawDemuxers.RawPcmDemuxer.ReadAudioPacket | src/container/raw/demuxer.rs:54-56 | `read_audio_packet` panics exactly when `read_packet` does, and otherwise returns the next bytes of the source as a packet stamped with the sample position, or passes on the end or the failure |
| RawFormats.NewForCodec | src/container/raw/formater.rs:19-26 | exactly the three PCM codec names give a format: stereo at 44.1 kHz with 16 bits for s16le, 24 for s24le and 32 for f32le; any other name is refused with "raw codec '<name>' is not supported" |
| RawFormats.SampleFormat | src/container/raw/formater.rs:47-54 | the sample format is always one of the PCM formats: 24-bit exactly for depth 24, 32-bit exactly for depth 32, 16-bit otherwise |
| RawFormats.ToCodecString | src/container/raw/formater.rs:56-63 | the codec name is always a PCM name: s24le exactly for depth 24, f32le exactly for depth 32, s16le otherwise |
| RawFormats.ApplyCodec | src/container/raw/formater.rs:65-73 | exactly the three PCM codec names are applied, setting 16, 24 or 32 bits and keeping channels and rate; any other name is refused with the not-supported message |
| RawFormats.CodecRoundTrip | src/container/raw/formater.rs:19-73 | applying a PCM codec, or building a format from it, and reading the codec name back gives that codec; building from a codec is applying it to the default |
| RawFormats.SampleFormatAgreesWithCodec | src/container/raw/formater.rs:47-63 | the sample format and the codec name always describe the same bit depth |
| RawFormats.ByteRateSaturates | src/container/raw/formater.rs:36-41 | the two saturating multiplications give the full product capped at the largest `u32` |
| RawFormats.BlockAlignIsFrameSize | src/container/raw/formater.rs:28-45 | `block_align` is the frame size whenever that fits in 16 bits, and a non-zero `block_align` means a non-empty frame |
| RawMuxers.RawPcmMuxer.constructor | src/container/raw/muxer.rs:17-26 | a new muxer exposes the one audio stream, has counted no data and writes nothing |
| RawMuxers.RawPcmMuxer.WritePacket | src/container/raw/muxer.rs:28-32 | on success the payload is appended to the output unchanged and the data size grows by its length modulo 2^32; on failure the size is unchanged |
| RawMuxers.RawPcmMuxer.Finalize | src/container/raw/muxer.rs:34-37 | finalizing only flushes: nothing is written and the data size stays |
| RawVideo.Decode | src/codecs/rawvideo/decode.rs:16-20 | decoding never fails and always yields one frame holding the packet's bytes, pts and unit, at the frame-rate numerator, with one channel and one sample |
| RawVideo.Encode | src/codecs/rawvideo/encode.rs:15-18 | encoding never fails and always yields one packet of stream 0 holding the frame's bytes and pts in the encoder's time base, with dts 0, not a keyframe and not discarded |
| RawVideo.DecodeEncodeRoundTrip | src/codecs/rawvideo/decode.rs:16-19 | a picture decoded and re-encoded in the packet's own unit comes back as the same bytes, pts and unit |
| Riff.TextOf | src/container/wav/demuxer.rs:132-135 | a four-character code read as text has one character per byte, each with that byte's value |
| Riff.InfoTablesInverse | src/container/wav/muxer.rs:120-129 | the INFO id the muxer writes for a field is four bytes and the demuxer reads it back as that field (src/container/wav/demuxer.rs:113-121), and every id the demuxer knows is the one the muxer writes for its field |
| WavFormats.NewForCodec | src/container/wav/formater.rs:25-32 | exactly the three PCM codec names give a stereo 44.1 kHz format with 16, 24 or 32 bits, and format code 3 exactly for f32le; any other name is refused with "wav codec '<name>' is not supported" |
| WavFormats.ToRawFormat | src/container/wav/formater.rs:34-40 | the raw layout keeps channels, rate and bit depth |
| WavFormats.ApplyCodec | src/container/wav/formater.rs:79-90 | exactly the three PCM codec names are applied, setting 16, 24 or 32 bits and keeping channels and rate; f32le sets format code 3 and the others keep the old code; any other name is refused |
| WavFormats.AgreesWithRawFormat | src/container/wav/formater.rs:42-77 | every size, rate, block alignment, sample format and codec name of a WAV layout is the one its raw layout gives (src/container/raw/formater.rs:28-63) |
| WavFormats.ApplyCodecAgreesWithRaw | src/container/wav/formater.rs:79-90 | applying a codec to a WAV layout succeeds exactly when it does on the raw layout, and agrees with it on everything but the format code |
| WavFormats.CodecRoundTrip | src/container/wav/formater.rs:25-90 | applying a PCM codec, or building from it, and reading the codec name back gives that codec; building is applying to the default |
| WavFormats.FloatCodeSurvivesSwitchTo16 | src/container/wav/formater.rs:79-90 | a float layout switched to s16le keeps format code 3, since `apply_codec` never resets it to 1 |
| WavHeaders.ToFormat | src/container/wav/header.rs:14-21 | the layout keeps the header's channels, rate, sample width and format code |
| WavHeaders.ValidatePcmBits | src/container/wav/header.rs:38-46 | accepts exactly a non-zero multiple of 8 bits, with the source's message for zero and for a non-multiple |
| WavHeaders.ValidateImaAdpcm | src/container/wav/header.rs:48-53 | accepts exactly 4 bits per sample, otherwise fails with the IMA ADPCM message |
| WavHeaders.Validate | src/container/wav/header.rs:23-36 | accepts exactly headers with channels, a sample rate and format code 1 or 3 with whole-byte samples or 0x11 with 4-bit samples; channels are checked first, then the rate, then the code, each with its own message |
| WavHeaders.ValidPcmFramesAreNonEmpty | src/container/wav/header.rs:23-46 | a valid PCM header has samples of at least one byte that make up exactly its bit width, and non-empty frames |
| WavHeaders.ValidAdpcmHasZeroBlockAlign | src/container/wav/header.rs:33 | a valid IMA ADPCM header has 4-bit samples, so its layout's frame size and `block_align` round down to 0 |
| WavHeaders.WideValidFrameWrapsBlockAlign | src/container/wav/header.rs:23-46 | a valid header with a 65536-byte frame also gets `block_align` 0 from the 16-bit product (src/container/wav/formater.rs:57-59) |
| WavDemuxers.SetField | src/container/wav/demuxer.rs:114-120 | after `set` the field has the new value, every other field keeps its value, and the list grows by at most one entry |
| WavDemuxers.TrimNul | src/container/wav/demuxer.rs:111 | the trimmed value is a prefix of the bytes that does not end in a NUL, and everything cut off was NUL |
| WavDemuxers.Le | src/container/wav/demuxer.rs:61 | a little-endian value of `n` bytes is below 256 to the power `n` |
| WavDemuxers.ParseFmt | src/container/wav/demuxer.rs:72-90 | a `fmt ` chunk under 16 bytes is refused with "fmt chunk too small", one longer than the input fails at the end of input, and otherwise exactly the chunk is consumed |
| WavDemuxers.ParseInfoFailsAtEnd | src/container/wav/demuxer.rs:102-128 | the INFO sub-chunk loop can only fail by running out of input |
| WavDemuxers.ParseInfoLeavesSuffix | src/container/wav/demuxer.rs:102-128 | the INFO sub-chunk loop only consumes input from the front |
| WavDemuxers.EntryLength | src/container/wav/demuxer.rs:104-127 | an INFO sub-chunk takes at least its eight header bytes |
| WavDemuxers.ParseList | src/container/wav/demuxer.rs:92-130 | a list under 4 bytes is ignored without reading anything; otherwise the list only consumes input from the front and can only fail at the end of input |
| WavDemuxers.ChunkStep | src/container/wav/demuxer.rs:60-68 | every successful chunk step consumes input from the front, at least its eight header bytes |
| WavDemuxers.Walk | src/container/wav/demuxer.rs:59-69 | the chunk walk never leaves more input than it was given |
| WavDemuxers.FindData | src/container/wav/demuxer.rs:44-70 | finding the data chunk never leaves more input than it was given |
| WavDemuxers.OpenSpec | src/container/wav/demuxer.rs:22-24 | a file opens only when the walk finds a data chunk and the header then validates; a failed walk is reported as is |
| WavDemuxers.Take | src/container/wav/demuxer.rs:146-150 | taking `n` bytes succeeds exactly when `n` bytes remain |
| WavDemuxers.TakeLe | src/container/wav/demuxer.rs:61 | reading an `n`-byte value succeeds exactly when `n` bytes remain |
| WavDemuxers.ReadFourcc | src/container/wav/demuxer.rs:132-136 | reading a four-character code takes exactly the next four bytes, and fails exactly when fewer remain on a plain byte source |
| WavDemuxers.ReadLe | src/container/wav/demuxer.rs:61 | `read_u*_le` takes exactly the next `n` bytes and returns their little-endian value, below 256 to the power `n` |
| WavDemuxers.CheckFourcc | src/container/wav/demuxer.rs:138-144 | the next four bytes must be the expected code; otherwise "expected X, found Y" |
| WavDemuxers.ReadBytes | src/container/wav/demuxer.rs:146-150 | returns exactly the next `size` bytes and consumes them |
| WavDemuxers.SkipBytes | src/container/wav/demuxer.rs:152-156 | consumes exactly the next `size` bytes, and fails at the end of input when fewer remain |
| WavDemuxers.ReadChunkHeader | src/container/wav/demuxer.rs:60-61 | the chunk id and size are the next four bytes and the next four read little-endian |
| WavDemuxers.ReadTwoU16 | src/container/wav/demuxer.rs:77-78 | two consecutive little-endian 16-bit fields, consuming four bytes |
| WavDemuxers.ReadRates | src/container/wav/demuxer.rs:80-81 | two consecutive little-endian 32-bit fields, consuming eight bytes |
| WavDemuxers.ReadFmtFields | src/container/wav/demuxer.rs:77-83 | the six `fmt ` fields in the order format code, channels (truncated to 8 bits), rate, byte rate, block align, bits per sample |
| WavDemuxers.ReadFmtChunk | src/container/wav/demuxer.rs:72-90 | reading a `fmt ` chunk does what `ParseFmt` says, on success and on failure |
| WavDemuxers.InfoTurnFails | src/container/wav/demuxer.rs:103-108 | an INFO sub-chunk cut short by the end of input fails the list with "unexpected EOF" |
| WavDemuxers.InfoTurnAdvances | src/container/wav/demuxer.rs:103-128 | a complete INFO sub-chunk records its field and the loop goes on from the next sub-chunk |
| WavDemuxers.ReadInfoEntry | src/container/wav/demuxer.rs:104-127 | one INFO sub-chunk consumes its id, size, value and pad byte and records the value under its field; on a plain byte source it fails exactly when the input ends first |
| WavDemuxers.ReadListChunk | src/container/wav/demuxer.rs:92-130 | reading a `LIST` chunk does what `ParseList` says, on success and on failure |
| WavDemuxers.ReadChunk | src/container/wav/demuxer.rs:60-68 | one turn of the chunk loop does what `ChunkStep` says |
| WavDemuxers.ReadWavAndFindData | src/container/wav/demuxer.rs:44-70 | the preamble check and the chunk loop do what `FindData` says, leaving the source at the data chunk's bytes |
| WavDemuxers.ChunkLayout | src/container/wav/demuxer.rs:60-61 | a chunk laid out as id, four-byte little-endian size and body is read back as that id and size |
| WavDemuxers.UnknownChunkSkipped | src/container/wav/demuxer.rs:67 | an unknown chunk is skipped by exactly its size, with no pad byte, keeping header and metadata |
| WavDemuxers.DataChunkEndsWalk | src/container/wav/demuxer.rs:66 | a `data` chunk ends the walk with its size and leaves its bytes unread |
| WavDemuxers.OpenNeedsRiffWave | src/container/wav/demuxer.rs:45-47 | a file opens only when it starts with "RIFF", four bytes and "WAVE"; a wrong first code fails with "expected RIFF, found …" |
| WavDemuxers.ShortFmtRefused | src/container/wav/demuxer.rs:73-75 | a `fmt ` chunk under 16 bytes stops the walk with "fmt chunk too small" whatever follows |
| WavDemuxers.WavDemuxer.FromFound | src/container/wav/demuxer.rs:26-41 | the demuxer exposes one audio stream named after the header's codec, keeps the metadata and has the data chunk's size left to read |
| WavDemuxers.WavDemuxer.Open | src/container/wav/demuxer.rs:22-42 | `new` succeeds exactly when `OpenSpec` does, leaves the source at the data chunk's bytes and builds the opened state; on a plain byte source its error is the one `OpenSpec` gives |
| WavDemuxers.WavDemuxer.ReadPacket | src/container/wav/demuxer.rs:158-183 | nothing once the data chunk is used up; with data left, a zero `block_align` (which every valid IMA ADPCM header has) panics in the chunk-size division before any read, and only then; otherwise the result is the one `ReadDataChunk` states |
| WavDemuxers.WavDemuxer.ReadDataChunk | src/container/wav/demuxer.rs:163-182 | with data left and a non-zero `block_align`, a packet is the next non-empty run of source bytes, at most a chunk of whole blocks and never past the chunk's end, stamped with the sample position before the read; the remaining size shrinks by the bytes read and the position advances by the whole frames read; the end or a failure changes nothing |
| WavDemuxers.WavDemuxer.ReadAudioPacket | src/container/wav/demuxer.rs:185-187 | `read_audio_packet` panics exactly when `read_packet` does, and otherwise returns the next bytes of the data chunk as a packet stamped with the sample position, or passes on the end or the failure |
| WavMuxers.FieldBytes | src/container/wav/muxer.rs:52-57 | the six common `fmt ` fields take 16 bytes |
| WavMuxers.FmtBody | src/container/wav/muxer.rs:46-65 | the `fmt ` body written is exactly as long as the size declared for it: 18 for float, 20 for IMA ADPCM, 16 otherwise |
| WavMuxers.FmtChunk | src/container/wav/muxer.rs:44-65 | the `fmt ` chunk is its eight header bytes plus the declared size |
| WavMuxers.RiffHeader | src/container/wav/muxer.rs:39-70 | the header is 20 bytes of codes and sizes around the `fmt ` chunk |
| WavMuxers.HeaderWith | src/container/wav/muxer.rs:39-70 | the header ends right after the data-size field |
| WavMuxers.CalcListSize | src/container/wav/muxer.rs:99-107 | the computed list size is at least the 8 the fold starts from |
| WavMuxers.InfoChunk | src/container/wav/muxer.rs:135-144 | an INFO sub-chunk takes exactly the bytes `calc_list_size` counts for its value |
| WavMuxers.InfoChunksSize | src/container/wav/muxer.rs:99-133 | the sub-chunks written plus the terms of fields without an INFO id are exactly what `calc_list_size` adds to 8 |
| WavMuxers.AllKnownHasNoUnknownTerms | src/container/wav/muxer.rs:119-129 | when every field has an INFO id nothing is skipped |
| WavMuxers.ListSizeFieldShortfall | src/container/wav/muxer.rs:114-117 | the declared LIST size is 4 short of the bytes after it (the "INFO" form type) and also counts fields that are never written |
| WavMuxers.KnownListSizeFourShort | src/container/wav/muxer.rs:114-117 | with every field known, the declared LIST size is exactly 4 short of the bytes after it |
| WavMuxers.InfoChunksStep | src/container/wav/muxer.rs:119-131 | one more field of the loop adds its sub-chunk, if any, at the end |
| WavMuxers.InfoChunksOfPrefix | src/container/wav/muxer.rs:119-131 | the loop never writes more sub-chunk bytes part-way than in the end |
| WavMuxers.SamplesPerBlockExact | src/container/wav/muxer.rs:63-64 | the IMA ADPCM samples-per-block field is `(512 - 4 * channels) * 2 + 1` up to 128 channels |
| WavMuxers.SamplesPerBlockWrapsAt129 | src/container/wav/muxer.rs:63-64 | with 129 channels the subtraction goes below zero and the field wraps to 65529 |
| WavMuxers.Put | src/io/writer.rs:11-21 | each `write_all` in a run of writes extends the run's bytes at the cursor |
| WavMuxers.WriteFields | src/container/wav/muxer.rs:52-57 | the six common fields are written in order, little-endian, 16 bytes |
| WavMuxers.WriteExtension | src/container/wav/muxer.rs:59-65 | a zero `u16` for float, the IMA ADPCM extension for 0x11, nothing otherwise |
| WavMuxers.WriteAdpcmExtension | src/container/wav/muxer.rs:61-64 | the extra size 4 then the samples per block, four bytes |
| WavMuxers.WriteFmtChunk | src/container/wav/muxer.rs:44-65 | writes exactly the `fmt ` chunk of the format |
| WavMuxers.WriteHeader | src/container/wav/muxer.rs:39-70 | writes exactly the header with both sizes 0 and returns the offsets of the file-size and data-size fields |
| WavMuxers.WriteInfoChunk | src/container/wav/muxer.rs:135-144 | writes the id, the length of value plus NUL, the value, the NUL and a pad byte when that length is odd; never fails |
| WavMuxers.WriteField | src/container/wav/muxer.rs:120-130 | a value whose field has an INFO id gets its sub-chunk; any other is skipped |
| WavMuxers.WriteListHead | src/container/wav/muxer.rs:115-117 | "LIST", the list size as a `u32`, then "INFO" |
| WavMuxers.WriteListChunk | src/container/wav/muxer.rs:109-133 | writes exactly the LIST chunk: nothing for empty metadata, otherwise the head and the known fields' sub-chunks in order |
| WavMuxers.WriteInfoFields | src/container/wav/muxer.rs:119-131 | the field loop writes exactly the sub-chunks of the known fields, in the metadata's order |
| WavMuxers.WavMuxer.FromHeader | src/container/wav/muxer.rs:25-32 | the muxer exposes one audio stream named after the format's codec, has no metadata and no data, and keeps the two size offsets |
| WavMuxers.WavMuxer.New | src/container/wav/muxer.rs:21-33 | `new` writes exactly the header at the cursor, and the muxer records where the two size fields are |
| WavMuxers.WavMuxer.WithMetadata | src/container/wav/muxer.rs:35-37 | the metadata is replaced and nothing else changes |
| WavMuxers.WavMuxer.WritePacket | src/container/wav/muxer.rs:73-77 | the payload is written at the cursor unchanged and the data size grows by its length modulo 2^32 |
| WavMuxers.WavMuxer.Finalize | src/container/wav/muxer.rs:79-97 | the data size is patched into its field, the LIST chunk of non-empty metadata is appended at the end, and the file size is patched into its field; only a seek to an offset of 2^63 or more fails |
| WavMuxers.AddList | src/container/wav/muxer.rs:83-91 | the file size is data size plus 36, plus the computed list size for non-empty metadata, and only then is the LIST chunk appended at the end |
| WavMuxers.FileSizeInSteps | src/container/wav/muxer.rs:83-87 | the two wrapping `u32` additions agree with the file size computed at once |
| WavMuxers.FinalizedInSteps | src/container/wav/muxer.rs:79-97 | the two patches with the list appended between them give the finalized file |
| WavMuxers.PatchSize | src/container/wav/muxer.rs:80-81 | a seek to the field and its four little-endian bytes overwrite exactly that field; a seek to 2^63 or more fails with nothing written |
| WavMuxers.AppendList | src/container/wav/muxer.rs:88-89 | a seek to the end and the LIST chunk append it |
| WavMuxers.FmtFieldsReadBack | src/container/wav/demuxer.rs:77-83 | the demuxer reads the muxer's six `fmt ` fields back as the format's values |
| WavMuxers.FieldsReadBack | src/container/wav/demuxer.rs:77-83 | any six fields written little-endian read back as their values, the channel count through `from_count` |
| WavMuxers.FmtFieldsIgnoreTail | src/container/wav/demuxer.rs:77-88 | the six fields lie in the first 16 bytes, so a format extension does not change them |
| WavMuxers.WalkOverHeader | src/container/wav/demuxer.rs:44-70 | the demuxer's walk over a header whose `fmt ` body has its declared size reads that body, no metadata and the data size, and stops right after the header |
| WavMuxers.HeaderReadsBack | src/container/wav/muxer.rs:39-70 | the demuxer's walk over a written header finds the format's fields, no metadata and the data size, and leaves everything after the header unread |
| WavMuxers.PatchedHeader | src/container/wav/muxer.rs:79-97 | patching a header followed by a payload puts both sizes into their placeholders and the list last |
| WavMuxers.FinishedFile | src/container/wav/muxer.rs:21-97 | header, packets and `finalize` from an empty vector give the header with both sizes filled in, the payload, then the LIST chunk |
| WavMuxers.MuxedFileReadsBack | src/container/wav/muxer.rs:21-97 | the demuxer opens what the muxer finished: the format's fields, the payload length modulo 2^32 as data size, and no metadata, since the LIST chunk lies after the data |
| WavMuxers.HeaderReadsBackBefore | src/container/wav/muxer.rs:39-70 | the same read-back with the payload and the list after the header |
| WavMuxers.HeaderOfToFormat | src/container/wav/muxer.rs:52-57 | the header read back gives back the format exactly when its channel layout is canonical |
| WavMuxers.DeclaredFileSizeShortfall | src/container/wav/muxer.rs:83-94 | the RIFF size written is the file length less 8 only for the 16-byte `fmt ` chunk; it is 2 short for float, 4 for IMA ADPCM, and 4 more with a LIST chunk |
| WavMuxers.FinalizedLength | src/container/wav/muxer.rs:79-97 | the finished file is as long as header, payload and list chunk together |
| WavMuxers.FinishedFileLength | src/container/wav/muxer.rs:39-70 | a finished file is 28 bytes plus the `fmt ` size plus payload and list |
| WavMuxers.FileSizeExact | src/container/wav/muxer.rs:83-87 | without wrap-around the file size is data size plus 36 plus the computed list size |
| PcmDecoders.NewFromMetadata | src/codecs/audio/pcm/decoder.rs:14-20 | the decoder keeps the layout's rate and channel layout, and its sample width times the channel count is the layout's bytes per sample frame |
| PcmDecoders.FormatOfWidth | src/codecs/audio/pcm/decoder.rs:31-36 | the label is always PCM16, PCM24 or PCM32, and it has exactly the decoder's sample width precisely when that width is 2, 3 or 4 bytes (other widths fall back to PCM16) |
| PcmDecoders.Decode | src/codecs/audio/pcm/decoder.rs:24-45 | for a non-empty packet the source divides by the sample-frame size, so the caller must give a decoder with non-empty sample frames (both demuxers panic on a zero `block_align` before any packet reaches it); then decoding never fails; an empty packet gives no frame and any other packet gives one audio frame holding the packet's bytes, pts, stream id and unit, the decoder's rate and channels, and as many samples as whole sample frames fit in the bytes |
| PcmDecoders.DecodedCountMatchesFormat | src/codecs/audio/pcm/decoder.rs:29-39 | for 2-, 3- and 4-byte samples the size the decoded frame claims is the packet's length rounded down to whole sample frames |
| PcmDecoders.EightBitFrameClaimsDoubleSize | src/codecs/audio/pcm/decoder.rs:29-39 | with 8-bit mono samples a 2-byte packet becomes a frame labelled PCM16 counting 2 samples, which claims 4 bytes |
| PcmEncoders.New | src/codecs/audio/pcm/encoder.rs:14-16 | a new encoder has the given rate and no target format |
| PcmEncoders.WithTargetFormat | src/codecs/audio/pcm/encoder.rs:18-21 | the target format is set and the rate kept |
| PcmEncoders.WavFormatOf | src/codecs/audio/pcm/encoder.rs:23-32 | the layout keeps the channels and rate, uses format code 3 exactly for PCM32 and 1 otherwise, names the format back (PCM16 for non-PCM formats) and has the format's sample width |
| PcmEncoders.Encode | src/codecs/audio/pcm/encoder.rs:36-57 | a frame without audio gives no packet; otherwise the packet holds the audio bytes as they are, or, with a target format, the bytes converted to the target layout, and either converter failure is the result; the packet keeps the frame's pts and stream id and counts in one tick per sample |
| PcmEncoders.DecodeEncodeRoundTrip | src/codecs/audio/pcm/encoder.rs:55-56 | decoding a non-empty packet and encoding the frame without a target format gives back the packet's bytes, pts and stream id |
| PcmEncoders.WavFormatNamesFormat | src/codecs/audio/pcm/encoder.rs:23-32 | the layout chosen for PCM16, PCM24 or PCM32 names that same format |
| LegacyPcm.Decode | src/codecs/pcm/decode.rs:16-29 | decoding always gives one frame with the packet's bytes, pts and timebase and the format's rate and channel count, counting exactly the whole sample frames in the packet's size |
| LegacyPcm.Encode | src/codecs/pcm/encode.rs:15-18 | encoding always gives one packet of stream 0 holding the frame's bytes and pts in the encoder's timebase |
| LegacyPcm.DecodeEncodeRoundTrip | src/codecs/pcm/encode.rs:15-18 | decoding a packet and encoding the frame in the packet's own timebase gives back the packet's bytes, pts and unit on stream 0 |
| LegacyPcm.EncodeDecodeKeepsPayload | src/codecs/pcm/decode.rs:16-29 | encoding a frame and decoding the packet keeps the frame's bytes, pts and timebase |
| AdpcmDecoders.SamplesPerBlockOfFullBlock | src/codecs/audio/adpcm/decoder.rs:22-24 | a block of at least the 4 header bytes holds `2 * block_size - 7` samples: one from the header plus two per further byte |
| AdpcmDecoders.SamplesPerBlockOfShortBlock | src/codecs/audio/adpcm/decoder.rs:24 | below 4 bytes the `usize` subtraction wraps around and the count lands just below `2^64` |
| AdpcmDecoders.LeI16IsSignedLe | src/codecs/audio/adpcm/decoder.rs:45 | the header predictor is the two bytes read as a little-endian signed 16-bit number, the same value the reader's signed decoding gives |
| AdpcmDecoders.HeaderIgnoresFourthByte | src/codecs/audio/adpcm/decoder.rs:45-48 | the fourth byte of a channel header has no effect on the state it sets |
| AdpcmDecoders.NibbleAt | src/codecs/audio/adpcm/decoder.rs:59-69 | code `k` is the low half of byte `k / 2` when `k` is even and its high half when it is odd |
| AdpcmDecoders.NibblesRebuildBytes | src/codecs/audio/adpcm/decoder.rs:65-69 | each data byte splits into two codes below 16, low code first, that rebuild the byte |
| AdpcmDecoders.SampleBytesAreLe | src/codecs/audio/adpcm/decoder.rs:72 | a sample is emitted as its two little-endian bytes, as the writer encodes a 2-byte integer |
| AdpcmDecoders.SampleBytesReadBack | src/codecs/audio/adpcm/decoder.rs:72 | the two emitted bytes read back as a signed little-endian 16-bit number give the sample |
| AdpcmDecoders.Run | src/codecs/audio/adpcm/decoder.rs:55-76 | decoding `n` codes keeps one state per channel and emits exactly two bytes per code |
| AdpcmDecoders.RunStep | src/codecs/audio/adpcm/decoder.rs:71-74 | each further code advances only its own channel's state and appends that channel's sample |
| AdpcmDecoders.RunExtends | src/codecs/audio/adpcm/decoder.rs:72 | output is only ever appended: the output after `m` codes is the prefix of the output after any later count |
| AdpcmDecoders.RunByRound | src/codecs/audio/adpcm/decoder.rs:55-76 | a round that starts on channel 0 hands code `at + j` to channel `j`, so the round-by-round loop computes the same states and output as the code-by-code decoding |
| AdpcmDecoders.ChannelOfIsMod | src/codecs/audio/adpcm/decoder.rs:58 | codes go to the channels round-robin: code `k` belongs to channel `k mod channels` |
| AdpcmDecoders.ChannelOfNext | src/codecs/audio/adpcm/decoder.rs:58 | the code after one on a channel belongs to the next channel, wrapping back to channel 0 |
| AdpcmDecoders.Consumed | src/codecs/audio/adpcm/decoder.rs:55-76 | the number of codes decoded lies between the starting code and the total number of codes |
| AdpcmDecoders.ConsumedStops | src/codecs/audio/adpcm/decoder.rs:55-57 | decoding stops with every code used, or at a round boundary with the output at the limit; the output passes the limit by less than one round; when all codes fit under the limit all are decoded |
| AdpcmDecoders.DecodedBlock | src/codecs/audio/adpcm/decoder.rs:29-79 | a block with room for every header leaves one state per channel |
| AdpcmDecoders.DecodedBlockSize | src/codecs/audio/adpcm/decoder.rs:37-78 | a block's output is at most four bytes per data byte; it is empty exactly when there are no data bytes or the limit is 0; all data is decoded when it fits under the limit, otherwise the output has reached the limit and passes it by less than a round |
| AdpcmDecoders.OutputFrame | src/codecs/audio/adpcm/decoder.rs:94-102 | the frame holds the decoded bytes as 16-bit PCM at the decoder's rate and channel count, counting the whole rounds in the bytes, one tick per sample, the packet's stream as its stream index, stream id 0 and the packet's pts |
| AdpcmDecoders.AdpcmDecoder.constructor | src/codecs/audio/adpcm/decoder.rs:18-27 | at least one channel, every channel in the initial state, and the samples per block computed with `usize` wrap-around |
| AdpcmDecoders.AdpcmDecoder.ResetStates | src/codecs/audio/adpcm/decoder.rs:40-50 | every channel's state is set from its own 4-byte header and the data starts after the headers |
| AdpcmDecoders.AdpcmDecoder.DecodeCode | src/codecs/audio/adpcm/decoder.rs:59-74 | one code advances its channel's state and emits that channel's next sample |
| AdpcmDecoders.AdpcmDecoder.DecodeRound | src/codecs/audio/adpcm/decoder.rs:58-75 | one round gives the next code to each channel in turn and stops early only at the end of the codes |
| AdpcmDecoders.AdpcmDecoder.DecodeCodes | src/codecs/audio/adpcm/decoder.rs:52-76 | the loop's states and output are those of decoding the codes round-robin up to the point the output limit or the end of the codes stops it |
| AdpcmDecoders.AdpcmDecoder.DecodeBlock | src/codecs/audio/adpcm/decoder.rs:29-79 | a block too short for every channel's header is refused as invalid data with the states untouched; otherwise the headers reset the states and the codes are decoded to the limit |
| AdpcmDecoders.AdpcmDecoder.Decode | src/codecs/audio/adpcm/decoder.rs:83-103 | an empty packet gives no frame; a refused block is the error; a block that decodes to nothing gives no frame; otherwise the result is the 16-bit frame of the decoded samples with the packet's pts |
| Tracks.ResolveMeaning | src/cli/config/track.rs:13-26 | resolution succeeds exactly when `One(i)` names an existing stream, or, for `All`, when there is at least one stream; every resolved index is below the stream count, `One(i)` gives `[i]` and `All` gives every index in order; failures are error messages |
| Tracks.ResolveAscending | src/cli/config/track.rs:25 | the resolved indices strictly increase, so no stream is selected twice |
| Tracks.OutOfBoundsMessageWraps | src/cli/config/track.rs:15-16 | with no streams every `One(i)` is out of bounds, and the message's maximum is `max_track - 1` wrapped to `usize::MAX` |
| Tracks.UncheckResolve | src/cli/config/track.rs:28-33 | the unchecked index is the selected index, or 0 for `All` |
| Tracks.UncheckResolveIsFirst | src/cli/config/track.rs:13-33 | whenever resolution succeeds, the unchecked index is the first resolved index |
| Tracks.DecimalValue | src/cli/config/track.rs:16 | the decimal text an index is printed as is all digits and spells the index |
| Tracks.ParseUsizeOfDecimal | src/cli/config/track.rs:40 | every 64-bit index printed in decimal parses back to itself |
| Tracks.ParseUsizeRejects | src/cli/config/track.rs:40 | the empty text, a lone `+`, a leading `-` and any text with a non-digit after its first character do not parse as a `usize` |
| Tracks.ParseTrackId | src/cli/config/track.rs:36-42 | no `track` flag, `all` or `*` select every track; the flag fails exactly when its text is none of these and does not parse, and the error names the text; a parsed index is the flag's value |
| Tracks.ParseTrackIdRoundTrip | src/cli/config/track.rs:36-42 | a `track` flag holding an index in decimal selects exactly that index |
| Subtitles.SubtitleConfig.constructor | src/cli/config/subtitle.rs:4-17 | a new configuration holds exactly the eleven option values it is built from |
| Subtitles.SubtitleConfig.SetTrack | src/cli/config/subtitle.rs:20-22 | only the track option changes |
| Subtitles.SubtitleConfig.SetLanguage | src/cli/config/subtitle.rs:24-26 | only the language option changes |
| Subtitles.DefaultConfig | src/cli/config/subtitle.rs:4 | the default configuration has no option set |
| Subtitles.ParseSubtitle | src/cli/config/subtitle.rs:43-71 | an invalid `track` flag is the error; otherwise parsing fails exactly when no track and no language is given while a styling flag is present, with the message "subtitle needs track or language"; a parsed configuration copies every option from its flag, and it is empty exactly when no flag is given |
| CliUtils.AfterLastSlash | src/cli/utils.rs:4-5 | the final component starts just after the last `/`, and holds no `/` |
| CliUtils.FileName | src/cli/utils.rs:4-5 | a path's file name, when it has one, is a non-empty component other than `.` and `..` and holds no `/` |
| CliUtils.LastDot | src/cli/utils.rs:5 | the index found holds a `.` with no `.` after it; none is found exactly when the name has no `.` |
| CliUtils.Extension | src/cli/utils.rs:5 | an extension holds no `.` |
| CliUtils.Lower | src/cli/utils.rs:7 | lower-casing keeps the length and maps every character on its own |
| CliUtils.GetExtension | src/cli/utils.rs:3-9 | a path without an extension is refused with "no file extension"; an extension found holds no `.`, no `/` and no upper-case ASCII letter |
| CliUtils.ExtensionOfFileName | src/cli/utils.rs:3-9 | a final component `stem.ext` with a non-empty stem gives `ext` lower-cased, whatever directory precedes it |
| CliUtils.DotBeforeExtension | src/cli/utils.rs:5 | the extension of `stem.ext` is the text after the dot that precedes `ext` |
| CliUtils.HiddenFileHasNoExtension | src/cli/utils.rs:5 | a name whose only dot is its first character, such as `.wav`, has no extension |
| CliUtils.GetExtensionIgnoresCase | src/cli/utils.rs:3-9 | lower-casing the path first gives the same result: the extension is case-insensitive |
| CliUtils.LowerTwice | src/cli/utils.rs:7 | lower-casing is idempotent |
| CliUtils.FileNameLower | src/cli/utils.rs:4-5 | taking the file name commutes with lower-casing |
| CliUtils.ExtensionLower | src/cli/utils.rs:5 | taking the extension commutes with lower-casing |
| Transforms.FirstIndex | src/transform/mod.rs:11 | the index found holds the character and none before it does; none is found exactly when the character does not occur |
| Transforms.SplitAtFirstEqualsOf | src/transform/mod.rs:11-12 | only the first `=` splits: a name without `=` followed by `=value` splits into the name and the whole value, further `=` included |
| Transforms.SplitWithoutEquals | src/transform/mod.rs:11-12 | text without `=` is all name and no value |
| Transforms.ParseTransform | src/transform/mod.rs:10-33 | an unknown name is refused; `gain` without a value or with a value that is not a number is refused with its own message, and otherwise gives a gain with the parsed factor; `normalize` gives the parsed peak, or 0.95 when the value is missing or not a number; all refusals are invalid data |
| Transforms.ParseTransformFails | src/transform/mod.rs:10-33 | parsing fails exactly for an unknown name or for `gain` without a numeric value, and every failure is invalid data |
| Transforms.ParseGain | src/transform/mod.rs:15-26 | `gain=<v>` with a numeric value gives a gain with that factor |
| Transforms.ParseBareNames | src/transform/mod.rs:15-29 | a bare `normalize` uses the default peak and a bare `gain` is refused for lack of a value |
| Transforms.RunChainAppend | src/transform/mod.rs:60-65 | running two chains one after the other is running their concatenation, unless the first fails |
| Transforms.FirstErrorAborts | src/transform/mod.rs:62 | when the first `k` transforms succeed and transform `k` fails, the chain's result is that error |
| Transforms.TransformChain.constructor | src/transform/mod.rs:40-42 | a new chain is empty |
| Transforms.TransformChain.Add | src/transform/mod.rs:44-46 | the transform is appended last and the earlier ones keep their order |
| Transforms.TransformChain.Apply | src/transform/mod.rs:60-65 | the result is that of running every transform in insertion order, each on the previous output, stopping at the first error; an empty chain returns the frame unchanged |
| Mp3Bits.BitsValue | src/codecs/mp3/layer3.rs:158 | the number a bit string spells is below two to the power of its length |
| Mp3Bits.ByteBitsValue | src/codecs/mp3/layer3.rs:158 | the `n` bits of a number below `2^n`, read back most significant first, give the number |
| Mp3Bits.BytesBitsSlice | src/codecs/mp3/layer3.rs:52 | the bits of byte `k` of the buffer are bits `8k` to `8k + 7`, most significant first |
| Mp3Bits.BytesBitsByte | src/codecs/mp3/layer3.rs:52 | reading eight bits at a byte boundary gives back that byte |
| Mp3Bits.BitReader.constructor | src/codecs/mp3/layer3.rs:52 | a new reader stands before the first bit of its buffer |
| Mp3Bits.BitReader.ReadBits | src/codecs/mp3/layer3.rs:158 | a read succeeds exactly when `n` bits remain; it then yields the number those bits spell, below `2^n`, and advances by `n`; a failed read does not move |
| Mp3Stages.MidSideTwice | src/codecs/mp3/layer3.rs:422-429 | the mid/side matrix applied twice gives back both lines scaled by `2c^2`, which lies within `10^-9` below 1 |
| Mp3Stages.MidSideEnergy | src/codecs/mp3/layer3.rs:426-427 | mid/side conversion scales the energy of a line pair by exactly `2c^2` |
| Mp3Stages.ProcessStereo | src/codecs/mp3/layer3.rs:416-430 | without mid/side stereo both channels are unchanged; with it every line pair `(m, s)` becomes `((m + s) c, (m - s) c)`; the channels become `StereoLeft` and `StereoRight` of the old ones |
| Mp3Stages.BandOfLine | src/codecs/mp3/layer3.rs:448-459 | every line belongs to the one short band whose edges, times three, enclose it |
| Mp3Stages.BandOfLineUnique | src/codecs/mp3/layer3.rs:448-459 | that band is the only one enclosing the line |
| Mp3Stages.SrcOfLine | src/codecs/mp3/layer3.rs:452-455 | the line a reordered line is taken from lies in the same band |
| Mp3Stages.SrcOfDst | src/codecs/mp3/layer3.rs:452-455 | the destination `base*3 + i*3 + w` is a line of the granule and takes its value from the source `base*3 + w*width + i` |
| Mp3Stages.SrcInBand | src/codecs/mp3/layer3.rs:452 | every source index stays inside its band |
| Mp3Stages.SrcInjective | src/codecs/mp3/layer3.rs:452 | distinct window and line pairs read distinct sources, so reordering within a band is a permutation |
| Mp3Stages.ReorderWindow | src/codecs/mp3/layer3.rs:451-457 | one window of one band writes its lines of the scratch buffer from the interleaved source and leaves every other scratch line alone |
| Mp3Stages.ReorderBand | src/codecs/mp3/layer3.rs:449-458 | a band's scratch lines take their reordered sources and the others are kept |
| Mp3Stages.ReorderWindows | src/codecs/mp3/layer3.rs:450-458 | the three windows of one band write every scratch line of the band from its `Moved` source and leave the others alone |
| Mp3Stages.BandMoves | src/codecs/mp3/layer3.rs:449-458 | inside band `b`, the source `reorder` uses for each line is the band's own window-and-index source |
| Mp3Stages.MovedInBand | src/codecs/mp3/layer3.rs:451-457 | each line of a band is filled from a line of the same band, so the copies never leave it |
| Mp3Stages.ReorderMoves | src/codecs/mp3/layer3.rs:432-463 | for a short block, in every band from `start_sfb` on, destination `base*3 + i*3 + w` gets the value of source `base*3 + w*width + i` |
| Mp3Stages.ReorderKeeps | src/codecs/mp3/layer3.rs:433-435 | long blocks, and the long part of a mixed block, are left unchanged |
| Mp3Stages.Reorder | src/codecs/mp3/layer3.rs:432-463 | the lines become the reordered lines of the old ones |
| Mp3Stages.ButterflyEnergy | src/codecs/mp3/layer3.rs:484-485 | with `cs^2 + ca^2 = 1` the butterfly keeps the energy of the pair |
| Mp3Stages.ButterflyInverse | src/codecs/mp3/layer3.rs:484-485 | with `cs^2 + ca^2 = 1` the butterfly with `ca` negated undoes it |
| Mp3Stages.AliasPair | src/codecs/mp3/layer3.rs:472-487 | at every processed boundary the pair `idx1`, `idx2` becomes the butterfly of its old values |
| Mp3Stages.AliasOnlyPairs | src/codecs/mp3/layer3.rs:472-487 | a line that belongs to no processed pair keeps its value |
| Mp3Stages.AliasStep | src/codecs/mp3/layer3.rs:473-486 | the butterflies of one more boundary extend the reduction by that boundary |
| Mp3Stages.AliasBoundary | src/codecs/mp3/layer3.rs:473-486 | the eight butterflies at one boundary rewrite exactly that boundary's pairs |
| Mp3Stages.AliasReduction | src/codecs/mp3/layer3.rs:465-488 | pure short blocks are unchanged; otherwise the lines become the butterflies over one boundary for mixed window-switching blocks and all 31 for the rest |
| Mp3Stages.FreqInvTwice | src/codecs/mp3/layer3.rs:535-541 | frequency inversion undoes itself |
| Mp3Stages.InvertedLineIs | src/codecs/mp3/layer3.rs:536-540 | the `n`-th listed line is an inverted line of the granule |
| Mp3Stages.InvertedLineIncreasing | src/codecs/mp3/layer3.rs:536-540 | the listed lines increase, so the 144 of them are distinct |
| Mp3Stages.InvertedLineOnto | src/codecs/mp3/layer3.rs:536-540 | every inverted line is listed: exactly 144 lines, odd lines of odd subbands, are negated |
| Mp3Stages.InvertSubband | src/codecs/mp3/layer3.rs:537-539 | the odd lines of one subband are negated and all other lines kept |
| Mp3Stages.FrequencyInversion | src/codecs/mp3/layer3.rs:535-541 | the lines become the frequency inversion of the old lines |
| Mp3Stages.ImdctAt | src/codecs/mp3/layer3.rs:523-530 | line `18 sb + i` becomes the first-half output of its subband plus the previous granule's carry, and the carry becomes the second-half output |
| Mp3Stages.ImdctOverlap | src/codecs/mp3/layer3.rs:527-530 | across two granules every line is the overlap-add of this granule's first half and the previous granule's second half |
| Mp3Stages.ImdctSubband | src/codecs/mp3/layer3.rs:527-530 | one subband's 18 lines and carries are written and the rest kept |
| Mp3Stages.ImdctComplete | src/codecs/mp3/layer3.rs:494-532 | once all 32 subbands are done the lines and the carry are the transform's |
| Mp3Stages.Imdct | src/codecs/mp3/layer3.rs:490-533 | for long-window block types the lines become the overlap-added transform output and the carry its second halves |
| Mp3Requantize.RequantSign | src/codecs/mp3/layer3.rs:350-356 | requantizing keeps a line's sign, and zero lines stay zero |
| Mp3Requantize.ApplyAllAppend | src/codecs/mp3/layer3.rs:341-413 | running two lists of band loops one after the other is running their concatenation |
| Mp3Requantize.ApplyAllSign | src/codecs/mp3/layer3.rs:341-413 | any sequence of band loops keeps the sign of every line |
| Mp3Requantize.BandOf | src/codecs/mp3/layer3.rs:398-400 | every line below the last edge lies in a band whose edges enclose it |
| Mp3Requantize.BandUnique | src/codecs/mp3/layer3.rs:398-400 | that band is the only one enclosing the line |
| Mp3Requantize.LongPrefix | src/codecs/mp3/layer3.rs:398-412 | after the first `n` long-band loops, exactly the lines of the first `n` bands are requantized, each with its own band's exponent |
| Mp3Requantize.LongPassesRun | src/codecs/mp3/layer3.rs:398-403 | the 22 long-band loops cover the bands in order, band `i` with the exponent of `global_gain - 210 - scale (sf + pretab)` for index `min(i, 21)` |
| Mp3Requantize.LongRequantize | src/codecs/mp3/layer3.rs:397-413 | for long blocks every line is requantized once, with the exponent of the long band it lies in |
| Mp3Requantize.ThirdLines | src/codecs/mp3/layer3.rs:363-367 | the step-by-3 loop from `a*3 + w` below `b*3 + w` visits exactly the lines of window `w` whose position lies in `a..b` |
| Mp3Requantize.WindowPassLines | src/codecs/mp3/layer3.rs:363-368 | below line 576 a short-band loop hits every third line from the band's start in its window to its end |
| Mp3Requantize.WindowHit | src/codecs/mp3/layer3.rs:379-394 | a short-band loop hits exactly the lines of its window whose position lies in its band |
| Mp3Requantize.WindowPrefix | src/codecs/mp3/layer3.rs:379-394 | after the first `n` window loops from band `lo`, exactly the lines whose band and window came up are requantized, with that window's exponent |
| Mp3Requantize.ShortRequantize | src/codecs/mp3/layer3.rs:378-396 | for pure short blocks every line is requantized once, with the exponent of its window, its short band (scale factor index capped at 11) and the window's subblock gain |
| Mp3Requantize.MixedLongPassesRun | src/codecs/mp3/layer3.rs:343-359 | the mixed block's 8 long-band loops cover the first 8 long bands in order, with window 0's subblock gain in their exponent |
| Mp3Requantize.MixedRequantize | src/codecs/mp3/layer3.rs:342-377 | in a mixed block the lines of the first 8 long bands are requantized with the long exponent, and then every line of short bands 3 to 12 is requantized again with its window exponent, so lines in both ranges are scaled twice |
| Mp3Requantize.RequantLine | src/codecs/mp3/layer3.rs:350-356 | a zero line stays zero |
| Mp3Requantize.ScaleRange | src/codecs/mp3/layer3.rs:349-358 | every line of the range is requantized with the band's exponent and every other line kept |
| Mp3Requantize.ScaleWindow | src/codecs/mp3/layer3.rs:367-375 | every third line of the window within the granule is requantized and every other line kept |
| Mp3Requantize.Requantize | src/codecs/mp3/layer3.rs:320-414 | the lines become those of running the block type's band loops in the source's order |
| Mp3Requantize.WindowPassAt | src/codecs/mp3/layer3.rs:361-364 | loop `3 (sfb - lo) + w` is window `w` of band `sfb` |
| Mp3Requantize.ScaleWindowOf | src/codecs/mp3/layer3.rs:362-376 | one window of one short band is applied |
| Mp3Requantize.ScaleBandWindows | src/codecs/mp3/layer3.rs:362-376 | a short band's three windows extend the loops run so far by three |
| Mp3Requantize.ScaleWindows | src/codecs/mp3/layer3.rs:361-377 | all short bands from `lo`, window by window, are applied in order |
| Mp3Huffman.PrependPrepend | src/codecs/mp3/layer3.rs:257-310 | values decoded in two steps in front of the rest are those decoded in one step, and a failure stays a failure |
| Mp3Huffman.Zeros | src/codecs/mp3/layer3.rs:312-315 | the zero fill has the requested length and only zeros |
| Mp3Huffman.RunEnd | src/codecs/mp3/layer3.rs:257-268 | a pair loop starting at `i` stops at `i` when `i` is already at the end, otherwise at the end or one line past it |
| Mp3Huffman.Pairs | src/codecs/mp3/layer3.rs:257-297 | a successful pair loop decodes two values per step, as many as the lines it runs over |
| Mp3Huffman.Quads | src/codecs/mp3/layer3.rs:299-310 | the count1 loop decodes values in fours and never writes past line 576 |
| Mp3Huffman.BigValuesEnd | src/codecs/mp3/layer3.rs:253 | `big_values * 2` capped at 576 is even and within the granule |
| Mp3Huffman.BigValuesLength | src/codecs/mp3/layer3.rs:250-297 | the three region loops together decode exactly up to the big-values end |
| Mp3Huffman.RunEndBound | src/codecs/mp3/layer3.rs:257-297 | with even starting points and an even bound, a pair loop ends on an even line within the bound, and exactly at the bound when that is its end |
| Mp3Huffman.PairsZeroTable | src/codecs/mp3/layer3.rs:259-261 | table 0 reads no bits and writes zeros over the whole run |
| Mp3Huffman.QuadsStop | src/codecs/mp3/layer3.rs:299-310 | the count1 loop stores no all-zero quad; it stops either because the next quad would pass line 576 or on an all-zero quad, whose bits it consumes |
| Mp3Huffman.HuffmanLines | src/codecs/mp3/layer3.rs:237-318 | a successful decoding fills all 576 lines |
| Mp3Huffman.HuffmanLayout | src/codecs/mp3/layer3.rs:247-315 | the lines are the big values up to their end, then the count1 quads, none of them all zero, then zeros up to line 576 |
| Mp3Huffman.PairStep | src/codecs/mp3/layer3.rs:258-268 | one step decodes the next pair of the run, or fails exactly when the run fails |
| Mp3Huffman.ReadPairs | src/codecs/mp3/layer3.rs:257-269 | a region loop succeeds exactly when the run decodes; it then leaves the reader after the run's bits and has written the run's values after the earlier lines |
| Mp3Huffman.QuadStep | src/codecs/mp3/layer3.rs:301-309 | one step decodes the next quad, ends the loop on an all-zero quad, or fails exactly when the loop fails |
| Mp3Huffman.ReadQuads | src/codecs/mp3/layer3.rs:299-310 | the count1 loop succeeds exactly when its decoding does; it then leaves the reader after those bits and has written the quads after the big values |
| Mp3Huffman.ZeroTail | src/codecs/mp3/layer3.rs:312-315 | every line from the stop point to 576 is set to zero |
| Mp3Huffman.ReadFirstRegions | src/codecs/mp3/layer3.rs:257-283 | the region 0 and region 1 loops succeed exactly when their decoding does and then leave an even count of lines written within the big values |
| Mp3Huffman.ReadBigValues | src/codecs/mp3/layer3.rs:257-297 | the three region loops succeed exactly when the big-values decoding does, writing its values and leaving the reader after its bits |
| Mp3Huffman.DecodeHuffman | src/codecs/mp3/layer3.rs:237-318 | decoding succeeds exactly when the specified decoding does; it then leaves the reader after the consumed bits and every line holds the decoded value |
| Mp3Scalefactors.Snoc | src/codecs/mp3/layer3.rs:157-229 | one more read adds its width to the bits consumed and becomes the last read of its entry |
| Mp3Scalefactors.LayoutBitsAppend | src/codecs/mp3/layer3.rs:151-232 | the reads of consecutive loops consume the sum of their bits |
| Mp3Scalefactors.RowBits | src/codecs/mp3/layer3.rs:161-163 | the inner window loop reads `windows * width` bits |
| Mp3Scalefactors.GroupBits | src/codecs/mp3/layer3.rs:160-169 | a band loop over `lo..hi` reads `(hi - lo) * windows * width` bits |
| Mp3Scalefactors.LastReadAppend | src/codecs/mp3/layer3.rs:151-232 | the last read of an entry in two loops is the second loop's, shifted past the first, or else the first loop's |
| Mp3Scalefactors.DecodedAppend | src/codecs/mp3/layer3.rs:151-232 | running two read lists one after the other leaves each entry as the second list leaves it when started from what the first left |
| Mp3Scalefactors.GroupLastReadAt | src/codecs/mp3/layer3.rs:160-169 | in a band loop, entry `[w][i]` is read exactly when `i` lies in the loop's range and `w` below its window count, at the offset of its place in the loop order |
| Mp3Scalefactors.GroupDecodedAt | src/codecs/mp3/layer3.rs:160-169 | after a band loop every entry it reads holds the bits at its place in the loop order, truncated to a byte, and every other entry keeps its value |
| Mp3Scalefactors.OffsetBound | src/codecs/mp3/layer3.rs:160-169 | every read of a band loop lies within the bits the loop consumes |
| Mp3Scalefactors.ReadGroup | src/codecs/mp3/layer3.rs:160-169 | a band loop succeeds exactly when all its bits are there; it then advances the reader by them and leaves every entry as its read list says |
| Mp3Scalefactors.ReadRow | src/codecs/mp3/layer3.rs:161-163 | one band index's window loop extends the reads done so far, or fails only when the loop's bits run out |
| Mp3Scalefactors.Store | src/codecs/mp3/layer3.rs:162 | storing one read value extends the entries done by that one |
| Mp3Scalefactors.ReadPart | src/codecs/mp3/layer3.rs:184-191 | a loop that may be skipped extends the reads done so far when run, succeeding exactly when its bits are there |
| Mp3Scalefactors.RegionsBits | src/codecs/mp3/layer3.rs:184-191 | the first regions never consume more bits than all four |
| Mp3Scalefactors.DecodeScalefactors | src/codecs/mp3/layer3.rs:140-235 | decoding succeeds exactly when the granule's whole read list fits in the bits left; it then advances the reader by the list's bits and every entry holds its last read, or its old value when the list does not read it |
| Mp3Scalefactors.Mpeg1Short | src/codecs/mp3/layer3.rs:170-181 | MPEG-1 short blocks read bands 0-5 of all three windows with `slen0`, then bands 6-11 with `slen1` |
| Mp3Scalefactors.Mpeg1Mixed | src/codecs/mp3/layer3.rs:156-169 | MPEG-1 mixed blocks read long bands 0-7 with `slen0`, short bands 3-5 of all windows with `slen0` and short bands 6-11 with `slen1` |
| Mp3Scalefactors.Mpeg1Long | src/codecs/mp3/layer3.rs:182-192 | MPEG-1 long blocks read the four SCFSI regions whose flag is clear, the first two with `slen0` and the others with `slen1` |
| Mp3Scalefactors.Mpeg2Short | src/codecs/mp3/layer3.rs:200-214 | MPEG-2 short blocks read the two band groups of all windows, skipping a group whose width is 0 |
| Mp3Scalefactors.Mpeg2Long | src/codecs/mp3/layer3.rs:215-231 | MPEG-2 long blocks read the three band groups, skipping a group whose width is 0 |
| Mp3Scalefactors.Mpeg1Bits | src/codecs/mp3/layer3.rs:151-192 | MPEG-1 reads `8 slen0 + 9 slen0 + 18 slen1` bits for mixed blocks, `18 slen0 + 18 slen1` for short blocks, and for long blocks 6 or 5 reads per region whose SCFSI flag is clear |
| Mp3Scalefactors.LongBits | src/codecs/mp3/layer3.rs:183-191 | the long-block regions 0-5, 6-10, 11-15 and 16-20 each cost their band count times their width unless their SCFSI flag is set |
| Mp3Scalefactors.Mpeg2Bits | src/codecs/mp3/layer3.rs:193-231 | MPEG-2 reads `18 s0 + 18 s1` bits for short blocks and `6 s0 + 6 s1 + 9 s2` for long blocks, with the widths unpacked from `scalefac_compress` |
| Mp3Scalefactors.RegionOf | src/codecs/mp3/layer3.rs:183-187 | every long band below 21 lies in exactly the SCFSI region whose edges enclose it |
| Mp3Scalefactors.RegionsReads | src/codecs/mp3/layer3.rs:184-191 | the first `n` regions read entry `[0][i]` exactly when `i` lies in them and its region's flag is clear, with `slen0` for regions 0 and 1 and `slen1` after |
| Mp3Scalefactors.LongReads | src/codecs/mp3/layer3.rs:182-192 | an MPEG-1 long block leaves an entry unread exactly when it is outside window 0, at band 21, or in a region whose SCFSI flag is set; bands below 11 use `slen0` |
| Mp3Scalefactors.Mpeg1ShortReads | src/codecs/mp3/layer3.rs:170-181 | in an MPEG-1 short block each entry of bands 0-11 and windows 0-2 is read once, at its place in the loop order, and nothing else is read |
| Mp3Scalefactors.Mpeg1MixedReads | src/codecs/mp3/layer3.rs:156-169 | in an MPEG-1 mixed block short bands 3-5 are read after the long bands, and window 0's entries 3-5 hold the short read, not the long one |
| Mp3Scalefactors.Mpeg2ShortReads | src/codecs/mp3/layer3.rs:200-214 | in an MPEG-2 short block each entry of a group with non-zero width is read once, and entries of zero-width groups keep their value |
| Mp3Scalefactors.Mpeg2LongReads | src/codecs/mp3/layer3.rs:215-231 | in an MPEG-2 long block each band of a group with non-zero width is read once in window 0, and other entries keep their value |
| Mp3Layer3.DspFits | src/codecs/mp3/layer3.rs:6-9 | the standard tables have the sizes every frame's decoding indexes into |
| Mp3Layer3.SfTable | src/codecs/mp3/layer3.rs:80 | the scale factors of a channel form a 3 x 22 table |
| Mp3Layer3.LinesSpec | src/codecs/mp3/layer3.rs:94-96 | a channel's decoded and requantized lines are all 576 lines |
| Mp3Layer3.HuffmanRequantize | src/codecs/mp3/layer3.rs:94-96 | Huffman decoding followed by requantization ends normally, with `None` or with a panic exactly as specified, and on success leaves the specified lines and reader position |
| Mp3Layer3.ChannelFromLines | src/codecs/mp3/layer3.rs:85-96 | when the scale factors fit in the bits, the channel continues from where they end with the table they fill |
| Mp3Layer3.ReadChannel | src/codecs/mp3/layer3.rs:85-96 | reading a channel's scale factors, lines and requantization succeeds, returns `None` or panics exactly as specified, and on success leaves the specified lines and position |
| Mp3Layer3.DecodeChannel | src/codecs/mp3/layer3.rs:83-96 | one channel of a granule: the outcome is the specified one, with a panic when the `SLEN_TABLE` or band-table index is out of range, and on success the lines and reader position are the specified ones |
| Mp3Layer3.ChannelStages | src/codecs/mp3/layer3.rs:104-110 | reorder, alias reduction, IMDCT and frequency inversion run in that order; a short block type panics in the short-window IMDCT, and only then; otherwise the lines become `StagedLines` of the old lines and carry, and the carry the IMDCT's second halves (`StagedCarry`) |
| Mp3Layer3.ReadLines | src/codecs/mp3/layer3.rs:82-97 | the first channel loop of a granule, each channel read from where the one before stopped and the first `None` or panic ending it, with a third channel panicking on the two-entry side information: a completed read covers at most two channels and holds 576 lines for each |
| Mp3Layer3.ReadLinesStops | src/codecs/mp3/layer3.rs:82-97 | once a channel ends the loop with `None` or a panic, the channels after it change nothing |
| Mp3Layer3.ReadChannelStep | src/codecs/mp3/layer3.rs:82-96 | one pass of the channel loop reads channel `ch` into its own lines and leaves the other channel's lines, exactly as `ReadLines` over one more channel says; a third channel panics |
| Mp3Layer3.ReadGranuleLines | src/codecs/mp3/layer3.rs:79-97 | from zeroed lines, the channel loop ends normally, with `None` or with a panic exactly as `ReadLines` says, and a completed loop leaves its lines and bit position |
| Mp3Layer3.GranuleSpec | src/codecs/mp3/layer3.rs:78-128 | one granule: a `None` while reading leaves the carry; a decoded granule has at most two channels, none with a short block, and `18 * channels * 32` samples |
| Mp3Layer3.GranulesSpec | src/codecs/mp3/layer3.rs:78-128 | the first `n` granules, each from where the previous one stopped and with its carry: a decoded run has `n * 18 * channels * 32` samples and, when `n > 0`, at most two channels |
| Mp3Layer3.GranulesStop | src/codecs/mp3/layer3.rs:78-128 | once a granule ends with `None` or a panic, the granules after it change nothing |
| Mp3Layer3.GranulesAppend | src/codecs/mp3/layer3.rs:78-128 | a decoded run of granules is the run before its last granule followed by that granule's PCM, bit position and carry |
| Mp3Layer3.FrameGranules | src/codecs/mp3/layer3.rs:60-76 | the granules of a frame read from `main_data_begin` bytes before its main data; a decoded frame has `granules * 18 * channels * 32` samples |
| Mp3Layer3.ToPcmSaturates | src/codecs/mp3/layer3.rs:123 | samples at or beyond full scale saturate to 32767 and -32768 |
| Mp3Layer3.ToPcmTruncates | src/codecs/mp3/layer3.rs:123 | within range the scaled sample is truncated toward zero: the result lies within 1 of it, on its side of 0 |
| Mp3Layer3.ToPcmMonotone | src/codecs/mp3/layer3.rs:123 | louder samples never give smaller PCM values |
| Mp3Layer3.SlotOf | src/codecs/mp3/layer3.rs:114-117 | a time slot gathers one line from each of the 32 subbands |
| Mp3Layer3.Block | src/codecs/mp3/layer3.rs:119-125 | one channel's slot yields 32 PCM values |
| Mp3Layer3.SlotBlocks | src/codecs/mp3/layer3.rs:113-126 | a slot yields 32 values per channel |
| Mp3Layer3.GranulePcm | src/codecs/mp3/layer3.rs:112-127 | a granule's first `n` slots yield `n * channels * 32` values |
| Mp3Layer3.GranulePcmAt | src/codecs/mp3/layer3.rs:112-127 | value `j` of channel `ch` at slot `i` is output sample `(i * channels + ch) * 32 + j`: slots in order, channels interleaved within a slot |
| Mp3Layer3.Layer3Decoder.constructor | src/codecs/mp3/layer3.rs:34-40 | a new decoder has zero IMDCT carries, fresh filterbanks and an empty reservoir |
| Mp3Layer3.Layer3Decoder.Reset | src/codecs/mp3/layer3.rs:543-548 | reset restores fresh filterbanks, zero carries and an empty reservoir |
| Mp3Layer3.Layer3Decoder.SynthesizeSlot | src/codecs/mp3/layer3.rs:114-125 | one channel's slot advances only that channel's filterbank and yields its 32 PCM values |
| Mp3Layer3.Layer3Decoder.EmitSlot | src/codecs/mp3/layer3.rs:113-126 | one slot yields each channel's block in channel order and advances each channel's filterbank by one slot |
| Mp3Layer3.Layer3Decoder.EmitGranule | src/codecs/mp3/layer3.rs:112-127 | the granule's PCM is its 18 slots in order, and each channel's filterbank has advanced over all of them |
| Mp3Layer3.Layer3Decoder.RunStages | src/codecs/mp3/layer3.rs:104-110 | the stage loop panics exactly when one of the granule's channels uses short blocks; otherwise each channel's lines and IMDCT carry become its staged lines and carry, and a channel the frame does not have is left alone |
| Mp3Layer3.Layer3Decoder.DecodeGranule | src/codecs/mp3/layer3.rs:78-128 | a granule ends normally, with `None` or with a panic exactly as `GranuleSpec` says from the decoder's carries and filterbanks; a decoded granule's PCM, bit position, IMDCT carries and filterbank states are `GranuleSpec`'s; a `None` leaves carries and filterbanks as they were |
| Mp3Layer3.Layer3Decoder.DecodeGranules | src/codecs/mp3/layer3.rs:76-128 | the granule loop from the start of the main data ends normally, with `None` or with a panic exactly as `GranulesSpec` says; its PCM is then `GranulesSpec`'s, and unless it panics the carries are the ones `GranulesSpec` leaves |
| Mp3Layer3.Layer3Decoder.TrimReservoir | src/codecs/mp3/layer3.rs:131-135 | the reservoir keeps its last 2048 bytes, or all of them when it is no longer, and the filterbanks are untouched |
| Mp3Layer3.Layer3Decoder.DecodeMainData | src/codecs/mp3/layer3.rs:65-137 | from a given offset into the reservoir, the frame gives `Some` exactly when every granule decodes, with their PCM in order, panics exactly when a granule panics, and on `Some` trims the reservoir to its last 2048 bytes; on `None` the reservoir is unchanged |
| Mp3Layer3.Layer3Decoder.DecodeParsed | src/codecs/mp3/layer3.rs:55-137 | once the side information parses: the main data joins the reservoir; a `main_data_begin` beyond the grown reservoir gives `None`, one beyond the old reservoir alone panics; otherwise the result, PCM and carries are `FrameGranules`'s |
| Mp3Layer3.Layer3Decoder.DecodeFrame | src/codecs/mp3/layer3.rs:42-138 | a frame too short for its side information, or whose side information does not parse, gives `None` and leaves the reservoir and carries; otherwise the main data is appended; a `main_data_begin` beyond the grown reservoir gives `None`, one beyond the old reservoir alone panics on the `usize` subtraction; otherwise the frame gives `Some` exactly when every granule decodes (`FrameGranules`), the PCM is the granules' PCM in order, a panic happens exactly when a granule panics, the carries are the ones the granules leave, and the reservoir keeps its last 2048 bytes at most |

## Left out

- Floating point: `f32`/`f64` samples and coefficients are modelled as exact reals, with no rounding. The float readers and writers (`read_f32_*`, `read_f64_*`, `write_f32_*`, `write_f64_*`) and the time conversions to and from seconds are not modelled, because their results depend on IEEE rounding.
- The WAV sample converter (`converter.rs`, `to_f32`/`from_f32`) is not part of this model. `PcmEncoders.Converter` takes both as parameters.
- The IMA ADPCM nibble step (`AdpcmState`) is not part of this model. It is a parameter, and only the block layout, headers and nibble order around it are modelled.
- The Layer III helper modules are not part of this model: the frame header parser, `SideInfo::parse`, `BitReader`, the Huffman tables, IMDCT, windows, synthesis filterbank and constant tables. They are `Mp3Layer3.Dsp` parameters. `Mp3Bits.BitReader` is an MSB-first reader written to the interface the decoder uses.
- `REQUANT_TABLE` is declared in the decoder but never read, so it is not modelled. `part2_3_length` is never used to skip or bound main data, and the model follows that.
- Mp3Huffman: a failed pair or quad lookup is modelled as stopping the channel with `None`. The exact bit position where the lookup failed is not tracked.
- Mp3Layer3.Layer3Decoder.DecodeGranule: a frame header with more than two channels is reported as a panic, because the side information and the sample arrays hold two; the state the panic leaves is not stated.
- Mp3Stages.Imdct: requires a long block type (`!= 2`). The short-window branch indexes past its 18-value window and panics, and `ChannelStages` reports that panic instead of calling it.
- State after a panic or an `Err` is not specified beyond what each member's contract states: Rust unwinds, or the caller abandons the object.
- Integer overflow: additions and multiplications that overflow `u32`/`u64`/`usize` are modelled as release-build wrap-around. Debug-build overflow panics are not modelled.
- IoCursor.Cursor.Read: requires the vector to be shorter than `2^64` bytes, which every vector in memory is; the position itself may be anything `set_position` or `seek` gave it.
- IoCursor.Cursor.Write: requires the position after the write to stay below `2^64`. A write there first grows the vector with zeros up to the position, and no vector in memory reaches that size.
- The `std::io` adapters (`StdReadAdapter`, `StdWriteAdapter`) forward to the operating system. Only their error mapping is modelled (`IoError`), not the calls.
- The accessors `into_inner`, `get_ref`, `get_mut`, `buffer`, `capacity` and `position` only expose fields. They are the fields of the classes themselves and have no member of their own.
- The `Demuxer`/`Muxer` trait methods `streams`, `read_packet`, `write` and `finalize` on the WAV and raw containers delegate to the inherent methods of the same name. They are those members.
- The codecs' `flush` always returns `Ok(None)` and is not modelled separately. The `Default` impls equal `new()` and are the constructors.
- The rawvideo `Y4mFormat` comes from the Y4M container, which is not part of this model. The raw video decoder takes its frame geometry as a parameter.
- `WavMetadata` is not part of this model. It is modelled as the ordered list of `(key, value)` pairs that `INFO` parsing produces.
- Subtitles.SubtitleConfig.IsEmpty and Transforms.TransformChain.IsEmpty are predicates read by other contracts, without contracts of their own.
- Command-line flag parsing outside the track, subtitle and extension helpers is not part of this model.
- I/O on real files, clocks and the pipeline drivers are not part of this model.
- WavMuxers.WavMuxer: modelled over the vector-backed `IoCursor.Cursor` only. Write, seek and flush failures of another writer, such as a `File`, are not modelled, so the `?` early returns in `new`, `write` and `finalize` never fire. The contracts state what is written on a cursor. They do not state what a failure part-way through leaves in the file. The only failure modelled is a seek to a position of `2^63` or more in `finalize`.
- AdpcmDecoders.OutputFrame: the source reads `packet.stream_index`, a field `Packet` does not declare. The model uses the packet's `stream_id`, the nearest field, as the frame's stream index.
- `Message::render` and `render_and_exit` print to the terminal and end the process. They are I/O and are not modelled.
- Riff.TextOf: a four-character code is turned into text one character per byte, with the byte's value. `String::from_utf8_lossy` is not modelled, so for a byte of `0x80` or more the text differs from the source's (a replacement character or a multi-byte character). The text only appears in error messages; the codes are compared as bytes, which matches the source, because lossy decoding gives an ASCII code only for exactly those ASCII bytes.
- WavDemuxers.ReadInfoEntry: an INFO value is kept as its bytes with trailing zero bytes removed. The lossy UTF-8 decoding into a `String` is not modelled. Removing zero bytes before decoding gives the same string as removing NUL characters after it, because only a zero byte decodes to NUL.
- CliUtils.Lower: lower-cases ASCII letters only. Unicode lower-casing (`str::to_lowercase`), which can also change the length, is not modelled. Its contract (same length, each character on its own) and `CliUtils.LowerTwice` hold for this ASCII model, not for every Unicode string.
- Transforms.Transform: a transform is modelled as a pure function from frame to result. State that an `apply(&mut self)` implementation keeps between frames is not modelled; the transforms this repository builds keep none.
