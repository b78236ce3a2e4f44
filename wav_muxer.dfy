/**
 * Writing a RIFF/WAVE file (src/container/wav/muxer.rs) to a vector-backed
 * cursor: a header with two size placeholders, the packets, and at the end
 * the sizes patched in and, for non-empty metadata, a LIST/INFO chunk
 * appended after the samples.
 *
 * `stream_position` (src/io/seek.rs, which is not part of this model) is
 * taken to report the cursor's position.
 */
module WavMuxers {
  import opened Wrappers
  import opened Ints
  import opened Messages
  import opened AudioFrames
  import opened Packets
  import opened CoreStream
  import opened IoWriter
  import opened IoReader
  import opened IoCursor
  import opened Riff
  import opened WavFormats
  import opened WavHeaders
  import opened WavDemuxers
  import RawDemuxers

  /** The `fmt ` chunk size declared: 18 for float, 20 for IMA ADPCM, 16 otherwise. */
  function FmtSize(code: u16): u32
  {
    match code
    case 3 => 18
    case 0x11 => 20
    case _ => 16
  }

  /**
   * The samples-per-block field of an IMA ADPCM header: `(512 - 4 * count) * 2 + 1`
   * in wrapping machine-word arithmetic, truncated to 16 bits.
   */
  function SamplesPerBlockField(f: WavFormat): u16
  {
    WrapU16((512 - 4 * Count(f.channels)) * 2 + 1)
  }

  /** What follows the six common fields: a zero `u16` for float, `u16` 4 and the samples per block for IMA ADPCM. */
  function FmtExtension(f: WavFormat): seq<u8>
  {
    if f.formatCode == 3 then LeBytes(0, 2)
    else if f.formatCode == 0x11 then LeBytes(4, 2) + LeBytes(SamplesPerBlockField(f), 2)
    else []
  }

  /** The six common fields of a `fmt ` chunk, little-endian, in the order the demuxer reads them. */
  function FieldBytes(code: u16, count: u8, rate: u32, byteRate: u32, blockAlign: u16, bitDepth: u16): (b: seq<u8>)
    ensures |b| == 16
  {
    LeBytes(code, 2) + LeBytes(count, 2) + LeBytes(rate, 4) + LeBytes(byteRate, 4) + LeBytes(blockAlign, 2) + LeBytes(bitDepth, 2)
  }

  /** The six common fields of a format. */
  function FmtFieldBytes(f: WavFormat): (b: seq<u8>)
    ensures |b| == 16
  {
    FieldBytes(f.formatCode, Count(f.channels), f.sampleRate, ByteRate(f), BlockAlign(f), f.bitDepth)
  }

  /** The `fmt ` chunk body; its length is exactly the size declared for it. */
  function FmtBody(f: WavFormat): (b: seq<u8>)
    ensures |b| == FmtSize(f.formatCode)
  {
    FmtFieldBytes(f) + FmtExtension(f)
  }

  /** The `fmt ` chunk: id, declared size, the six fields and the extension. */
  function FmtChunk(f: WavFormat): (c: seq<u8>)
    ensures |c| == 8 + FmtSize(f.formatCode)
  {
    FMT_ID + LeBytes(FmtSize(f.formatCode), 4) + FmtFieldBytes(f) + FmtExtension(f)
  }

  /** A RIFF/WAVE header around a `fmt ` chunk, with a file size and a data size. */
  function RiffHeader(fileSize: u32, fmtChunk: seq<u8>, dataSize: u32): (h: seq<u8>)
    ensures |h| == 20 + |fmtChunk|
  {
    RIFF_ID + LeBytes(fileSize, 4) + WAVE_ID + fmtChunk + DATA_ID + LeBytes(dataSize, 4)
  }

  /** The header of a format with both size fields filled in. */
  function HeaderWith(f: WavFormat, fileSize: u32, dataSize: u32): (h: seq<u8>)
    ensures |h| == DataSizeOffset(f) + 4
  {
    RiffHeader(fileSize, FmtChunk(f), dataSize)
  }

  /** `write_header`'s bytes: both sizes still 0. */
  function HeaderBytes(f: WavFormat): seq<u8>
  {
    HeaderWith(f, 0, 0)
  }

  /** Where the file-size field sits in the header. */
  const FILE_SIZE_OFFSET: nat := 4

  /** Where the data-size field sits in the header: after the `fmt ` chunk and "data". */
  function DataSizeOffset(f: WavFormat): nat
  {
    24 + FmtSize(f.formatCode)
  }

  /** The bytes `calc_list_size` counts for one value: sub-chunk header, value, NUL, and a pad byte when value plus NUL is odd. */
  function ListTerm(value: seq<u8>): nat
  {
    8 + |value| + 1 + (if (|value| + 1) % 2 == 1 then 1 else 0)
  }

  /** `calc_list_size`: the fold from 8 over the terms of every value, whether or not its field has an INFO id. */
  function CalcListSize(m: Metadata): (size: nat)
    ensures size >= 8
  {
    if m == [] then 8 else CalcListSize(m[..|m| - 1]) + ListTerm(m[|m| - 1].1)
  }

  /** `write_info_chunk`: id, the length of value plus NUL as a `u32`, value, NUL, and a pad byte when that length is odd. */
  function InfoChunk(id: seq<u8>, value: seq<u8>): (c: seq<u8>)
    ensures |id| == 4 ==> |c| == ListTerm(value)
  {
    var data := value + [0];
    id + LeBytes(WrapU32(|data|), 4) + data + (if |data| % 2 == 1 then [0] else [])
  }

  /** The sub-chunk a field gets: one for a field with a known INFO id, nothing otherwise. */
  function FieldChunk(field: (string, seq<u8>)): seq<u8>
  {
    IdChunk(InfoId(field.0), field.1)
  }

  /** The sub-chunk for a value under an INFO id, if there is one. */
  function IdChunk(id: Option<seq<u8>>, value: seq<u8>): seq<u8>
  {
    match id
    case Some(id) => InfoChunk(id, value)
    case None => []
  }

  /** The sub-chunks `write_list_chunk` writes, in the metadata's order. */
  function InfoChunks(m: Metadata): seq<u8>
  {
    if m == [] then [] else InfoChunks(m[..|m| - 1]) + FieldChunk(m[|m| - 1])
  }

  /** `write_list_chunk`: nothing for empty metadata, else "LIST", `calc_list_size - 8` as a `u32`, "INFO" and the sub-chunks. */
  function ListChunk(m: Metadata): seq<u8>
  {
    if m == [] then [] else LIST_ID + LeBytes(WrapU32(CalcListSize(m) - 8), 4) + INFO_ID + InfoChunks(m)
  }

  /** `finalize` appends a LIST chunk only for metadata that is set and not empty. */
  predicate HasList(metadata: Option<Metadata>)
  {
    metadata.Some? && metadata.value != []
  }

  /** The RIFF size `finalize` writes: data size plus 36, plus the computed list size, wrapping at 2^32. */
  function FileSize(dataSize: u32, metadata: Option<Metadata>): u32
  {
    WrapU32(dataSize + 36 + (if HasList(metadata) then CalcListSize(metadata.value) else 0))
  }

  /**
   * The vector after `finalize`: the data size patched in, the LIST chunk
   * appended at the end when there is one, then the file size patched in.
   */
  function Finalized(inner: seq<u8>, dataSizePos: nat, fileSizePos: nat, dataSize: u32, metadata: Option<Metadata>): seq<u8>
  {
    var patched := Overwritten(inner, dataSizePos, LeBytes(dataSize, 4));
    var listed := if HasList(metadata) then patched + ListChunk(metadata.value) else patched;
    Overwritten(listed, fileSizePos, LeBytes(FileSize(dataSize, metadata), 4))
  }

  /** The sizes of unknown fields, which `calc_list_size` counts and `write_list_chunk` does not write. */
  function UnknownTerms(m: Metadata): nat
  {
    if m == [] then 0
    else UnknownTerms(m[..|m| - 1]) + (if InfoId(m[|m| - 1].0).None? then ListTerm(m[|m| - 1].1) else 0)
  }

  /** Every field has an INFO id. */
  predicate AllKnown(m: Metadata)
  {
    forall i :: 0 <= i < |m| ==> InfoId(m[i].0).Some?
  }

  /** The sub-chunks written plus the terms of the skipped fields are what `calc_list_size` adds to 8. */
  lemma {:induction false} InfoChunksSize(m: Metadata)
    ensures |InfoChunks(m)| + UnknownTerms(m) == CalcListSize(m) - 8
    decreases |m|
  {
    if m != [] {
      var last := m[|m| - 1];
      InfoChunksSize(m[..|m| - 1]);
      InfoTablesInverse(last.0, []);
      assert |FieldChunk(last)| + (if InfoId(last.0).None? then ListTerm(last.1) else 0) == ListTerm(last.1);
    }
  }

  /** With every field known, no term is skipped. */
  lemma {:induction false} AllKnownHasNoUnknownTerms(m: Metadata)
    requires AllKnown(m)
    ensures UnknownTerms(m) == 0
    decreases |m|
  {
    if m != [] {
      var front := m[..|m| - 1];
      assert forall i :: 0 <= i < |front| ==> front[i] == m[i];
      AllKnownHasNoUnknownTerms(front);
      assert InfoId(m[|m| - 1].0).Some?;
    }
  }

  /**
   * The LIST size field leaves out the 4-byte "INFO" form type and counts
   * fields that are not written: the bytes after the field are the
   * declared size plus 4, less the skipped fields' terms.
   */
  lemma ListSizeFieldShortfall(m: Metadata)
    requires m != []
    ensures |ListChunk(m)| - 8 + UnknownTerms(m) == (CalcListSize(m) - 8) + 4
  {
    InfoChunksSize(m);
  }

  /** With every field known, the declared LIST size is exactly 4 short of what follows it. */
  lemma KnownListSizeFourShort(m: Metadata)
    requires m != [] && AllKnown(m)
    ensures |ListChunk(m)| - 8 == (CalcListSize(m) - 8) + 4
  {
    InfoChunksSize(m);
    AllKnownHasNoUnknownTerms(m);
  }

  /** One more field adds its sub-chunk at the end. */
  lemma InfoChunksStep(m: Metadata, i: nat)
    requires i < |m|
    ensures InfoChunks(m[..i + 1]) == InfoChunks(m[..i]) + FieldChunk(m[i])
  {
    assert m[..i + 1][..i] == m[..i];
  }

  /** A prefix of the metadata writes no more sub-chunk bytes than the whole. */
  lemma {:induction false} InfoChunksOfPrefix(m: Metadata, i: nat)
    requires i <= |m|
    ensures |InfoChunks(m[..i])| <= |InfoChunks(m)|
    decreases |m|
  {
    if i < |m| {
      var front := m[..|m| - 1];
      assert m[..i] == front[..i];
      InfoChunksOfPrefix(front, i);
    } else {
      assert m[..i] == m;
    }
  }

  /** The IMA ADPCM samples-per-block field is exact up to 128 channels. */
  lemma SamplesPerBlockExact(f: WavFormat)
    requires Count(f.channels) <= 128
    ensures SamplesPerBlockField(f) == (512 - 4 * Count(f.channels)) * 2 + 1
  {
  }

  /** Above 128 channels the subtraction goes below zero and the field wraps: 129 channels give 65529. */
  lemma SamplesPerBlockWrapsAt129(f: WavFormat)
    requires Count(f.channels) == 129
    ensures SamplesPerBlockField(f) == 65529
  {
  }

  /** `write_all` of `bytes` at the end of a run that started at `pos0`: the run grows by `bytes`. */
  method Put(writer: Cursor, bytes: seq<u8>, ghost inner0: seq<u8>, ghost pos0: nat, ghost done: seq<u8>)
    requires writer.inner == Written(inner0, pos0, done) && writer.pos == pos0 + |done|
    requires writer.pos + |bytes| < U64_LIMIT
    modifies writer
    ensures writer.inner == Written(inner0, pos0, done + bytes) && writer.pos == pos0 + |done + bytes|
  {
    var _ := IoCursor.WriteAll(writer, bytes);
    WrittenConsecutive(inner0, pos0, done, bytes);
  }

  /** The six common `fmt ` fields, one little-endian write each (src/container/wav/muxer.rs:52-57). */
  method WriteFields(writer: Cursor, code: u16, count: u8, rate: u32, byteRate: u32, blockAlign: u16, bitDepth: u16)
    requires writer.pos + 16 < U64_LIMIT
    modifies writer
    ensures writer.inner == Written(old(writer.inner), old(writer.pos), FieldBytes(code, count, rate, byteRate, blockAlign, bitDepth))
    ensures writer.pos == old(writer.pos) + 16
  {
    ghost var inner0, pos0 := writer.inner, writer.pos;
    Put(writer, LeBytes(code, 2), inner0, pos0, []);
    ghost var done := LeBytes(code, 2);
    Put(writer, LeBytes(count, 2), inner0, pos0, done);
    done := done + LeBytes(count, 2);
    Put(writer, LeBytes(rate, 4), inner0, pos0, done);
    done := done + LeBytes(rate, 4);
    Put(writer, LeBytes(byteRate, 4), inner0, pos0, done);
    done := done + LeBytes(byteRate, 4);
    Put(writer, LeBytes(blockAlign, 2), inner0, pos0, done);
    done := done + LeBytes(blockAlign, 2);
    Put(writer, LeBytes(bitDepth, 2), inner0, pos0, done);
    done := done + LeBytes(bitDepth, 2);
    assert done == FieldBytes(code, count, rate, byteRate, blockAlign, bitDepth);
  }

  /** The format extension of `write_header` (src/container/wav/muxer.rs:59-65). */
  method WriteExtension(writer: Cursor, f: WavFormat)
    requires writer.pos + 4 < U64_LIMIT
    modifies writer
    ensures writer.inner == Written(old(writer.inner), old(writer.pos), FmtExtension(f))
    ensures writer.pos == old(writer.pos) + |FmtExtension(f)|
  {
    if f.formatCode == 3 {
      var _ := IoCursor.WriteAll(writer, LeBytes(0, 2));
    } else if f.formatCode == 0x11 {
      var spb := WrapU16((512 - 4 * Count(f.channels)) * 2 + 1);
      WriteAdpcmExtension(writer, spb);
    }
  }

  /** The IMA ADPCM extension: extra size 4, then the samples per block. */
  method WriteAdpcmExtension(writer: Cursor, samplesPerBlock: u16)
    requires writer.pos + 4 < U64_LIMIT
    modifies writer
    ensures writer.inner == Written(old(writer.inner), old(writer.pos), LeBytes(4, 2) + LeBytes(samplesPerBlock, 2))
    ensures writer.pos == old(writer.pos) + 4
  {
    ghost var inner0, pos0 := writer.inner, writer.pos;
    Put(writer, LeBytes(4, 2), inner0, pos0, []);
    Put(writer, LeBytes(samplesPerBlock, 2), inner0, pos0, LeBytes(4, 2));
  }

  /** The `fmt ` chunk of `write_header` (src/container/wav/muxer.rs:44-65). */
  method WriteFmtChunk(writer: Cursor, f: WavFormat)
    requires writer.pos + 4 + 4 + 20 < U64_LIMIT
    modifies writer
    ensures writer.inner == Written(old(writer.inner), old(writer.pos), FmtChunk(f))
    ensures writer.pos == old(writer.pos) + 8 + FmtSize(f.formatCode)
  {
    ghost var inner0, pos0 := writer.inner, writer.pos;
    Put(writer, FMT_ID, inner0, pos0, []);
    var fmtSize := FmtSize(f.formatCode);
    Put(writer, LeBytes(fmtSize, 4), inner0, pos0, FMT_ID);
    ghost var done := FMT_ID + LeBytes(fmtSize, 4);
    ghost var fields := FmtFieldBytes(f);
    WriteFields(writer, f.formatCode, Count(f.channels), f.sampleRate, ByteRate(f), BlockAlign(f), f.bitDepth);
    WrittenConsecutive(inner0, pos0, done, fields);
    done := done + fields;
    ghost var extension := FmtExtension(f);
    WriteExtension(writer, f);
    WrittenConsecutive(inner0, pos0, done, extension);
    assert done + extension == FmtChunk(f);
  }

  /**
   * `write_header`: the header with zero sizes, and the offsets of the
   * file-size and data-size fields, read from the position as it goes.
   */
  method WriteHeader(writer: Cursor, f: WavFormat) returns (r: MsgResult<(u64, u64)>)
    requires writer.pos + 48 < U64_LIMIT
    modifies writer
    ensures r == Ok((old(writer.pos) + FILE_SIZE_OFFSET, old(writer.pos) + DataSizeOffset(f)))
    ensures writer.inner == Written(old(writer.inner), old(writer.pos), HeaderBytes(f))
    ensures writer.pos == old(writer.pos) + |HeaderBytes(f)|
  {
    ghost var inner0, pos0 := writer.inner, writer.pos;
    Put(writer, RIFF_ID, inner0, pos0, []);
    var fileSizePos := writer.Position();
    Put(writer, LeBytes(0, 4), inner0, pos0, RIFF_ID);
    ghost var done := RIFF_ID + LeBytes(0, 4);
    Put(writer, WAVE_ID, inner0, pos0, done);
    done := done + WAVE_ID;
    ghost var fmtChunk := FmtChunk(f);
    WriteFmtChunk(writer, f);
    WrittenConsecutive(inner0, pos0, done, fmtChunk);
    done := done + fmtChunk;
    Put(writer, DATA_ID, inner0, pos0, done);
    done := done + DATA_ID;
    var dataSizePos := writer.Position();
    Put(writer, LeBytes(0, 4), inner0, pos0, done);
    done := done + LeBytes(0, 4);
    assert done == HeaderBytes(f);
    r := Ok((fileSizePos, dataSizePos));
  }

  /** `write_info_chunk`. */
  method WriteInfoChunk(writer: Cursor, id: seq<u8>, value: seq<u8>) returns (r: MsgResult<()>)
    requires writer.pos + |InfoChunk(id, value)| < U64_LIMIT
    modifies writer
    ensures r == Ok(())
    ensures writer.inner == Written(old(writer.inner), old(writer.pos), InfoChunk(id, value))
    ensures writer.pos == old(writer.pos) + |InfoChunk(id, value)|
  {
    ghost var inner0, pos0 := writer.inner, writer.pos;
    var data := value + [0];
    Put(writer, id, inner0, pos0, []);
    Put(writer, LeBytes(WrapU32(|data|), 4), inner0, pos0, id);
    ghost var done := id + LeBytes(WrapU32(|data|), 4);
    Put(writer, data, inner0, pos0, done);
    done := done + data;
    if |data| % 2 == 1 {
      Put(writer, LeBytes(0, 1), inner0, pos0, done);
      done := done + LeBytes(0, 1);
    }
    assert done == InfoChunk(id, value);
    r := Ok(());
  }

  /** One turn of `write_list_chunk`'s loop: a value under an INFO id gets its sub-chunk; without one it is skipped. */
  method WriteField(writer: Cursor, id: Option<seq<u8>>, value: seq<u8>, ghost inner0: seq<u8>, ghost pos0: nat, ghost done: seq<u8>)
    requires writer.inner == Written(inner0, pos0, done) && writer.pos == pos0 + |done|
    requires writer.pos + |IdChunk(id, value)| < U64_LIMIT
    modifies writer
    ensures writer.inner == Written(inner0, pos0, done + IdChunk(id, value))
    ensures writer.pos == pos0 + |done + IdChunk(id, value)|
  {
    match id
    case None =>
      assert done + IdChunk(id, value) == done;
    case Some(id) =>
      var _ := WriteInfoChunk(writer, id, value);
      WrittenConsecutive(inner0, pos0, done, InfoChunk(id, value));
  }

  /** The start of `write_list_chunk`: "LIST", the list size as a `u32`, and "INFO". */
  method WriteListHead(writer: Cursor, listSize: nat)
    requires writer.pos + 12 < U64_LIMIT
    modifies writer
    ensures writer.inner == Written(old(writer.inner), old(writer.pos), LIST_ID + LeBytes(WrapU32(listSize), 4) + INFO_ID)
    ensures writer.pos == old(writer.pos) + 12
  {
    ghost var inner0, pos0 := writer.inner, writer.pos;
    Put(writer, LIST_ID, inner0, pos0, []);
    Put(writer, LeBytes(WrapU32(listSize), 4), inner0, pos0, LIST_ID);
    Put(writer, INFO_ID, inner0, pos0, LIST_ID + LeBytes(WrapU32(listSize), 4));
  }

  /** `write_list_chunk`: the fields are visited in order and those without an INFO id are skipped. */
  method WriteListChunk(writer: Cursor, m: Metadata) returns (r: MsgResult<()>)
    requires writer.pos + |ListChunk(m)| < U64_LIMIT
    modifies writer
    ensures r == Ok(())
    ensures writer.inner == Written(old(writer.inner), old(writer.pos), ListChunk(m))
    ensures writer.pos == old(writer.pos) + |ListChunk(m)|
  {
    if m == [] {
      return Ok(());
    }
    ghost var inner0, pos0 := writer.inner, writer.pos;
    var listSize := CalcListSize(m) - 8;
    ghost var head := LIST_ID + LeBytes(WrapU32(listSize), 4) + INFO_ID;
    WriteListHead(writer, listSize);
    WriteInfoFields(writer, m, inner0, pos0, head);
    r := Ok(());
  }

  /** The field loop of `write_list_chunk`, after the head `head` of the LIST chunk. */
  method WriteInfoFields(writer: Cursor, m: Metadata, ghost inner0: seq<u8>, ghost pos0: nat, ghost head: seq<u8>)
    requires writer.inner == Written(inner0, pos0, head) && writer.pos == pos0 + |head|
    requires pos0 + |head + InfoChunks(m)| < U64_LIMIT
    modifies writer
    ensures writer.inner == Written(inner0, pos0, head + InfoChunks(m))
    ensures writer.pos == pos0 + |head + InfoChunks(m)|
  {
    assert m[..0] == [];
    assert head + InfoChunks(m[..0]) == head;
    for i := 0 to |m|
      invariant writer.inner == Written(inner0, pos0, head + InfoChunks(m[..i]))
      invariant writer.pos == pos0 + |head + InfoChunks(m[..i])|
    {
      ghost var done := head + InfoChunks(m[..i]);
      InfoChunksStep(m, i);
      InfoChunksOfPrefix(m, i + 1);
      ConcatAssoc(head, InfoChunks(m[..i]), FieldChunk(m[i]));
      var field := m[i];
      WriteField(writer, InfoId(field.0), field.1, inner0, pos0, done);
    }
    assert m[..|m|] == m;
  }

  /** A `u32` sum taken in two wrapping steps is the sum modulo 2^32. */
  lemma WrapU32Sum(a: int, b: int)
    ensures WrapU32(WrapU32(a) + WrapU32(b)) == WrapU32(a + b)
  {
    var qa, qb := a / U32_LIMIT, b / U32_LIMIT;
    assert a == qa * U32_LIMIT + WrapU32(a);
    assert b == qb * U32_LIMIT + WrapU32(b);
    assert a + b == (qa + qb) * U32_LIMIT + (WrapU32(a) + WrapU32(b));
    var sum := WrapU32(a) + WrapU32(b);
    assert sum == (sum / U32_LIMIT) * U32_LIMIT + sum % U32_LIMIT;
    DivModUnique(a + b, qa + qb + sum / U32_LIMIT, sum % U32_LIMIT, U32_LIMIT);
  }

  class WavMuxer {
    const writer: Cursor
    const format: WavFormat
    const streams: Streams
    var metadata: Option<Metadata>
    var dataSize: u32
    const dataSizePos: u64
    const fileSizePos: u64

    /** The muxer over a writer whose header is written: one audio stream, no metadata, no data yet. */
    constructor FromHeader(writer: Cursor, format: WavFormat, fileSizePos: u64, dataSizePos: u64)
      ensures this.writer == writer && this.format == format
      ensures this.fileSizePos == fileSizePos && this.dataSizePos == dataSizePos
      ensures fresh(streams) && streams.inner == [RawDemuxers.AudioStream(ToCodecString(format), format.sampleRate)]
      ensures metadata == None && dataSize == 0
    {
      this.writer := writer;
      this.format := format;
      var all := new Streams.Empty();
      all.Add(RawDemuxers.AudioStream(ToCodecString(format), format.sampleRate));
      streams := all;
      metadata := None;
      dataSize := 0;
      this.fileSizePos := fileSizePos;
      this.dataSizePos := dataSizePos;
    }

    /** `WavMuxer::new`: the header is written and flushed, and its two size offsets are kept. */
    static method New(writer: Cursor, format: WavFormat) returns (r: MsgResult<WavMuxer>)
      requires writer.pos + 48 < U64_LIMIT
      modifies writer
      ensures r.Ok? && fresh(r.value) && fresh(r.value.streams)
      ensures r.value.writer == writer && r.value.format == format
      ensures writer.inner == Written(old(writer.inner), old(writer.pos), HeaderBytes(format))
      ensures writer.pos == old(writer.pos) + |HeaderBytes(format)|
      ensures r.value.fileSizePos == old(writer.pos) + FILE_SIZE_OFFSET
      ensures r.value.dataSizePos == old(writer.pos) + DataSizeOffset(format)
      ensures r.value.streams.inner == [RawDemuxers.AudioStream(ToCodecString(format), format.sampleRate)]
      ensures r.value.metadata == None && r.value.dataSize == 0
    {
      var positions := WriteHeader(writer, format);
      var _ := writer.Flush();
      var muxer := new WavMuxer.FromHeader(writer, format, positions.value.0, positions.value.1);
      r := Ok(muxer);
    }

    /** `with_metadata`. */
    method WithMetadata(metadata: Option<Metadata>)
      modifies this
      ensures this.metadata == metadata && dataSize == old(dataSize)
    {
      this.metadata := metadata;
    }

    /** `write_packet`: the payload is written where the cursor is; `data_size` counts it, wrapping at 2^32. */
    method WritePacket(packet: Packet) returns (r: MsgResult<()>)
      requires writer.pos + |packet.data| < U64_LIMIT
      modifies this, writer
      ensures r == Ok(())
      ensures writer.inner == Written(old(writer.inner), old(writer.pos), packet.data)
      ensures writer.pos == old(writer.pos) + |packet.data|
      ensures dataSize == WrapU32(old(dataSize) + |packet.data|) && metadata == old(metadata)
    {
      var _ := IoCursor.WriteAll(writer, packet.data);
      WrapU32Sum(dataSize, |packet.data|);
      dataSize := WrapU32(dataSize + WrapU32(|packet.data|));
      r := Ok(());
    }

    /**
     * `finalize`: the data size goes to its placeholder; for non-empty
     * metadata the list chunk is appended at the end; the file size goes to
     * its placeholder.  Only a seek can fail, and only to an offset of 2^63
     * or more.
     */
    method Finalize() returns (r: MsgResult<()>)
      requires HasList(metadata) ==> |ListChunk(metadata.value)| < I64_LIMIT
      modifies writer
      ensures r.Err? ==> r.error == ErrorMessage("seek to negative position")
      ensures dataSizePos >= I64_LIMIT ==> r.Err? && writer.inner == old(writer.inner)
      ensures dataSizePos + 4 < I64_LIMIT && fileSizePos < I64_LIMIT && |old(writer.inner)| + 4 < I64_LIMIT ==>
                r == Ok(())
                && writer.inner == Finalized(old(writer.inner), dataSizePos, fileSizePos, dataSize, metadata)
                && writer.pos == fileSizePos + 4
    {
      ghost var fits := dataSizePos + 4 < I64_LIMIT && fileSizePos < I64_LIMIT && |writer.inner| + 4 < I64_LIMIT;
      ghost var inner0 := writer.inner;
      r := PatchSize(writer, dataSizePos, dataSize);
      if r.Err? {
        return;
      }
      ghost var patched := writer.inner;
      assert fits ==> |patched| < I64_LIMIT;
      var fileSize;
      r, fileSize := AddList(writer, dataSize, metadata);
      if r.Err? {
        return;
      }
      ghost var listed := writer.inner;
      r := PatchSize(writer, fileSizePos, fileSize);
      if r.Err? {
        return;
      }
      if fits {
        FinalizedInSteps(inner0, dataSizePos, fileSizePos, dataSize, metadata, patched, listed);
      }
      var _ := writer.Flush();
    }
  }

  /**
   * The middle of `finalize`: the file size is data size plus 36, and for
   * non-empty metadata the computed list size is added and the list chunk
   * appended at the end.
   */
  method AddList(writer: Cursor, dataSize: u32, metadata: Option<Metadata>) returns (r: MsgResult<()>, fileSize: u32)
    requires HasList(metadata) ==> |ListChunk(metadata.value)| < I64_LIMIT
    modifies writer
    ensures fileSize == FileSize(dataSize, metadata)
    ensures r.Err? ==> r.error == ErrorMessage("seek to negative position")
    ensures |old(writer.inner)| < I64_LIMIT ==>
              r == Ok(())
              && writer.inner == if HasList(metadata) then old(writer.inner) + ListChunk(metadata.value) else old(writer.inner)
  {
    FileSizeInSteps(dataSize, metadata);
    fileSize := WrapU32(dataSize + 36);
    r := Ok(());
    if metadata.Some? {
      var meta := metadata.value;
      if meta != [] {
        fileSize := WrapU32(fileSize + WrapU32(CalcListSize(meta)));
        r := AppendList(writer, meta);
      }
    }
  }

  /** `finalize` computes the file size in two wrapping additions, which agree with `FileSize`. */
  lemma FileSizeInSteps(dataSize: u32, metadata: Option<Metadata>)
    ensures FileSize(dataSize, metadata)
            == if HasList(metadata) then WrapU32(WrapU32(dataSize + 36) + WrapU32(CalcListSize(metadata.value)))
               else WrapU32(dataSize + 36)
  {
    if HasList(metadata) {
      WrapU32Sum(dataSize + 36, CalcListSize(metadata.value));
    }
  }

  /** `Finalized` is the two patches with the list appended between them. */
  lemma FinalizedInSteps(inner: seq<u8>, dataSizePos: nat, fileSizePos: nat, dataSize: u32, metadata: Option<Metadata>,
                         patched: seq<u8>, listed: seq<u8>)
    requires patched == Overwritten(inner, dataSizePos, LeBytes(dataSize, 4))
    requires listed == if HasList(metadata) then patched + ListChunk(metadata.value) else patched
    ensures Finalized(inner, dataSizePos, fileSizePos, dataSize, metadata)
            == Overwritten(listed, fileSizePos, LeBytes(FileSize(dataSize, metadata), 4))
  {
  }

  /** A seek to `at` followed by the four bytes of `value`, as `finalize` patches each size field. */
  method PatchSize(writer: Cursor, at: u64, value: u32) returns (r: MsgResult<()>)
    modifies writer
    ensures at >= I64_LIMIT ==> r == Err(ErrorMessage("seek to negative position")) && writer.inner == old(writer.inner)
    ensures at < I64_LIMIT ==>
              r == Ok(()) && writer.inner == Overwritten(old(writer.inner), at, LeBytes(value, 4)) && writer.pos == at + 4
  {
    if at < I64_LIMIT {
      SeekStartExact(at, |writer.inner|, writer.pos);
    } else {
      SeekStartHighBitRefused(at, |writer.inner|, writer.pos);
    }
    var s := writer.Seek(Start(at));
    if s.Err? {
      return Err(s.error);
    }
    var _ := IoCursor.WriteAll(writer, LeBytes(value, 4));
    r := Ok(());
  }

  /** A seek to the end followed by the list chunk of non-empty metadata. */
  method AppendList(writer: Cursor, meta: Metadata) returns (r: MsgResult<()>)
    requires |ListChunk(meta)| < I64_LIMIT
    modifies writer
    ensures r.Err? ==> r.error == ErrorMessage("seek to negative position")
    ensures |old(writer.inner)| < I64_LIMIT ==> r == Ok(()) && writer.inner == old(writer.inner) + ListChunk(meta)
  {
    ghost var before := writer.inner;
    if |writer.inner| < I64_LIMIT {
      SeekEndZeroIsLength(|writer.inner|, writer.pos);
    }
    var s := writer.Seek(End(0));
    if s.Err? {
      return Err(s.error);
    }
    var _ := WriteListChunk(writer, meta);
    if |before| < I64_LIMIT {
      AppendingWrite(before, ListChunk(meta));
    }
    r := Ok(());
  }

  /** The little-endian field at `|x|` of `x + LeBytes(v, n) + y` reads back as `v` modulo 256^n. */
  lemma LeAt(x: seq<u8>, v: int, n: nat, y: seq<u8>)
    ensures Le(x + LeBytes(v, n) + y, |x|, n) == v % Pow256(n)
  {
    var d := x + LeBytes(v, n) + y;
    assert d[|x|..|x| + n] == LeBytes(v, n);
    LeRoundTrip(v, n);
  }

  /** The header the demuxer reads from what the muxer writes for a format. */
  function HeaderOf(f: WavFormat): WavHeader
  {
    WavHeader(FromCount(Count(f.channels)), f.sampleRate, ByteRate(f), BlockAlign(f), f.bitDepth, f.formatCode)
  }

  /** The powers of 256 the header fields use. */
  lemma FieldLimits()
    ensures Pow256(1) == U8_LIMIT && Pow256(2) == U16_LIMIT && Pow256(4) == U32_LIMIT
  {
  }

  /** A field holding the little-endian bytes of a value that fits reads back as that value. */
  lemma LeField(d: seq<u8>, at: nat, n: nat, v: nat)
    requires at + n <= |d| && d[at..at + n] == LeBytes(v, n) && v < Pow256(n)
    ensures Le(d, at, n) == v
  {
    LeRoundTrip(v, n);
    DivModUnique(v, 0, v, Pow256(n));
  }

  /** Where six consecutive fields of widths 2, 2, 4, 4, 2, 2 sit. */
  lemma SixFields(a: seq<u8>, b: seq<u8>, c: seq<u8>, e: seq<u8>, g: seq<u8>, h: seq<u8>, tail: seq<u8>)
    requires |a| == 2 && |b| == 2 && |c| == 4 && |e| == 4 && |g| == 2 && |h| == 2
    ensures var d := a + b + c + e + g + h + tail;
      d[0..2] == a && d[2..4] == b && d[4..8] == c && d[8..12] == e && d[12..14] == g && d[14..16] == h
  {
  }

  /** The demuxer's `fmt ` fields of the six written fields are their values, the channel count through `from_count`. */
  lemma FieldsReadBack(code: u16, count: u8, rate: u32, byteRate: u32, blockAlign: u16, bitDepth: u16, tail: seq<u8>)
    ensures FmtFields(FieldBytes(code, count, rate, byteRate, blockAlign, bitDepth) + tail)
            == WavHeader(FromCount(count), rate, byteRate, blockAlign, bitDepth, code)
  {
    var c, ch, r, br := LeBytes(code, 2), LeBytes(count, 2), LeBytes(rate, 4), LeBytes(byteRate, 4);
    var ba, bd := LeBytes(blockAlign, 2), LeBytes(bitDepth, 2);
    var d := FieldBytes(code, count, rate, byteRate, blockAlign, bitDepth) + tail;
    assert d == c + ch + r + br + ba + bd + tail;
    SixFields(c, ch, r, br, ba, bd, tail);
    FieldLimits();
    LeField(d, 0, 2, code);
    LeField(d, 2, 2, count);
    LeField(d, 4, 4, rate);
    LeField(d, 8, 4, byteRate);
    LeField(d, 12, 2, blockAlign);
    LeField(d, 14, 2, bitDepth);
  }

  /** The demuxer's `fmt ` fields of the muxer's body are the format's own values. */
  lemma FmtFieldsReadBack(f: WavFormat, tail: seq<u8>)
    ensures FmtFields(FmtFieldBytes(f) + tail) == HeaderOf(f)
  {
    FieldsReadBack(f.formatCode, Count(f.channels), f.sampleRate, ByteRate(f), BlockAlign(f), f.bitDepth, tail);
  }

  /** The six `fmt ` fields lie in the first 16 bytes, so what follows them does not matter. */
  lemma FmtFieldsIgnoreTail(d: seq<u8>, tail: seq<u8>)
    requires |d| >= 16
    ensures FmtFields(d + tail) == FmtFields(d)
  {
    var e := d + tail;
    assert e[0..2] == d[0..2] && e[2..4] == d[2..4] && e[4..8] == d[4..8];
    assert e[8..12] == d[8..12] && e[12..14] == d[12..14] && e[14..16] == d[14..16];
  }

  /** The first twelve bytes of a header, and what follows them. */
  lemma HeaderSlices(a: seq<u8>, b: seq<u8>, c: seq<u8>, rest: seq<u8>)
    requires |a| == 4 && |b| == 4 && |c| == 4
    ensures var d := a + b + c + rest;
      |d| >= 12 && d[..4] == a && d[8..12] == c && d[12..] == rest
  {
  }

  /** Regrouping a header followed by more bytes as its first three codes and the chunks after them. */
  lemma HeaderGroups(a: seq<u8>, b: seq<u8>, c: seq<u8>, fmtId: seq<u8>, fmtSize: seq<u8>, body: seq<u8>,
                     dataId: seq<u8>, dataSize: seq<u8>, tail: seq<u8>)
    ensures a + b + c + (fmtId + fmtSize + body) + dataId + dataSize + tail
            == a + b + c + (fmtId + fmtSize + (body + (dataId + dataSize + tail)))
  {
  }

  /**
   * The demuxer's walk over a header whose `fmt ` chunk has a body of its
   * declared size of at least 16 bytes: it reads that body's fields, no
   * metadata and the data size, and stops right after the header.
   */
  lemma WalkOverHeader(fileSize: u32, fmtSize: u32, body: seq<u8>, dataSize: u32, tail: seq<u8>)
    requires |body| == fmtSize >= 16
    ensures FindData(RiffHeader(fileSize, FMT_ID + LeBytes(fmtSize, 4) + body, dataSize) + tail)
            == Ok(Parsed(Found(FmtFields(body), [], dataSize), tail))
  {
    var dataChunk := DATA_ID + LeBytes(dataSize, 4) + tail;
    var afterSize := body + dataChunk;
    var walk := FMT_ID + LeBytes(fmtSize, 4) + afterSize;
    var d := RiffHeader(fileSize, FMT_ID + LeBytes(fmtSize, 4) + body, dataSize) + tail;
    HeaderGroups(RIFF_ID, LeBytes(fileSize, 4), WAVE_ID, FMT_ID, LeBytes(fmtSize, 4), body, DATA_ID, LeBytes(dataSize, 4), tail);
    assert d == RIFF_ID + LeBytes(fileSize, 4) + WAVE_ID + walk;
    HeaderSlices(RIFF_ID, LeBytes(fileSize, 4), WAVE_ID, walk);
    ChunkLayout(FMT_ID, fmtSize, afterSize);
    assert afterSize[..fmtSize] == body && afterSize[fmtSize..] == dataChunk;
    FmtFieldsIgnoreTail(body, dataChunk);
    assert ParseFmt(afterSize, fmtSize) == Ok(Parsed(FmtFields(body), dataChunk));
    assert ChunkStep(walk, InitialHeader(), []) == Ok(Parsed(Continue(FmtFields(body), []), dataChunk));
    DataChunkEndsWalk(dataSize, tail, FmtFields(body), []);
  }

  /**
   * Reading back: the demuxer's walk over a written header finds the
   * format's fields, no metadata, and the data size, and leaves everything
   * after the header unread.
   */
  lemma HeaderReadsBack(f: WavFormat, fileSize: u32, dataSize: u32, tail: seq<u8>)
    ensures FindData(HeaderWith(f, fileSize, dataSize) + tail) == Ok(Parsed(Found(HeaderOf(f), [], dataSize), tail))
  {
    var size := FmtSize(f.formatCode);
    assert FmtChunk(f) == FMT_ID + LeBytes(size, 4) + FmtBody(f);
    WalkOverHeader(fileSize, size, FmtBody(f), dataSize, tail);
    FmtFieldsReadBack(f, FmtExtension(f));
  }

  /** Regrouping the patched file around its file-size field. */
  lemma FileGroups(a: seq<u8>, b: seq<u8>, c: seq<u8>, fmtChunk: seq<u8>, dataId: seq<u8>, dataSize: seq<u8>,
                   payload: seq<u8>, list: seq<u8>)
    ensures a + b + c + fmtChunk + dataId + dataSize + payload + list
            == a + b + (c + fmtChunk + dataId + dataSize + payload + list)
  {
  }

  /**
   * `finalize` on a header followed by a payload: the data size and the
   * file size land in their placeholders, and the list comes last.
   */
  lemma PatchedHeader(fmtChunk: seq<u8>, payload: seq<u8>, list: seq<u8>, fileSize: u32, dataSize: u32)
    ensures Overwritten(Overwritten(RiffHeader(0, fmtChunk, 0) + payload, 16 + |fmtChunk|, LeBytes(dataSize, 4)) + list,
                        FILE_SIZE_OFFSET, LeBytes(fileSize, 4))
            == RiffHeader(fileSize, fmtChunk, dataSize) + payload + list
  {
    var front := RIFF_ID + LeBytes(0, 4) + WAVE_ID + fmtChunk + DATA_ID;
    OverwriteInside(front, LeBytes(0, 4), payload, LeBytes(dataSize, 4));
    var rest := WAVE_ID + fmtChunk + DATA_ID + LeBytes(dataSize, 4) + payload + list;
    FileGroups(RIFF_ID, LeBytes(0, 4), WAVE_ID, fmtChunk, DATA_ID, LeBytes(dataSize, 4), payload, list);
    OverwriteInside(RIFF_ID, LeBytes(0, 4), rest, LeBytes(fileSize, 4));
    FileGroups(RIFF_ID, LeBytes(fileSize, 4), WAVE_ID, fmtChunk, DATA_ID, LeBytes(dataSize, 4), payload, list);
  }

  /**
   * The whole file from an empty vector: the header written by `new`, the
   * payload of the packets, then `finalize` gives the header with both sizes
   * filled in, the payload, and the LIST chunk last.
   */
  lemma FinishedFile(f: WavFormat, payload: seq<u8>, metadata: Option<Metadata>)
    ensures var dataSize := WrapU32(|payload|);
      Finalized(HeaderBytes(f) + payload, DataSizeOffset(f), FILE_SIZE_OFFSET, dataSize, metadata)
      == HeaderWith(f, FileSize(dataSize, metadata), dataSize) + payload
         + (if HasList(metadata) then ListChunk(metadata.value) else [])
  {
    var dataSize := WrapU32(|payload|);
    var list := if HasList(metadata) then ListChunk(metadata.value) else [];
    var patched := Overwritten(HeaderBytes(f) + payload, DataSizeOffset(f), LeBytes(dataSize, 4));
    assert (if HasList(metadata) then patched + ListChunk(metadata.value) else patched) == patched + list;
    PatchedHeader(FmtChunk(f), payload, list, FileSize(dataSize, metadata), dataSize);
  }

  /**
   * The demuxer opens what the muxer finished: it finds the format's fields,
   * a data size of the payload length modulo 2^32, and no metadata, since
   * the LIST chunk comes after "data", where the walk has stopped.
   */
  lemma MuxedFileReadsBack(f: WavFormat, payload: seq<u8>, metadata: Option<Metadata>)
    ensures var dataSize := WrapU32(|payload|);
      var list := if HasList(metadata) then ListChunk(metadata.value) else [];
      var file := Finalized(HeaderBytes(f) + payload, DataSizeOffset(f), FILE_SIZE_OFFSET, dataSize, metadata);
      FindData(file) == Ok(Parsed(Found(HeaderOf(f), [], dataSize), payload + list))
  {
    var dataSize := WrapU32(|payload|);
    var list := if HasList(metadata) then ListChunk(metadata.value) else [];
    FinishedFile(f, payload, metadata);
    HeaderReadsBackBefore(f, FileSize(dataSize, metadata), dataSize, payload, list);
  }

  /** `HeaderReadsBack` with the tail in two parts. */
  lemma HeaderReadsBackBefore(f: WavFormat, fileSize: u32, dataSize: u32, payload: seq<u8>, list: seq<u8>)
    ensures FindData(HeaderWith(f, fileSize, dataSize) + payload + list)
            == Ok(Parsed(Found(HeaderOf(f), [], dataSize), payload + list))
  {
    HeaderReadsBack(f, fileSize, dataSize, payload + list);
    ConcatAssoc(HeaderWith(f, fileSize, dataSize), payload, list);
  }

  /** Read back, the header gives back the format exactly when its channel layout is canonical. */
  lemma HeaderOfToFormat(f: WavFormat)
    ensures ToFormat(HeaderOf(f)) == f <==> Canonical(f.channels)
  {
    FromCountOfCount(f.channels);
  }

  /**
   * The RIFF size field should be the file length less 8.  `data_size + 36`
   * is that only for the 16-byte `fmt ` chunk: it is 2 short for float and 4
   * for IMA ADPCM, and the LIST chunk adds 4 more (its "INFO" form type).
   */
  lemma DeclaredFileSizeShortfall(f: WavFormat, payload: seq<u8>, metadata: Option<Metadata>)
    requires HasList(metadata) ==> AllKnown(metadata.value)
    requires |payload| + 36 + (if HasList(metadata) then CalcListSize(metadata.value) else 0) < U32_LIMIT
    ensures var dataSize := WrapU32(|payload|);
      var file := Finalized(HeaderBytes(f) + payload, DataSizeOffset(f), FILE_SIZE_OFFSET, dataSize, metadata);
      |file| - 8 == FileSize(dataSize, metadata) + (FmtSize(f.formatCode) - 16) + (if HasList(metadata) then 4 else 0)
  {
    var dataSize := WrapU32(|payload|);
    var file := Finalized(HeaderBytes(f) + payload, DataSizeOffset(f), FILE_SIZE_OFFSET, dataSize, metadata);
    var listLen := if HasList(metadata) then |ListChunk(metadata.value)| else 0;
    var listSize := if HasList(metadata) then CalcListSize(metadata.value) else 0;
    FinalizedLength(f, payload, metadata);
    assert |file| == 28 + FmtSize(f.formatCode) + |payload| + listLen;
    FileSizeExact(|payload|, metadata);
    assert FileSize(dataSize, metadata) == |payload| + 36 + listSize;
    if HasList(metadata) {
      KnownListSizeFourShort(metadata.value);
      assert listLen == listSize + 4;
    }
  }

  /** The length of the finished file: header, payload and list chunk. */
  lemma FinalizedLength(f: WavFormat, payload: seq<u8>, metadata: Option<Metadata>)
    ensures var dataSize := WrapU32(|payload|);
      |Finalized(HeaderBytes(f) + payload, DataSizeOffset(f), FILE_SIZE_OFFSET, dataSize, metadata)|
      == 28 + FmtSize(f.formatCode) + |payload| + (if HasList(metadata) then |ListChunk(metadata.value)| else 0)
  {
    var dataSize := WrapU32(|payload|);
    var list := if HasList(metadata) then ListChunk(metadata.value) else [];
    FinishedFile(f, payload, metadata);
    FinishedFileLength(f, FileSize(dataSize, metadata), dataSize, payload, list);
  }

  /** The length of a finished file. */
  lemma FinishedFileLength(f: WavFormat, fileSize: u32, dataSize: u32, payload: seq<u8>, list: seq<u8>)
    ensures |HeaderWith(f, fileSize, dataSize) + payload + list| == 28 + FmtSize(f.formatCode) + |payload| + |list|
  {
  }

  /** Without wrap-around, the file size `finalize` writes is data size plus 36 plus the computed list size. */
  lemma FileSizeExact(dataLength: nat, metadata: Option<Metadata>)
    requires dataLength + 36 + (if HasList(metadata) then CalcListSize(metadata.value) else 0) < U32_LIMIT
    ensures FileSize(WrapU32(dataLength), metadata)
            == dataLength + 36 + (if HasList(metadata) then CalcListSize(metadata.value) else 0)
  {
  }
}
