/** Reading headerless PCM as packets (src/container/raw/demuxer.rs). */
module RawDemuxers {
  import opened Wrappers
  import opened Ints
  import opened Messages
  import opened CoreTime
  import opened AudioFrames
  import opened Packets
  import opened CoreStream
  import opened IoReader
  import opened RawFormats

  const CHUNK_SIZE_LIMIT: nat := 65536

  /** The request size of one packet read: the most whole blocks of `blockAlign` bytes that fit in 64 KiB. */
  function MaxChunk(blockAlign: u16): (n: nat)
    requires blockAlign > 0
    ensures 0 < n <= CHUNK_SIZE_LIMIT && n % blockAlign == 0
    ensures CHUNK_SIZE_LIMIT - blockAlign < n
  {
    var q := CHUNK_SIZE_LIMIT / blockAlign;
    WholeBlocks(q, blockAlign);
    q * blockAlign
  }

  /** `q` whole blocks of `b` bytes: a multiple of `b`, within the limit, less than one block short of it. */
  lemma WholeBlocks(q: nat, b: nat)
    requires 0 < b < U16_LIMIT && q == CHUNK_SIZE_LIMIT / b
    ensures 0 < q * b <= CHUNK_SIZE_LIMIT && (q * b) % b == 0 && CHUNK_SIZE_LIMIT - b < q * b
  {
    var r := CHUNK_SIZE_LIMIT % b;
    assert CHUNK_SIZE_LIMIT == q * b + r;
    assert q >= 1;
    assert q * b >= b;
    DivModUnique(q * b, q, 0, b);
  }

  /** `x as i64` for a `u64`: the same 64 bits read as two's complement. */
  function AsI64(x: u64): i64
  {
    WrapI64(x)
  }

  /**
   * How a packet read ends: with the `Result` the method returns, or in the
   * panic of `CHUNK_SIZE_LIMIT / block_align` when `block_align` is 0.
   */
  datatype ReadOutcome = Returned(result: MsgResult<Option<Packet>>) | DividedByZero

  /** The single audio stream a PCM demuxer exposes. */
  function AudioStream(codec: string, sampleRate: u32): (s: Stream)
    ensures s.kind == Audio && s.id == 0 && s.index == 0 && s.codec == codec && s.codecPrivate == []
  {
    NewStream(0, 0, Audio, codec, Time(1, sampleRate))
  }

  class RawPcmDemuxer {
    const reader: Source
    const format: RawPcmFormat
    const streams: Streams
    var dataRemaining: Option<u64>
    var packetCount: u64
    var samplePosition: u64

    /** `RawPcmDemuxer::new`: one audio stream named after the format, nothing read yet, no length known. */
    constructor (reader: Source, format: RawPcmFormat)
      ensures this.reader == reader && this.format == format && fresh(streams)
      ensures streams.inner == [AudioStream(ToCodecString(format), format.sampleRate)]
      ensures dataRemaining == None && packetCount == 0 && samplePosition == 0
    {
      this.reader := reader;
      this.format := format;
      streams := new Streams([AudioStream(ToCodecString(format), format.sampleRate)]);
      dataRemaining := None;
      packetCount := 0;
      samplePosition := 0;
    }

    /**
     * `read_packet` past the division: asks the reader for one chunk of whole
     * blocks; a read of 0 bytes is the end.  The packet is stamped with the
     * sample position before the read, which then advances by the whole
     * frames read.
     */
    method ReadChunk() returns (r: MsgResult<Option<Packet>>)
      requires BlockAlign(format) > 0
      modifies this, reader
      ensures r.Err? ==> Fail(r.error) in old(reader.script)
      ensures r.Err? || r.value.None? ==>
                dataRemaining == old(dataRemaining) && samplePosition == old(samplePosition)
                && packetCount == old(packetCount)
      ensures r == Ok(None) ==> reader.data == old(reader.data)
      ensures r.Ok? && r.value.Some? ==>
                var p := r.value.value;
                0 < |p.data| <= MaxChunk(BlockAlign(format)) && |p.data| <= |old(reader.data)|
                && p.data == old(reader.data)[..|p.data|] && reader.data == old(reader.data)[|p.data|..]
                && p == WithPts(NewPacket(p.data, 0, Time(1, format.sampleRate)), AsI64(old(samplePosition)))
                && dataRemaining == (if old(dataRemaining).Some?
                                     then Some((old(dataRemaining).value - |p.data|) % U64_LIMIT) else None)
                && samplePosition == (old(samplePosition) + |p.data| / BytesPerFrame(format)) % U64_LIMIT
                && packetCount == (old(packetCount) + 1) % U64_LIMIT
      ensures old(reader.script) == [] ==>
                r.Ok? && (r.value.None? <==> old(reader.data) == [])
                && (r.value.Some? ==> |r.value.value.data| == Min(|old(reader.data)|, MaxChunk(BlockAlign(format))))
    {
      BlockAlignIsFrameSize(format);
      var chunk := MaxChunk(BlockAlign(format));
      var data := new u8[chunk](_ => 0);
      var res := reader.Read(data, 0);
      if res.Err? {
        return Err(res.error);
      }
      var n := res.value;
      if n == 0 {
        return Ok(None);
      }
      var bytes := data[..n];
      if dataRemaining.Some? {
        dataRemaining := Some((dataRemaining.value - n) % U64_LIMIT);
      }
      var packet := WithPts(NewPacket(bytes, 0, Time(1, format.sampleRate)), AsI64(samplePosition));
      samplePosition := (samplePosition + n / BytesPerFrame(format)) % U64_LIMIT;
      packetCount := (packetCount + 1) % U64_LIMIT;
      return Ok(Some(packet));
    }

    /**
     * `read_packet`: `CHUNK_SIZE_LIMIT / block_align` comes first, so a zero
     * `block_align` panics before any read; otherwise one chunk is read as
     * `ReadChunk` says.
     */
    method ReadPacket() returns (r: ReadOutcome)
      modifies this, reader
      ensures r.DividedByZero? <==> BlockAlign(format) == 0
      ensures r.DividedByZero? ==> reader.data == old(reader.data) && reader.script == old(reader.script)
      ensures r.Returned? ==> BytesPerFrame(format) > 0
      ensures r.Returned? && r.result.Err? ==> Fail(r.result.error) in old(reader.script)
      ensures r.Returned? && (r.result.Err? || r.result.value.None?) ==>
                dataRemaining == old(dataRemaining) && samplePosition == old(samplePosition)
                && packetCount == old(packetCount)
      ensures r == Returned(Ok(None)) ==> reader.data == old(reader.data)
      ensures r.Returned? && r.result.Ok? && r.result.value.Some? ==>
                var p := r.result.value.value;
                0 < |p.data| <= MaxChunk(BlockAlign(format)) && |p.data| <= |old(reader.data)|
                && p.data == old(reader.data)[..|p.data|] && reader.data == old(reader.data)[|p.data|..]
                && p == WithPts(NewPacket(p.data, 0, Time(1, format.sampleRate)), AsI64(old(samplePosition)))
                && dataRemaining == (if old(dataRemaining).Some?
                                     then Some((old(dataRemaining).value - |p.data|) % U64_LIMIT) else None)
                && samplePosition == (old(samplePosition) + |p.data| / BytesPerFrame(format)) % U64_LIMIT
                && packetCount == (old(packetCount) + 1) % U64_LIMIT
      ensures old(reader.script) == [] && BlockAlign(format) > 0 ==>
                r.Returned? && r.result.Ok? && (r.result.value.None? <==> old(reader.data) == [])
                && (r.result.value.Some? ==> |r.result.value.value.data| == Min(|old(reader.data)|, MaxChunk(BlockAlign(format))))
    {
      if BlockAlign(format) == 0 {
        return DividedByZero;
      }
      BlockAlignIsFrameSize(format);
      var res := ReadChunk();
      return Returned(res);
    }

    /** `read_audio_packet` is `read_packet`. */
    method ReadAudioPacket() returns (r: ReadOutcome)
      modifies this, reader
      ensures r.DividedByZero? <==> BlockAlign(format) == 0
      ensures r.Returned? && r.result.Err? ==> Fail(r.result.error) in old(reader.script)
      ensures r.Returned? && r.result.Ok? && r.result.value.Some? ==>
                var p := r.result.value.value;
                0 < |p.data| <= |old(reader.data)|
                && p.data == old(reader.data)[..|p.data|] && reader.data == old(reader.data)[|p.data|..]
                && p.pts == AsI64(old(samplePosition))
    {
      r := ReadPacket();
    }

    function Format(): RawPcmFormat
    {
      format
    }
  }
}
