/** Writing packets as headerless PCM (src/container/raw/muxer.rs). */
module RawMuxers {
  import opened Wrappers
  import opened Ints
  import opened Messages
  import opened Packets
  import opened CoreStream
  import opened IoWriter
  import opened RawFormats
  import RawDemuxers

  class RawPcmMuxer {
    const writer: Sink
    const format: RawPcmFormat
    const streams: Streams
    var dataSize: u32

    /** `RawPcmMuxer::new`: writes nothing, one audio stream, no data yet. */
    constructor (writer: Sink, format: RawPcmFormat)
      ensures this.writer == writer && this.format == format && fresh(streams)
      ensures streams.inner == [RawDemuxers.AudioStream(ToCodecString(format), format.sampleRate)]
      ensures dataSize == 0
      ensures writer.written == old(writer.written) && writer.script == old(writer.script)
    {
      this.writer := writer;
      this.format := format;
      var all := new Streams.Empty();
      all.Add(RawDemuxers.AudioStream(ToCodecString(format), format.sampleRate));
      streams := all;
      dataSize := 0;
    }

    /** `write_packet`: the payload goes to the writer as is; `data_size` counts it, wrapping at 2^32. */
    method WritePacket(packet: Packet) returns (r: MsgResult<()>)
      modifies this, writer
      ensures r.Ok? ==>
                writer.written == old(writer.written) + packet.data
                && dataSize == WrapU32(old(dataSize) + |packet.data|)
      ensures r.Err? ==> dataSize == old(dataSize)
      ensures old(writer.script) == [] ==> r.Ok? && writer.script == []
    {
      var res := WriteAll(writer, packet.data);
      if res.Err? {
        return Err(res.error);
      }
      dataSize := WrapU32(dataSize + |packet.data|);
      return Ok(());
    }

    /** `finalize` only flushes the writer. */
    method Finalize() returns (r: MsgResult<()>)
      ensures r == Ok(())
      ensures writer.written == old(writer.written) && dataSize == old(dataSize)
    {
      r := writer.Flush();
    }
  }
}
