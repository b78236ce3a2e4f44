/** Compressed or raw payloads travelling between demuxer, decoder, encoder and muxer (src/core/packet.rs). */
module Packets {
  import opened Ints
  import opened CoreTime

  datatype Packet = Packet(data: seq<u8>, pts: i64, dts: i64, time: Time, streamId: u32, keyframe: bool, discard: bool)

  /** `Packet::new`: pts and dts 0, not a keyframe, not discarded. */
  function NewPacket(data: seq<u8>, streamId: u32, time: Time): (p: Packet)
    ensures p.data == data && p.streamId == streamId && p.time == time
    ensures p.pts == 0 && p.dts == 0 && !p.keyframe && !p.discard
  {
    Packet(data, 0, 0, time, streamId, false, false)
  }

  function WithPts(p: Packet, pts: i64): (q: Packet)
    ensures q.pts == pts && q == p.(pts := pts)
  {
    p.(pts := pts)
  }

  function WithDts(p: Packet, dts: i64): (q: Packet)
    ensures q.dts == dts && q == p.(dts := dts)
  {
    p.(dts := dts)
  }

  function WithKeyframe(p: Packet, keyframe: bool): (q: Packet)
    ensures q.keyframe == keyframe && q == p.(keyframe := keyframe)
  {
    p.(keyframe := keyframe)
  }

  /** `size`: the data length cast to `u32`, so it wraps at 4 GiB. */
  function Size(p: Packet): u32
  {
    WrapU32(|p.data|)
  }

  function IsEmpty(p: Packet): (empty: bool)
    ensures empty <==> p.data == []
  {
    p.data == []
  }

  /** Below 4 GiB the size is the data length, and an empty packet has size 0. */
  lemma SizeIsLengthBelowLimit(p: Packet)
    requires |p.data| < U32_LIMIT
    ensures Size(p) == |p.data|
    ensures IsEmpty(p) <==> Size(p) == 0
  {
  }

  /** The `u32` cast makes a 4 GiB packet report size 0 although it is not empty. */
  lemma SizeWrapsAtFourGiB(time: Time)
    ensures var p := NewPacket(seq(U32_LIMIT, _ => 0), 0, time);
      Size(p) == 0 && !IsEmpty(p)
  {
    var p := NewPacket(seq(U32_LIMIT, _ => 0), 0, time);
    assert |p.data| == U32_LIMIT;
    assert p.data[0] == 0;
  }
}
