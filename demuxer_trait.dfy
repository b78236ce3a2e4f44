/**
 * The default packet filters of the `Demuxer` trait (src/core/traits/demuxer.rs).
 *
 * A demuxer's own `read_packet` is not visible here; it is represented by a
 * script of what successive calls return. The packet's stream position, which
 * the trait reads as `stream_index`, is the packet's `stream_id` field in the
 * packet record of this model.
 */
module DemuxerTrait {
  import opened Wrappers
  import opened IoError
  import opened Packets
  import opened CoreStream

  /** What one call of `read_packet` returns. */
  datatype PacketStep = Next(packet: Packet) | Finished | Broken(error: Error)

  /** The stream lookup of the trait: the packet's stream exists and has the wanted kind. */
  predicate Matches(streams: seq<Stream>, p: Packet, kind: StreamKind)
  {
    p.streamId < |streams| && streams[p.streamId].kind == kind
  }

  /** The outcome of a filtered read and how many `read_packet` results it used up. */
  datatype ScanResult = ScanResult(result: IoResult<Option<Packet>>, consumed: nat)

  /** Steps skipped as non-matching packets: all consumed ones except a returned packet or error. */
  function Skipped(s: ScanResult): int
  {
    if s.result.Err? || s.result.value.Some? then s.consumed - 1 else s.consumed
  }

  /**
   * The filter loop over a script: the first matching packet, the first
   * error, or nothing once the demuxer is exhausted; everything before it is
   * a non-matching packet that is consumed.
   */
  function Scan(steps: seq<PacketStep>, streams: seq<Stream>, kind: StreamKind): (s: ScanResult)
    ensures s.consumed <= |steps| && 0 <= Skipped(s)
    ensures forall j :: 0 <= j < Skipped(s) ==> steps[j].Next? && !Matches(streams, steps[j].packet, kind)
    ensures s.result.Ok? && s.result.value.Some? ==>
              steps[s.consumed - 1] == Next(s.result.value.value) && Matches(streams, s.result.value.value, kind)
    ensures s.result.Err? ==> steps[s.consumed - 1] == Broken(s.result.error)
    ensures s.result == Ok(None) ==> s.consumed == |steps| || steps[s.consumed].Finished?
    decreases |steps|
  {
    if steps == [] then ScanResult(Ok(None), 0)
    else match steps[0]
      case Finished => ScanResult(Ok(None), 0)
      case Broken(e) => ScanResult(Err(e), 1)
      case Next(p) =>
        if Matches(streams, p, kind) then ScanResult(Ok(Some(p)), 1)
        else
          var rest := Scan(steps[1..], streams, kind);
          ScanResult(rest.result, rest.consumed + 1)
  }

  /** A matching packet preceded only by non-matching packets is the one returned. */
  lemma {:induction false} ScanFindsFirstMatch(steps: seq<PacketStep>, streams: seq<Stream>, kind: StreamKind, k: nat)
    requires k < |steps| && steps[k].Next? && Matches(streams, steps[k].packet, kind)
    requires forall j :: 0 <= j < k ==> steps[j].Next? && !Matches(streams, steps[j].packet, kind)
    ensures Scan(steps, streams, kind) == ScanResult(Ok(Some(steps[k].packet)), k + 1)
    decreases k
  {
    if k > 0 {
      ScanFindsFirstMatch(steps[1..], streams, kind, k - 1);
    }
  }

  /** A demuxer whose `read_packet` results are given by a script; an exhausted script reads as the end. */
  class ScriptedDemuxer {
    const streams: Streams
    var pending: seq<PacketStep>

    constructor (streams: Streams, script: seq<PacketStep>)
      ensures this.streams == streams && pending == script
    {
      this.streams := streams;
      pending := script;
    }

    /** `read_packet`: the next scripted result; the end of the stream stays the end. */
    method ReadPacket() returns (r: IoResult<Option<Packet>>)
      modifies this
      ensures old(pending) == [] || old(pending)[0].Finished? ==> r == Ok(None) && pending == old(pending)
      ensures old(pending) != [] && old(pending)[0].Next? ==>
                r == Ok(Some(old(pending)[0].packet)) && pending == old(pending)[1..]
      ensures old(pending) != [] && old(pending)[0].Broken? ==>
                r == Err(old(pending)[0].error) && pending == old(pending)[1..]
    {
      if pending == [] || pending[0].Finished? {
        return Ok(None);
      }
      var step := pending[0];
      pending := pending[1..];
      r := if step.Next? then Ok(Some(step.packet)) else Err(step.error);
    }

    /** The shared `while let` loop of the three filters. */
    method ReadPacketOfKind(kind: StreamKind) returns (r: IoResult<Option<Packet>>)
      modifies this
      ensures var s := Scan(old(pending), streams.inner, kind);
                r == s.result && pending == old(pending)[s.consumed..]
    {
      ghost var start := pending;
      ghost var taken := 0;
      while true
        invariant taken <= |start| && pending == start[taken..]
        invariant Scan(start, streams.inner, kind)
                  == var s := Scan(pending, streams.inner, kind); ScanResult(s.result, s.consumed + taken)
        decreases |pending|
      {
        var next := ReadPacket();
        match next {
          case Err(e) =>
            return Err(e);
          case Ok(None) =>
            return Ok(None);
          case Ok(Some(packet)) =>
            var stream := streams.Get(packet.streamId);
            if stream.Some? && stream.value.kind == kind {
              return Ok(Some(packet));
            }
            taken := taken + 1;
        }
      }
    }

    /** `read_audio_packet`. */
    method ReadAudioPacket() returns (r: IoResult<Option<Packet>>)
      modifies this
      ensures var s := Scan(old(pending), streams.inner, Audio);
                r == s.result && pending == old(pending)[s.consumed..]
    {
      r := ReadPacketOfKind(Audio);
    }

    /** `read_video_packet`. */
    method ReadVideoPacket() returns (r: IoResult<Option<Packet>>)
      modifies this
      ensures var s := Scan(old(pending), streams.inner, Video);
                r == s.result && pending == old(pending)[s.consumed..]
    {
      r := ReadPacketOfKind(Video);
    }

    /** `read_subtitle_packet`. */
    method ReadSubtitlePacket() returns (r: IoResult<Option<Packet>>)
      modifies this
      ensures var s := Scan(old(pending), streams.inner, Subtitle);
                r == s.result && pending == old(pending)[s.consumed..]
    {
      r := ReadPacketOfKind(Subtitle);
    }
  }
}
