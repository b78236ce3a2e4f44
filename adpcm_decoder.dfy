/**
 * IMA ADPCM block decoding (src/codecs/audio/adpcm/decoder.rs).  The
 * per-channel predictor state and its nibble decoding (`AdpcmState`) are not
 * part of this model: a state is the pair a block header sets, and the
 * nibble step is a function the decoder is given.
 */
module AdpcmDecoders {
  import opened Wrappers
  import opened Ints
  import opened CoreTime
  import opened AudioFrames
  import opened Frames
  import opened Packets
  import opened IoError
  import IoWriter
  import IoReader

  /** A channel's decoder state: the predicted sample and the step-table index. */
  datatype AdpcmState = AdpcmState(predictor: i16, index: u8)

  /** `AdpcmState::decode_nibble`: the state after a 4-bit code and the sample it gives. */
  type NibbleStep = (AdpcmState, u8) -> (AdpcmState, i16)

  const TOO_SMALL: string := "ADPCM block too small for sync header"

  /** `((block_size - 4) * 2) + 1` in wrapping `usize` arithmetic. */
  function SamplesPerBlock(blockSize: u64): u64
  {
    WrapU64((blockSize - 4) * 2 + 1)
  }

  /** A block of at least the 4 header bytes holds one sample plus two per further byte. */
  lemma SamplesPerBlockOfFullBlock(blockSize: u64)
    requires 4 <= blockSize < I64_LIMIT
    ensures SamplesPerBlock(blockSize) == 2 * blockSize - 7
  {
  }

  /** Below 4 bytes the subtraction wraps around and the count is close to `2^64`. */
  lemma SamplesPerBlockOfShortBlock(blockSize: u64)
    requires blockSize < 4
    ensures SamplesPerBlock(blockSize) == U64_LIMIT - 7 + 2 * blockSize
  {
  }

  /** `samples_per_block * 2 * channels` in wrapping `usize` arithmetic: no round starts once the output is this long. */
  function OutputLimit(samplesPerBlock: u64, channels: u8): u64
  {
    WrapU64(samplesPerBlock * 2 * channels)
  }

  /** `i16::from_le_bytes([lo, hi])`. */
  function LeI16(lo: u8, hi: u8): i16
  {
    var u := lo + 256 * hi;
    if u < 0x8000 then u else u - 0x1_0000
  }

  /** The header predictor is the two bytes read as a little-endian `i16`, as the reader reads one. */
  lemma LeI16IsSignedLe(lo: u8, hi: u8)
    ensures LeI16(lo, hi) == IoReader.ToSigned(IoReader.Decode([lo, hi], IoWriter.LittleEndian), 2)
  {
    assert [lo, hi][1..] == [hi];
    assert [hi][1..] == [];
    assert IoReader.FromLe([hi]) == hi;
    assert IoReader.FromLe([lo, hi]) == lo + 256 * hi;
    assert IoReader.Half(2) == 0x8000 by { assert IoReader.Pow256(2) == 0x1_0000; }
  }

  /** `AdpcmState::with_initial_values` on channel `ch`'s header: bytes 0-1 the predictor, byte 2 the index. */
  function HeaderState(block: seq<u8>, ch: nat): AdpcmState
    requires 4 * ch + 4 <= |block|
  {
    AdpcmState(LeI16(block[4 * ch], block[4 * ch + 1]), block[4 * ch + 2])
  }

  /** The fourth header byte plays no part. */
  lemma HeaderIgnoresFourthByte(block: seq<u8>, ch: nat, b: u8)
    requires 4 * ch + 4 <= |block|
    ensures HeaderState(block[4 * ch + 3 := b], ch) == HeaderState(block, ch)
  {
  }

  /** The states after the header loop: channel `ch` from the `ch`-th 4-byte header. */
  function Headers(block: seq<u8>, channels: nat): (states: seq<AdpcmState>)
    requires 4 * channels <= |block|
    ensures |states| == channels
  {
    seq(channels, ch requires 0 <= ch < channels => HeaderState(block, ch))
  }

  /** The 4-bit codes of `bytes`: `b & 0x0F` before `(b >> 4) & 0x0F` for every byte. */
  function Nibbles(bytes: seq<u8>): (codes: seq<u8>)
    ensures |codes| == 2 * |bytes|
  {
    if bytes == [] then [] else [bytes[0] % 16, bytes[0] / 16] + Nibbles(bytes[1..])
  }

  /** Code `k` is the low half of byte `k / 2` when `k` is even and its high half when odd. */
  lemma {:induction false} NibbleAt(bytes: seq<u8>, k: nat)
    requires k < 2 * |bytes|
    ensures Nibbles(bytes)[k] == if k % 2 == 0 then bytes[k / 2] % 16 else bytes[k / 2] / 16
  {
    if k >= 2 {
      NibbleAt(bytes[1..], k - 2);
      assert (k - 2) / 2 == k / 2 - 1 && (k - 2) % 2 == k % 2;
    }
  }

  /** Every byte splits into two codes below 16 that rebuild it, low code first. */
  lemma NibblesRebuildBytes(bytes: seq<u8>, k: nat)
    requires k < |bytes|
    ensures var codes := Nibbles(bytes);
      codes[2 * k] < 16 && codes[2 * k + 1] < 16 && codes[2 * k] + 16 * codes[2 * k + 1] == bytes[k]
  {
    NibbleAt(bytes, 2 * k);
    NibbleAt(bytes, 2 * k + 1);
    assert (2 * k + 1) / 2 == k && (2 * k) / 2 == k;
  }

  /** `sample.to_le_bytes()`. */
  function SampleBytes(sample: i16): (bytes: seq<u8>)
  {
    [LowByte(sample), LowByte(sample / 256)]
  }

  /** The least significant byte, in two's complement for a negative value. */
  function LowByte(v: int): u8
  {
    v % 256
  }

  /** The sample's two bytes are its two low little-endian bytes. */
  lemma SampleBytesAreLe(sample: i16)
    ensures SampleBytes(sample) == IoWriter.LeBytes(sample, 2)
  {
    assert IoWriter.LeBytes(sample / 256, 1) == [sample / 256 % 256] + IoWriter.LeBytes(sample / 256 / 256, 0);
  }

  /** The emitted bytes read back as the sample. */
  lemma SampleBytesReadBack(sample: i16)
    ensures IoReader.ToSigned(IoReader.Decode(SampleBytes(sample), IoWriter.LittleEndian), 2) == sample
  {
    assert IoReader.Half(2) == 0x8000 by { assert IoReader.Pow256(2) == 0x1_0000; }
    SampleBytesAreLe(sample);
    IoReader.SignedRoundTrip(sample, 2, IoWriter.LittleEndian);
  }

  /**
   * Decoding the first `n` codes from `states`: code `k` goes to channel
   * `ChannelOf(k)`, whose state it advances, and appends one 2-byte sample.
   */
  function Run(step: NibbleStep, states: seq<AdpcmState>, codes: seq<u8>, n: nat): (res: (seq<AdpcmState>, seq<u8>))
    requires |states| > 0 && n <= |codes|
    ensures |res.0| == |states| && |res.1| == 2 * n
    decreases n
  {
    if n == 0 then (states, [])
    else
      var prev := Run(step, states, codes, n - 1);
      var ch := ChannelOf(n - 1, |states|);
      var next := step(prev.0[ch], codes[n - 1]);
      (prev.0[ch := next.0], prev.1 + SampleBytes(next.1))
  }

  /** One more code: its channel's state advances and its sample is appended. */
  lemma RunStep(step: NibbleStep, states: seq<AdpcmState>, codes: seq<u8>, n: nat)
    requires |states| > 0 && n < |codes|
    ensures var prev := Run(step, states, codes, n);
      var ch := ChannelOf(n, |states|);
      var next := step(prev.0[ch], codes[n]);
      Run(step, states, codes, n + 1) == (prev.0[ch := next.0], prev.1 + SampleBytes(next.1))
  {
  }

  /** Later codes never change earlier output: the output of `m` codes begins the output of `n`. */
  lemma {:induction false} RunExtends(step: NibbleStep, states: seq<AdpcmState>, codes: seq<u8>, m: nat, n: nat)
    requires |states| > 0 && m <= n <= |codes|
    ensures Run(step, states, codes, n).1[..2 * m] == Run(step, states, codes, m).1
    decreases n
  {
    if m < n {
      RunExtends(step, states, codes, m, n - 1);
      var prev := Run(step, states, codes, n - 1).1;
      var next := Run(step, states, codes, n).1;
      assert next[..2 * (n - 1)] == prev;
      assert next[..2 * m] == prev[..2 * m];
    }
  }

  /**
   * One round from `states` that starts at code `at`: code `at + j` goes to
   * channel `j`, for the codes before `next`.
   */
  function RoundRun(step: NibbleStep, states: seq<AdpcmState>, codes: seq<u8>, at: nat, next: nat): (res: (seq<AdpcmState>, seq<u8>))
    requires at <= next <= at + |states| && next <= |codes|
    ensures |res.0| == |states| && |res.1| == 2 * (next - at)
  {
    if next == at then (states, [])
    else
      var prev := RoundRun(step, states, codes, at, next - 1);
      var ch := next - 1 - at;
      var decoded := step(prev.0[ch], codes[next - 1]);
      (prev.0[ch := decoded.0], prev.1 + SampleBytes(decoded.1))
  }

  /** A round that starts on channel 0 continues the whole decoding: channel `j` takes code `at + j`. */
  lemma {:induction false} RunByRound(step: NibbleStep, states: seq<AdpcmState>, codes: seq<u8>, at: nat, next: nat)
    requires 0 < |states| && at <= next <= at + |states| && next <= |codes| && ChannelOf(at, |states|) == 0
    ensures var before := Run(step, states, codes, at);
      var round := RoundRun(step, before.0, codes, at, next);
      Run(step, states, codes, next) == (round.0, before.1 + round.1)
  {
    var before := Run(step, states, codes, at);
    if next > at {
      var m := next - 1;
      RunByRound(step, states, codes, at, m);
      ChannelOfInRound(at, |states|, m - at);
      RunStep(step, states, codes, m);
      var prev := RoundRun(step, before.0, codes, at, m);
      var decoded := step(prev.0[m - at], codes[m]);
      IoWriter.ConcatAssoc(before.1, prev.1, SampleBytes(decoded.1));
    } else {
      assert before.1 + [] == before.1;
    }
  }

  /** `RunByRound` with the decoding so far given by its states and output. */
  lemma RoundAfterRun(step: NibbleStep, states: seq<AdpcmState>, codes: seq<u8>, at: nat, next: nat, before: seq<AdpcmState>, out: seq<u8>)
    requires 0 < |states| && at <= next <= at + |states| && next <= |codes| && ChannelOf(at, |states|) == 0
    requires Run(step, states, codes, at).0 == before && Run(step, states, codes, at).1 == out
    ensures |before| == |states|
    ensures Run(step, states, codes, next).0 == RoundRun(step, before, codes, at, next).0
    ensures Run(step, states, codes, next).1 == out + RoundRun(step, before, codes, at, next).1
  {
    RunByRound(step, states, codes, at, next);
  }

  /** Within a round that starts on channel 0, code `at + j` is on channel `j`. */
  lemma {:induction false} ChannelOfInRound(at: nat, channels: nat, j: nat)
    requires channels > 0 && j < channels && ChannelOf(at, channels) == 0
    ensures ChannelOf(at + j, channels) == j
  {
    if j > 0 {
      ChannelOfInRound(at, channels, j - 1);
      ChannelOfNext(at + j - 1, channels);
    }
  }

  /**
   * The number of codes the loop decodes when a round of `channels` codes
   * starts at code `at`: a round starts while codes remain and the output,
   * two bytes per code, is below `limit`; the last round may be cut short
   * by the end of the codes.
   */
  function Consumed(total: nat, channels: nat, limit: nat, at: nat): (k: nat)
    requires channels > 0 && at <= total
    ensures at <= k <= total
    decreases total - at
  {
    if at < total && 2 * at < limit then
      if total - at <= channels then total else Consumed(total, channels, limit, at + channels)
    else at
  }

  /**
   * Decoding stops with every code consumed or, at the start of a round,
   * with the output at the limit; no round starts at or past the limit, so
   * the output exceeds it by less than one round.
   */
  lemma {:induction false} ConsumedStops(total: nat, channels: nat, limit: nat, round: nat)
    requires channels > 0 && round * channels <= total
    ensures var k := Consumed(total, channels, limit, round * channels);
      (k == total || (ChannelOf(k, channels) == 0 && limit <= 2 * k)) &&
      (k == round * channels || 2 * (k - channels) < limit) &&
      (2 * total <= limit ==> k == total)
    decreases total - round * channels
  {
    var at := round * channels;
    var k := Consumed(total, channels, limit, at);
    if at < total && 2 * at < limit && total - at > channels {
      assert (round + 1) * channels == at + channels;
      ConsumedStops(total, channels, limit, round + 1);
    } else {
      RoundChannel(round, channels, 0);
    }
  }

  /** A round that starts below the limit leaves the count to the next round, or ends it at the last code. */
  lemma ConsumedAfterRound(total: nat, channels: nat, limit: nat, at: nat, next: nat)
    requires channels > 0 && at < total && 2 * at < limit
    requires at < next <= total && next <= at + channels && (next < total ==> next == at + channels)
    ensures Consumed(total, channels, limit, at) == Consumed(total, channels, limit, next)
  {
  }

  /** The channel of code `k`: the codes go round-robin, one per channel in turn. */
  function ChannelOf(k: nat, channels: nat): (ch: nat)
    requires channels > 0
    ensures ch < channels
  {
    if k < channels then k else ChannelOf(k - channels, channels)
  }

  /** Round-robin is `k mod channels`. */
  lemma {:induction false} ChannelOfIsMod(k: nat, channels: nat)
    requires channels > 0
    ensures ChannelOf(k, channels) == k % channels
  {
    if k >= channels {
      ChannelOfIsMod(k - channels, channels);
      var q, r := (k - channels) / channels, (k - channels) % channels;
      assert k == channels * (q + 1) + r;
      IoReader.DivModUnique(k, q + 1, r, channels);
    } else {
      IoReader.DivModUnique(k, 0, k, channels);
    }
  }

  /** The code after one on channel `ch` is on the next channel, wrapping to channel 0. */
  lemma {:induction false} ChannelOfNext(k: nat, channels: nat)
    requires channels > 0
    ensures ChannelOf(k + 1, channels) == if ChannelOf(k, channels) + 1 == channels then 0 else ChannelOf(k, channels) + 1
  {
    if k >= channels {
      ChannelOfNext(k - channels, channels);
    }
  }

  /** A round cut short ends the codes; a full round ends back on channel 0. */
  lemma RoundEnd(at: nat, next: nat, channels: nat, total: nat)
    requires channels > 0 && ChannelOf(at, channels) == 0 && at < next <= at + channels && next <= total
    requires next < total ==> next == at + channels
    ensures next == total || ChannelOf(next, channels) == 0
  {
    if next == at + channels {
      ChannelOfInRound(at, channels, channels - 1);
      ChannelOfNext(at + channels - 1, channels);
    }
  }

  /** Code `round * channels + ch` belongs to channel `ch`. */
  lemma {:induction false} RoundChannel(round: nat, channels: nat, ch: nat)
    requires ch < channels
    ensures ChannelOf(round * channels + ch, channels) == ch
  {
    if round > 0 {
      assert round * channels + ch - channels == (round - 1) * channels + ch;
      RoundChannel(round - 1, channels, ch);
    }
  }

  /**
   * `decode_block` on a block with room for every channel header: the
   * headers set the states, then the codes after them are decoded up to
   * the output limit.  Nothing of the states before the block is used.
   */
  function DecodedBlock(step: NibbleStep, block: seq<u8>, channels: nat, limit: nat): (res: (seq<AdpcmState>, seq<u8>))
    requires channels > 0 && 4 * channels <= |block|
    ensures |res.0| == channels
  {
    var codes := Nibbles(block[4 * channels..]);
    Run(step, Headers(block, channels), codes, Consumed(|codes|, channels, limit, 0))
  }

  /**
   * The output of a block: at most four bytes (two samples) per
   * data byte; empty exactly when there are no data bytes or the limit is 0;
   * every data byte is decoded when the limit allows, and otherwise the
   * output passes the limit by less than a round.
   */
  lemma DecodedBlockSize(step: NibbleStep, block: seq<u8>, channels: nat, limit: nat)
    requires channels > 0 && 4 * channels <= |block|
    ensures var out := DecodedBlock(step, block, channels, limit).1;
      var data := |block| - 4 * channels;
      |out| <= 4 * data &&
      (|out| == 0 <==> data == 0 || limit == 0) &&
      (4 * data <= limit ==> |out| == 4 * data) &&
      (|out| < 4 * data ==> limit <= |out|) &&
      (|out| == 0 || |out| < limit + 2 * channels)
  {
    var total := 2 * (|block| - 4 * channels);
    var k := Consumed(total, channels, limit, 0);
    assert |Nibbles(block[4 * channels..])| == total;
    var size := |DecodedBlock(step, block, channels, limit).1|;
    assert size == 2 * k;
    ConsumedFromStart(total, channels, limit);
    assert size <= 2 * total;
    assert size == 0 <==> total == 0 || limit == 0;
  }

  /** From the start: nothing is decoded exactly when there are no codes or the limit is 0. */
  lemma ConsumedFromStart(total: nat, channels: nat, limit: nat)
    requires channels > 0
    ensures var k := Consumed(total, channels, limit, 0);
      (k == 0 <==> total == 0 || limit == 0) &&
      (k < total ==> limit <= 2 * k) &&
      (k == 0 || 2 * k < limit + 2 * channels) &&
      (2 * total <= limit ==> k == total)
  {
    ConsumedStops(total, channels, limit, 0);
  }

  /**
   * The frame `decode` builds from non-empty output: 16-bit PCM holding as
   * many samples per channel as whole rounds fit, one tick per sample, stream
   * index taken from the packet's stream, stream id 0, and the packet's pts.
   */
  function OutputFrame(pcm: seq<u8>, sampleRate: u32, channels: u8, packet: Packet): (f: Frame)
    requires channels > 0
    ensures Audio(f).Some? && Audio(f).value.data == pcm && Audio(f).value.format == PCM16
    ensures Audio(f).value.sampleRate == sampleRate && Count(Audio(f).value.channels) == channels
    ensures Audio(f).value.nbSamples * (2 * channels) <= |pcm| < (Audio(f).value.nbSamples + 1) * (2 * channels)
    ensures f.time == Time(1, sampleRate) && f.streamIndex == packet.streamId as nat && f.streamId == 0
    ensures f.pts == packet.pts && f.dts == None
  {
    FromCountKeepsCount(channels);
    var unit := channels as nat * 2;
    DivBounds(|pcm|, unit);
    var audio := NewFrameAudio(pcm, sampleRate, FromCount(channels), PCM16);
    assert Count(FromCount(channels)) * 2 == unit;
    Frames.WithPts(NewAudio(WithNbSamples(audio, |pcm| / unit), Time(1, sampleRate), packet.streamId, 0), packet.pts)
  }

  /** `AdpcmDecoder`: one state per channel, rewritten by every block. */
  class AdpcmDecoder {
    const sampleRate: u32
    const channels: u8
    var states: seq<AdpcmState>
    const blockSize: u64
    const samplesPerBlock: u64
    const step: NibbleStep

    ghost predicate Valid()
      reads this
    {
      channels >= 1 && |states| == channels as int
    }

    /**
     * `new`: at least one channel, each starting from `initial` (the state
     * `AdpcmState::new` builds).
     */
    constructor (sampleRate: u32, channels: u8, blockSize: u64, initial: AdpcmState, step: NibbleStep)
      ensures Valid()
      ensures this.channels == Max(1, channels) && this.sampleRate == sampleRate && this.blockSize == blockSize
      ensures states == seq(this.channels as int, _ => initial)
      ensures samplesPerBlock == SamplesPerBlock(blockSize) && this.step == step
    {
      var count: u8 := if channels >= 1 then channels else 1;
      this.sampleRate := sampleRate;
      this.channels := count;
      this.states := seq(count as int, _ => initial);
      this.blockSize := blockSize;
      this.samplesPerBlock := SamplesPerBlock(blockSize);
      this.step := step;
    }

    function Limit(): u64
      reads this
    {
      OutputLimit(samplesPerBlock, channels)
    }

    /** The header loop: every channel's state is reset from its own header. */
    method ResetStates(block: seq<u8>) returns (offset: nat)
      requires Valid() && 4 * channels <= |block|
      modifies this
      ensures Valid() && states == Headers(block, channels as int) && offset == 4 * channels
    {
      offset := 0;
      var ch := 0;
      while ch < channels as int
        invariant 0 <= ch <= channels as int && offset == 4 * ch && |states| == channels as int
        invariant forall j :: 0 <= j < ch ==> states[j] == HeaderState(block, j)
      {
        if offset + 4 > |block| {
          break;
        }
        var predictor := LeI16(block[offset], block[offset + 1]);
        var index := block[offset + 2];
        states := states[ch := AdpcmState(predictor, index)];
        offset := offset + 4;
        ch := ch + 1;
      }
      assert states == Headers(block, channels as int);
    }

    /** One code: channel `channel`'s state advances and its sample is emitted. */
    method DecodeCode(remaining: seq<u8>, at: nat, channel: nat, ghost current: seq<AdpcmState>) returns (sample: seq<u8>)
      requires |states| == |current| && channel < |current| && at + channel < 2 * |remaining|
      requires states == RoundRun(step, current, Nibbles(remaining), at, at + channel).0
      modifies this
      ensures |states| == |current|
      ensures states == RoundRun(step, current, Nibbles(remaining), at, at + channel + 1).0
      ensures RoundRun(step, current, Nibbles(remaining), at, at + channel).1 + sample
        == RoundRun(step, current, Nibbles(remaining), at, at + channel + 1).1
    {
      var nibbleIdx := at + channel;
      var byteIdx := nibbleIdx / 2;
      var nibble := if nibbleIdx % 2 == 0 then remaining[byteIdx] % 16 else remaining[byteIdx] / 16;
      NibbleAt(remaining, nibbleIdx);
      var decoded := step(states[channel], nibble);
      states := states[channel := decoded.0];
      sample := SampleBytes(decoded.1);
    }

    /**
     * One round: the next code for each channel in turn, stopping early at
     * the end of the codes.
     */
    method DecodeRound(remaining: seq<u8>, at: nat) returns (next: nat, added: seq<u8>)
      requires Valid() && at < 2 * |remaining|
      modifies this
      ensures Valid() && at < next <= 2 * |remaining| && next <= at + channels
      ensures next < 2 * |remaining| ==> next == at + channels
      ensures (states, added) == RoundRun(step, old(states), Nibbles(remaining), at, next)
    {
      ghost var current := states;
      next := at;
      added := [];
      var channel := 0;
      while channel < channels as int
        invariant 0 <= channel <= channels as int && next == at + channel <= 2 * |remaining|
        invariant (states, added) == RoundRun(step, current, Nibbles(remaining), at, next)
      {
        // `nibble_idx / 2 >= remaining.len()`: the codes are used up
        if next >= 2 * |remaining| {
          break;
        }
        var sample := DecodeCode(remaining, at, channel, current);
        added := added + sample;
        next := next + 1;
        channel := channel + 1;
      }
    }

    /** The code loop: rounds of one code per channel until the codes run out or the output reaches the limit. */
    method DecodeCodes(remaining: seq<u8>) returns (out: seq<u8>)
      requires Valid()
      modifies this
      ensures Valid()
      ensures var res := Run(step, old(states), Nibbles(remaining), Consumed(2 * |remaining|, channels as int, Limit(), 0));
        states == res.0 && out == res.1
    {
      ghost var start := states;
      ghost var codes := Nibbles(remaining);
      ghost var total := 2 * |remaining|;
      ghost var k := Consumed(total, channels as int, Limit(), 0);
      out := [];
      var nibbleIdx := 0;
      while nibbleIdx < |remaining| * 2 && |out| < OutputLimit(samplesPerBlock, channels)
        invariant Valid() && nibbleIdx <= total
        invariant nibbleIdx == total || ChannelOf(nibbleIdx, |start|) == 0
        invariant states == Run(step, start, codes, nibbleIdx).0
        invariant out == Run(step, start, codes, nibbleIdx).1
        invariant Consumed(total, channels as int, Limit(), nibbleIdx) == k
        decreases total - nibbleIdx
      {
        ghost var at := nibbleIdx;
        ghost var before := states;
        var added;
        nibbleIdx, added := DecodeRound(remaining, nibbleIdx);
        RoundAfterRun(step, start, codes, at, nibbleIdx, before, out);
        RoundEnd(at, nibbleIdx, |start|, total);
        ConsumedAfterRound(total, channels as int, Limit(), at, nibbleIdx);
        out := out + added;
      }
    }

    /**
     * `decode_block`: a block too short for every channel's 4-byte header
     * is refused with the states untouched; otherwise the states and the
     * output are those of `DecodedBlock`.
     */
    method DecodeBlock(block: seq<u8>) returns (r: IoResult<seq<u8>>)
      requires Valid()
      modifies this
      ensures Valid()
      ensures |block| < 4 * channels ==> r == Err(InvalidDataError(TOO_SMALL)) && states == old(states)
      ensures |block| >= 4 * channels ==>
        var res := DecodedBlock(step, block, channels as int, Limit());
        r == Ok(res.1) && states == res.0
    {
      if |block| < 4 * channels as int {
        return Err(WithMessage(InvalidData, TOO_SMALL));
      }
      var offset := ResetStates(block);
      var pcm := DecodeCodes(block[offset..]);
      return Ok(pcm);
    }

    /**
     * `decode`: an empty packet and a block that yields no samples give no
     * frame; a refused block is the error; otherwise the samples become a
     * 16-bit frame with the packet's pts.
     */
    method Decode(packet: Packet) returns (r: IoResult<Option<Frame>>)
      requires Valid()
      modifies this
      ensures Valid()
      ensures packet.data == [] ==> r == Ok(None) && states == old(states)
      ensures packet.data != [] && |packet.data| < 4 * channels ==>
        r == Err(InvalidDataError(TOO_SMALL)) && states == old(states)
      ensures packet.data != [] && |packet.data| >= 4 * channels ==>
        var res := DecodedBlock(step, packet.data, channels as int, Limit());
        states == res.0 &&
        (res.1 == [] ==> r == Ok(None)) &&
        (res.1 != [] ==> r == Ok(Some(OutputFrame(res.1, sampleRate, channels, packet))))
    {
      if Packets.IsEmpty(packet) {
        return Ok(None);
      }
      var block := DecodeBlock(packet.data);
      if block.Err? {
        return Err(block.error);
      }
      var pcm := block.value;
      if pcm == [] {
        return Ok(None);
      }
      return Ok(Some(OutputFrame(pcm, sampleRate, channels, packet)));
    }
  }
}
