/**
 * `Layer3Decoder` (`src/codecs/mp3/layer3.rs`): the MPEG audio Layer III
 * frame decoder. It keeps the bit reservoir (`main_data_buffer`), the IMDCT
 * carry of each channel (`prev_samples`) and a synthesis filterbank per
 * channel, and turns one frame into interleaved 16-bit PCM.
 *
 * The parts it calls that are not part of this model (the side-information
 * parser, the Huffman code tables, `powf`, the IMDCT with its windows and
 * the synthesis filterbank) are the fields of a `Dsp` value fixed when the
 * decoder is made; `f32` arithmetic is modelled on reals.
 */
module Mp3Layer3 {
  import opened Wrappers
  import opened Ints
  import opened Mp3SideInfo
  import opened Mp3Bits
  import Sf = Mp3Scalefactors
  import Hf = Mp3Huffman
  import Rq = Mp3Requantize
  import St = Mp3Stages

  /** The foreign parts of the decoder. `synth` maps a filterbank state, 32 subband samples and a channel to the next state and 32 PCM values. */
  datatype Dsp = Dsp(
    parseSideInfo: (seq<u8>, FrameHeader) -> Option<SideInfo>,
    codes: Hf.HuffmanCodes,
    powf: Rq.Pow,
    imdct: St.Transform,
    synth: (seq<real>, seq<real>, nat) -> (seq<real>, seq<real>),
    synthInit: seq<real>,
    tables: Tables)

  /** The shapes the decoder relies on: table sizes, 36 IMDCT outputs, 32 PCM values per slot. */
  ghost predicate ValidDsp(d: Dsp)
  {
    Hf.ValidCodes(d.codes) && ValidTables(d.tables) && St.TransformShape(d.imdct) && SynthShape(d.synth)
  }

  /** The filterbank yields 32 PCM values per slot. */
  ghost predicate SynthShape(synth: (seq<real>, seq<real>, nat) -> (seq<real>, seq<real>))
  {
    forall st: seq<real>, v: seq<real>, ch: nat :: |synth(st, v, ch).1| == 32
  }

  /** A valid `Dsp` has the tables any frame needs. */
  lemma DspFits(d: Dsp, h: FrameHeader)
    requires ValidDsp(d)
    ensures Hf.ValidCodes(d.codes) && TablesFit(d.tables, h) && St.TransformShape(d.imdct) && SynthShape(d.synth)
  {
  }

  /** How a granule or channel step ends: on, a `None` through `?`, or a panic. */
  datatype Outcome = Done | NoData | Panic

  /** `decode_frame`'s result: `Some(pcm)`, `None`, or a panic. */
  datatype FrameResult = Output(pcm: seq<i16>) | NoFrame | Panicked

  /* ---------------------------------------------------------------- */
  /* Frame layout                                                      */
  /* ---------------------------------------------------------------- */

  /** `header_size + crc_size`: 4 header bytes and 2 more with CRC protection. */
  function SideInfoStart(h: FrameHeader): nat
  {
    4 + if h.crcProtection then 2 else 0
  }

  /** Where the main data starts: after the side information. */
  function MainDataStart(h: FrameHeader): nat
  {
    SideInfoStart(h) + h.sideInfoSize
  }

  /** Two granules for MPEG-1, one otherwise. */
  function Granules(h: FrameHeader): nat
  {
    if h.isMpeg1 then 2 else 1
  }

  /** The side information of a frame long enough to hold it, as the parser reads it. */
  function SideInfoOf(d: Dsp, h: FrameHeader, frame: seq<u8>): Option<SideInfo>
  {
    if |frame| < MainDataStart(h) then None else d.parseSideInfo(frame[SideInfoStart(h)..], h)
  }

  /** The bytes after the side information. */
  function MainData(h: FrameHeader, frame: seq<u8>): seq<u8>
    requires |frame| >= MainDataStart(h)
  {
    frame[MainDataStart(h)..]
  }

  /** The most the reservoir keeps between frames. */
  const MAX_RESERVOIR: nat := 2048

  /* ---------------------------------------------------------------- */
  /* One channel of one granule                                        */
  /* ---------------------------------------------------------------- */

  /** The integer lines as reals. */
  function Reals(xs: seq<int>): (r: seq<real>)
    ensures |r| == |xs| && forall k :: 0 <= k < |xs| ==> r[k] == xs[k] as real
  {
    seq(|xs|, k requires 0 <= k < |xs| => xs[k] as real)
  }

  /** The scale factors read by `layout` at bit `pos` into a zeroed 3 x 22 table. */
  function SfTable(layout: seq<Sf.Read>, bits: seq<bool>, pos: nat): (t: seq<seq<u8>>)
    ensures Rq.SfShape(t)
  {
    seq(3, w requires 0 <= w < 3 => seq(22, i requires 0 <= i < 22 => Sf.Decoded(layout, bits, pos, 0, w, i)))
  }

  /** What one channel of a granule decodes to from bit `pos`. */
  datatype ChannelResult = ChannelDone(lines: seq<real>, pos: nat) | ChannelNone | ChannelPanic

  /** The tables one frame needs, at their standard sizes. */
  predicate TablesFit(t: Tables, h: FrameHeader)
  {
    ValidBands(t.bandsFor(h)) && |t.linbits| == 34 && |t.pretab| == 22 && |t.cs| == 8 && |t.ca| == 8
  }

  /**
   * The Huffman lines of a channel read from bit `p` (the region index
   * `region0_count + region1_count + 2` panics past the band table), then
   * requantized with the scale factors `sf`; a read past the end gives `None`.
   */
  function LinesSpec(codes: Hf.HuffmanCodes, powf: Rq.Pow, t: Tables, bands: Bands, gc: GranuleChannel,
                     sf: seq<seq<u8>>, bits: seq<bool>, p: nat): (r: ChannelResult)
    requires ValidBands(bands) && |t.linbits| == 34 && |t.pretab| == 22 && Rq.SfShape(sf)
    ensures r.ChannelDone? ==> |r.lines| == LINES
  {
    if !Hf.RegionsInTable(gc, bands.long) then ChannelPanic
    else match Hf.HuffmanLines(codes, bits, p, gc, bands.long, t.linbits)
      case None => ChannelNone
      case Some((lines, q)) => ChannelDone(Rq.ApplyAll(Reals(lines), Rq.Passes(gc, bands, sf, t.pretab), powf), q)
  }

  /**
   * One channel: its scale factors (`SLEN_TABLE[_][scalefac_compress]`
   * panics when the index is out of range) read from bit `pos`, then the rest
   * of the channel as `ChannelFrom`.
   */
  function ChannelSpec(d: Dsp, h: FrameHeader, gc: GranuleChannel, scfsi: Scfsi, bits: seq<bool>, pos: nat): (r: ChannelResult)
    requires TablesFit(d.tables, h)
    ensures r.ChannelDone? ==> |r.lines| == LINES
  {
    if h.isMpeg1 && !Sf.SlenIndexOk(d.tables.slen, gc) then ChannelPanic
    else ChannelFrom(d, d.tables.bandsFor(h), gc, Sf.Layout(h.isMpeg1, gc, scfsi, d.tables.slen), bits, pos)
  }

  /**
   * A channel whose scale factors are read by `layout` from bit `pos`: a read
   * past the end gives `None`, otherwise `LinesSpec` from where they end.
   */
  function ChannelFrom(d: Dsp, bands: Bands, gc: GranuleChannel, layout: seq<Sf.Read>, bits: seq<bool>, pos: nat): (r: ChannelResult)
    requires ValidBands(bands) && |d.tables.linbits| == 34 && |d.tables.pretab| == 22
    ensures r.ChannelDone? ==> |r.lines| == LINES
  {
    var p := pos + Sf.LayoutBits(layout);
    if p > |bits| then ChannelNone
    else LinesSpec(d.codes, d.powf, d.tables, bands, gc, SfTable(layout, bits, pos), bits, p)
  }

  /** `decode_huffman` then `requantize` for one channel from the reader's position, which `spec` describes. */
  method HuffmanRequantize(reader: BitReader, codes: Hf.HuffmanCodes, powf: Rq.Pow, t: Tables, bands: Bands,
                           gc: GranuleChannel, sf: seq<seq<u8>>, samples: array<real>, ghost spec: ChannelResult)
    returns (r: Outcome)
    requires ValidBands(bands) && |t.linbits| == 34 && |t.pretab| == 22 && Rq.SfShape(sf)
    requires reader.Valid() && Hf.ValidCodes(codes) && samples.Length == LINES
    requires spec == LinesSpec(codes, powf, t, bands, gc, sf, reader.bits, reader.pos)
    modifies reader, samples
    ensures reader.Valid()
    ensures r == Done <==> spec.ChannelDone?
    ensures r == Panic <==> spec.ChannelPanic?
    ensures r == Done ==> samples[..] == spec.lines && reader.pos == spec.pos
  {
    if !Hf.RegionsInTable(gc, bands.long) {
      return Panic;
    }
    ghost var p0 := reader.pos;
    var ok := Hf.DecodeHuffman(reader, gc, bands.long, t.linbits, codes, samples);
    if !ok {
      return NoData;
    }
    assert samples[..] == Reals(Hf.HuffmanLines(codes, reader.bits, p0, gc, bands.long, t.linbits).value.0);
    Rq.Requantize(gc, bands, sf, t.pretab, powf, samples);
    return Done;
  }

  /** The scale factors read into a zeroed table are `SfTable`. */
  lemma SnapshotTable(sf: seq<seq<u8>>, layout: seq<Sf.Read>, bits: seq<bool>, pos: nat)
    requires Rq.SfShape(sf)
    requires forall w, i :: 0 <= w < 3 && 0 <= i < 22 ==> sf[w][i] == Sf.Decoded(layout, bits, pos, 0, w, i)
    ensures sf == SfTable(layout, bits, pos)
  {
    forall w | 0 <= w < 3
      ensures sf[w] == SfTable(layout, bits, pos)[w]
    {
    }
  }

  /** Scale factors that fit in the bits leave the rest of the channel to `LinesSpec`. */
  lemma ChannelFromLines(d: Dsp, bands: Bands, gc: GranuleChannel, layout: seq<Sf.Read>, bits: seq<bool>, pos: nat)
    requires ValidBands(bands) && |d.tables.linbits| == 34 && |d.tables.pretab| == 22
    requires pos + Sf.LayoutBits(layout) <= |bits|
    ensures ChannelFrom(d, bands, gc, layout, bits, pos)
      == LinesSpec(d.codes, d.powf, d.tables, bands, gc, SfTable(layout, bits, pos), bits, pos + Sf.LayoutBits(layout))
  {
  }

  /** A channel whose scale factors were read into `table` goes on as `LinesSpec` over that table. */
  lemma TableLines(d: Dsp, bands: Bands, gc: GranuleChannel, table: seq<seq<u8>>, layout: seq<Sf.Read>, bits: seq<bool>,
                   pos: nat, p: nat, want: ChannelResult)
    requires ValidBands(bands) && |d.tables.linbits| == 34 && |d.tables.pretab| == 22
    requires p == pos + Sf.LayoutBits(layout) <= |bits| && Rq.SfShape(table)
    requires forall w, i :: 0 <= w < 3 && 0 <= i < 22 ==> table[w][i] == Sf.Decoded(layout, bits, pos, 0, w, i)
    requires want == ChannelFrom(d, bands, gc, layout, bits, pos)
    ensures want == LinesSpec(d.codes, d.powf, d.tables, bands, gc, table, bits, p)
  {
    SnapshotTable(table, layout, bits, pos);
    ChannelFromLines(d, bands, gc, layout, bits, pos);
  }

  /** `decode_scalefactors` by `layout` then `LinesSpec`, for a channel whose slen index is in range. */
  method ReadChannel(d: Dsp, reader: BitReader, isMpeg1: bool, bands: Bands, gc: GranuleChannel, scfsi: Scfsi,
                     samples: array<real>, ghost want: ChannelResult)
    returns (r: Outcome)
    requires Hf.ValidCodes(d.codes) && reader.Valid() && samples.Length == LINES
    requires ValidBands(bands) && |d.tables.linbits| == 34 && |d.tables.pretab| == 22
    requires isMpeg1 ==> Sf.SlenIndexOk(d.tables.slen, gc)
    requires want == ChannelFrom(d, bands, gc, Sf.Layout(isMpeg1, gc, scfsi, d.tables.slen), reader.bits, reader.pos)
    modifies reader, samples
    ensures reader.Valid()
    ensures r == Done <==> want.ChannelDone?
    ensures r == Panic <==> want.ChannelPanic?
    ensures r == Done ==> samples[..] == want.lines && reader.pos == want.pos
  {
    var t := d.tables;
    ghost var pos0 := reader.pos;
    ghost var layout := Sf.Layout(isMpeg1, gc, scfsi, t.slen);
    var sf := new u8[3, 22]((w, i) => 0);
    var ok := Sf.DecodeScalefactors(reader, isMpeg1, gc, scfsi, t.slen, sf);
    if !ok {
      return NoData;
    }
    var table := Sf.Snapshot(sf);
    assert Rq.SfShape(table);
    TableLines(d, bands, gc, table, layout, reader.bits, pos0, reader.pos, want);
    r := HuffmanRequantize(reader, d.codes, d.powf, d.tables, bands, gc, table, samples, want);
  }

  /** `decode_scalefactors`, `decode_huffman` and `requantize` for one channel, into `samples`. */
  method DecodeChannel(d: Dsp, reader: BitReader, h: FrameHeader, gc: GranuleChannel, scfsi: Scfsi, samples: array<real>)
    returns (r: Outcome)
    requires Hf.ValidCodes(d.codes) && TablesFit(d.tables, h) && reader.Valid() && samples.Length == LINES
    modifies reader, samples
    ensures reader.Valid()
    ensures r == Done <==> ChannelSpec(d, h, gc, scfsi, reader.bits, old(reader.pos)).ChannelDone?
    ensures r == Panic <==> ChannelSpec(d, h, gc, scfsi, reader.bits, old(reader.pos)).ChannelPanic?
    ensures r == Done ==> samples[..] == ChannelSpec(d, h, gc, scfsi, reader.bits, old(reader.pos)).lines
    ensures r == Done ==> reader.pos == ChannelSpec(d, h, gc, scfsi, reader.bits, old(reader.pos)).pos
  {
    if h.isMpeg1 && !Sf.SlenIndexOk(d.tables.slen, gc) {
      return Panic;
    }
    var bands := d.tables.bandsFor(h);
    ghost var want := ChannelSpec(d, h, gc, scfsi, reader.bits, reader.pos);
    r := ReadChannel(d, reader, h.isMpeg1, bands, gc, scfsi, samples, want);
  }

  /** A channel's lines after `reorder` and `alias_reduction`. */
  function Aliased(d: Dsp, h: FrameHeader, gc: GranuleChannel, s: seq<real>): (t: seq<real>)
    requires TablesFit(d.tables, h) && |s| == LINES
    ensures |t| == LINES
  {
    St.AliasOut(gc, d.tables.cs, d.tables.ca, St.ReorderLines(gc, d.tables.bandsFor(h).short, s))
  }

  /** A channel's lines after all four stages, overlap-added with the carry `prev`. */
  function StagedLines(d: Dsp, h: FrameHeader, gc: GranuleChannel, s: seq<real>, prev: seq<real>): (t: seq<real>)
    requires TablesFit(d.tables, h) && St.TransformShape(d.imdct) && |s| == LINES && |prev| == LINES
    ensures |t| == LINES
  {
    St.FreqInv(St.ImdctLines(d.imdct, Aliased(d, h, gc, s), prev, gc))
  }

  /** The carry a channel leaves for the next granule: the second halves of its IMDCT outputs. */
  function StagedCarry(d: Dsp, h: FrameHeader, gc: GranuleChannel, s: seq<real>): (t: seq<real>)
    requires TablesFit(d.tables, h) && St.TransformShape(d.imdct) && |s| == LINES
    ensures |t| == LINES
  {
    St.ImdctCarry(d.imdct, Aliased(d, h, gc, s), gc)
  }

  /**
   * `reorder`, `alias_reduction`, `imdct` and `frequency_inversion` for one
   * channel whose IMDCT carry is `prev`; a short block panics in `imdct`.
   */
  method ChannelStages(d: Dsp, h: FrameHeader, gc: GranuleChannel, samples: array<real>, prev: array<real>)
    returns (r: Outcome)
    requires TablesFit(d.tables, h) && St.TransformShape(d.imdct)
    requires samples.Length == LINES && prev.Length == LINES && samples != prev
    modifies samples, prev
    ensures r != NoData && (r == Panic <==> gc.blockType == 2)
    ensures r == Done ==>
      samples[..] == StagedLines(d, h, gc, old(samples[..]), old(prev[..])) && prev[..] == StagedCarry(d, h, gc, old(samples[..]))
  {
    var t := d.tables;
    St.Reorder(gc, t.bandsFor(h).short, samples);
    St.AliasReduction(gc, t.cs, t.ca, samples);
    if gc.blockType == 2 {
      return Panic;
    }
    St.Imdct(d.imdct, gc, samples, prev);
    St.FrequencyInversion(samples);
    return Done;
  }

  /* ---------------------------------------------------------------- */
  /* Synthesis and PCM output                                          */
  /* ---------------------------------------------------------------- */

  /** `f32 as i16`: toward zero. */
  function Truncate(v: real): int
  {
    if v >= 0.0 then v.Floor else -((-v).Floor)
  }

  /** `(x * 32768.0).clamp(-32768.0, 32767.0) as i16`. */
  function ToPcm(x: real): i16
  {
    var v := x * 32768.0;
    var c := if v < -32768.0 then -32768.0 else if v > 32767.0 then 32767.0 else v;
    Truncate(c)
  }

  /** Samples at or beyond full scale saturate. */
  lemma ToPcmSaturates(x: real)
    ensures x * 32768.0 >= 32767.0 ==> ToPcm(x) == 32767
    ensures x * 32768.0 <= -32768.0 ==> ToPcm(x) == -32768
  {
  }

  /** Within range the scaled sample is truncated toward zero: the result is within 1 of it, on its side of 0. */
  lemma ToPcmTruncates(x: real)
    requires -32768.0 <= x * 32768.0 <= 32767.0
    ensures x >= 0.0 ==> 0.0 <= ToPcm(x) as real <= x * 32768.0 < ToPcm(x) as real + 1.0
    ensures x < 0.0 ==> ToPcm(x) as real - 1.0 < x * 32768.0 <= ToPcm(x) as real <= 0.0
  {
  }

  /** Louder samples never give smaller PCM values. */
  lemma ToPcmMonotone(x: real, y: real)
    requires x <= y
    ensures ToPcm(x) <= ToPcm(y)
  {
    var vx, vy := x * 32768.0, y * 32768.0;
    assert vx <= vy;
  }

  /** The 32 subband samples of time slot `i`: `samples[sb * 18 + i]`. */
  function SlotOf(s: seq<real>, i: nat): (v: seq<real>)
    requires |s| == LINES && i < SLOTS
    ensures |v| == SUBBANDS
  {
    seq(SUBBANDS, sb requires 0 <= sb < SUBBANDS => s[sb * SLOTS + i])
  }

  /** The filterbank state of channel `ch` after the first `n` slots of its lines `s`, from state `st`. */
  function SynthAfter(d: Dsp, st: seq<real>, s: seq<real>, ch: nat, n: nat): seq<real>
    requires |s| == LINES && n <= SLOTS
  {
    if n == 0 then st else d.synth(SynthAfter(d, st, s, ch, n - 1), SlotOf(s, n - 1), ch).0
  }

  /** The state of channel `ch` after `n` slots when the granule has `channels` channels. */
  function SynthState(d: Dsp, st: seq<real>, s: seq<real>, ch: nat, channels: nat, n: nat): seq<real>
    requires |s| == LINES && n <= SLOTS
  {
    if ch < channels then SynthAfter(d, st, s, ch, n) else st
  }

  /** The 32 PCM values of channel `ch` at slot `i`. */
  function Block(d: Dsp, st: seq<real>, s: seq<real>, ch: nat, i: nat): (b: seq<i16>)
    requires SynthShape(d.synth) && |s| == LINES && i < SLOTS
    ensures |b| == 32
  {
    var pcm := d.synth(SynthAfter(d, st, s, ch, i), SlotOf(s, i), ch).1;
    seq(32, j requires 0 <= j < 32 => ToPcm(pcm[j]))
  }

  /** Slot `i`'s blocks of the first `channels` channels, channel 0 first. */
  function SlotBlocks(d: Dsp, st0: seq<real>, st1: seq<real>, s0: seq<real>, s1: seq<real>, channels: nat, i: nat): (o: seq<i16>)
    requires SynthShape(d.synth) && |s0| == LINES && |s1| == LINES && channels <= 2 && i < SLOTS
    ensures |o| == channels * 32
  {
    (if channels >= 1 then Block(d, st0, s0, 0, i) else []) + (if channels == 2 then Block(d, st1, s1, 1, i) else [])
  }

  /** The PCM of the first `n` slots: slot after slot, and within a slot channel after channel. */
  function GranulePcm(d: Dsp, st0: seq<real>, st1: seq<real>, s0: seq<real>, s1: seq<real>, channels: nat, n: nat): (o: seq<i16>)
    requires SynthShape(d.synth) && |s0| == LINES && |s1| == LINES && channels <= 2 && n <= SLOTS
    ensures |o| == n * (channels * 32)
  {
    if n == 0 then [] else GranulePcm(d, st0, st1, s0, s1, channels, n - 1) + SlotBlocks(d, st0, st1, s0, s1, channels, n - 1)
  }

  /** Sample `j` of channel `ch` at slot `i` is output sample `(i * channels + ch) * 32 + j`. */
  lemma {:induction false} GranulePcmAt(d: Dsp, st0: seq<real>, st1: seq<real>, s0: seq<real>, s1: seq<real>, channels: nat, n: nat,
                                         i: nat, ch: nat, j: nat)
    requires SynthShape(d.synth) && |s0| == LINES && |s1| == LINES && channels <= 2 && n <= SLOTS
    requires i < n && ch < channels && j < 32
    ensures (i * channels + ch) * 32 + j < |GranulePcm(d, st0, st1, s0, s1, channels, n)|
    ensures GranulePcm(d, st0, st1, s0, s1, channels, n)[(i * channels + ch) * 32 + j]
      == Block(d, if ch == 0 then st0 else st1, if ch == 0 then s0 else s1, ch, i)[j]
  {
    var k := (i * channels + ch) * 32 + j;
    var prefix := GranulePcm(d, st0, st1, s0, s1, channels, n - 1);
    assert |prefix| == (n - 1) * (channels * 32);
    assert k == i * (channels * 32) + ch * 32 + j;
    if i < n - 1 {
      assert i * (channels * 32) + channels * 32 <= (n - 1) * (channels * 32) by {
        assert i + 1 <= n - 1;
        Sf.MulMono(i + 1, n - 1, channels * 32);
      }
      GranulePcmAt(d, st0, st1, s0, s1, channels, n - 1, i, ch, j);
    } else {
      assert k - |prefix| == ch * 32 + j;
    }
  }

  /* ---------------------------------------------------------------- */
  /* One granule, one frame                                            */
  /* ---------------------------------------------------------------- */

  /** The lines of the channels read so far (others zero) and the bit position reached; a `None`; or a panic. */
  datatype LinesRead = LinesDone(s0: seq<real>, s1: seq<real>, pos: nat) | LinesNone | LinesPanic

  /**
   * The first loop of a granule over its first `n` channels from bit `pos`:
   * each channel's lines as `ChannelSpec` says, in channel order, stopping at
   * the first `None` or panic; a third channel panics (`granules[gr].channels[2]`).
   */
  function ReadLines(d: Dsp, h: FrameHeader, g: Granule, si: SideInfo, bits: seq<bool>, pos: nat, n: nat): (r: LinesRead)
    requires TablesFit(d.tables, h)
    ensures r.LinesDone? ==> n <= 2 && |r.s0| == LINES && |r.s1| == LINES
  {
    if n == 0 then LinesDone(ZeroLines(), ZeroLines(), pos)
    else match ReadLines(d, h, g, si, bits, pos, n - 1)
      case LinesDone(s0, s1, p) =>
        if n - 1 >= 2 then LinesPanic
        else (match ChannelSpec(d, h, g.Channel(n - 1), si.ScfsiOf(n - 1), bits, p)
          case ChannelDone(lines, q) => if n == 1 then LinesDone(lines, s1, q) else LinesDone(s0, lines, q)
          case ChannelNone => LinesNone
          case ChannelPanic => LinesPanic)
      case LinesNone => LinesNone
      case LinesPanic => LinesPanic
  }

  /** Once the channel loop stops with `None` or a panic, later channels change nothing. */
  lemma {:induction false} ReadLinesStops(d: Dsp, h: FrameHeader, g: Granule, si: SideInfo, bits: seq<bool>, pos: nat, m: nat, n: nat)
    requires TablesFit(d.tables, h) && m <= n
    requires !ReadLines(d, h, g, si, bits, pos, m).LinesDone?
    ensures ReadLines(d, h, g, si, bits, pos, n) == ReadLines(d, h, g, si, bits, pos, m)
  {
    if m < n {
      ReadLinesStops(d, h, g, si, bits, pos, m, n - 1);
    }
  }

  /** Channel `ch` of the granule uses short blocks, which panic in `imdct`, for one of the first `n` channels. */
  predicate ShortIn(g: Granule, n: nat)
  {
    (n >= 1 && g.ch0.blockType == 2) || (n >= 2 && g.ch1.blockType == 2)
  }

  /** Channel `ch`'s lines after the stages when it is among the first `n` channels; otherwise as they were. */
  function StagedCh(d: Dsp, h: FrameHeader, g: Granule, n: nat, ch: nat, s: seq<real>, prev: seq<real>): (t: seq<real>)
    requires TablesFit(d.tables, h) && St.TransformShape(d.imdct) && |s| == LINES && |prev| == LINES && ch < 2
    ensures |t| == LINES
  {
    if ch < n then StagedLines(d, h, g.Channel(ch), s, prev) else s
  }

  /** Channel `ch`'s carry after the stages when it is among the first `n` channels; otherwise as it was. */
  function CarryCh(d: Dsp, h: FrameHeader, g: Granule, n: nat, ch: nat, s: seq<real>, prev: seq<real>): (t: seq<real>)
    requires TablesFit(d.tables, h) && St.TransformShape(d.imdct) && |s| == LINES && |prev| == LINES && ch < 2
    ensures |t| == LINES
  {
    if ch < n then StagedCarry(d, h, g.Channel(ch), s) else prev
  }

  /** What the decoder carries from granule to granule: both IMDCT carries and both filterbank states. */
  datatype Carry = Carry(prev0: seq<real>, prev1: seq<real>, synth0: seq<real>, synth1: seq<real>)

  predicate CarryShape(c: Carry)
  {
    |c.prev0| == LINES && |c.prev1| == LINES
  }

  /**
   * How decoding granules ends: the PCM, the bit position reached and the
   * new carry; a `None` with the carry as it stands then; or a panic.
   */
  datatype Decoded = Decoded(pcm: seq<i16>, pos: nat, carry: Carry) | Stopped(carry: Carry) | Crashed

  /**
   * Granule `gr` from bit `pos` with carry `c`: every channel's lines
   * (`ReadLines`), mid/side stereo for two channels, the four stages of each
   * channel in channel order (a short block panics), then the 18 slots of
   * synthesis. A `None` comes before any stage, so it leaves the carry alone.
   */
  function GranuleSpec(d: Dsp, h: FrameHeader, si: SideInfo, gr: nat, bits: seq<bool>, pos: nat, c: Carry): (r: Decoded)
    requires TablesFit(d.tables, h) && St.TransformShape(d.imdct) && SynthShape(d.synth) && CarryShape(c) && gr < 2
    ensures r.Stopped? ==> r.carry == c
    ensures r.Decoded? ==> h.channels <= 2 && |r.pcm| == SLOTS * (h.channels * 32) && CarryShape(r.carry)
    ensures r.Decoded? ==> forall ch :: 0 <= ch < h.channels && ch < 2 ==> si.GranuleAt(gr).Channel(ch).blockType != 2
  {
    var g := si.GranuleAt(gr);
    match ReadLines(d, h, g, si, bits, pos, h.channels)
    case LinesNone => Stopped(c)
    case LinesPanic => Crashed
    case LinesDone(a0, a1, p) =>
      if ShortIn(g, h.channels) then Crashed
      else
        var n := h.channels;
        var b0 := if n == 2 then St.StereoLeft(h.msStereo, a0, a1) else a0;
        var b1 := if n == 2 then St.StereoRight(h.msStereo, a0, a1) else a1;
        var e0 := StagedCh(d, h, g, n, 0, b0, c.prev0);
        var e1 := StagedCh(d, h, g, n, 1, b1, c.prev1);
        Decoded(GranulePcm(d, c.synth0, c.synth1, e0, e1, n, SLOTS), p,
                Carry(CarryCh(d, h, g, n, 0, b0, c.prev0), CarryCh(d, h, g, n, 1, b1, c.prev1),
                      SynthState(d, c.synth0, e0, 0, n, SLOTS), SynthState(d, c.synth1, e1, 1, n, SLOTS)))
  }

  /**
   * The first `n` granules of a frame read from the start of `bits`, each
   * from where the one before stopped and with its carry; the PCM is the
   * granules' PCM one after the other, and the first `None` or panic ends it.
   */
  function GranulesSpec(d: Dsp, h: FrameHeader, si: SideInfo, bits: seq<bool>, c: Carry, n: nat): (r: Decoded)
    requires TablesFit(d.tables, h) && St.TransformShape(d.imdct) && SynthShape(d.synth) && CarryShape(c) && n <= 2
    ensures r.Decoded? ==> CarryShape(r.carry) && |r.pcm| == n * (SLOTS * (h.channels * 32))
    ensures r.Decoded? && n > 0 ==> h.channels <= 2
  {
    if n == 0 then Decoded([], 0, c)
    else match GranulesSpec(d, h, si, bits, c, n - 1)
      case Decoded(pcm, p, c1) =>
        (match GranuleSpec(d, h, si, n - 1, bits, p, c1)
          case Decoded(o, q, c2) => Decoded(pcm + o, q, c2)
          case Stopped(c2) => Stopped(c2)
          case Crashed => Crashed)
      case Stopped(c1) => Stopped(c1)
      case Crashed => Crashed
  }

  /** Once a granule stops with `None` or a panic, later granules change nothing. */
  lemma {:induction false} GranulesStop(d: Dsp, h: FrameHeader, si: SideInfo, bits: seq<bool>, c: Carry, m: nat, n: nat)
    requires TablesFit(d.tables, h) && St.TransformShape(d.imdct) && SynthShape(d.synth) && CarryShape(c)
    requires m <= n <= 2 && !GranulesSpec(d, h, si, bits, c, m).Decoded?
    ensures GranulesSpec(d, h, si, bits, c, n) == GranulesSpec(d, h, si, bits, c, m)
  {
    if m < n {
      GranulesStop(d, h, si, bits, c, m, n - 1);
    }
  }

  /** A decoded run of granules is the run before its last granule followed by that granule's PCM and carry. */
  lemma GranulesAppend(d: Dsp, h: FrameHeader, si: SideInfo, bits: seq<bool>, c: Carry, n: nat)
    requires TablesFit(d.tables, h) && St.TransformShape(d.imdct) && SynthShape(d.synth) && CarryShape(c)
    requires 0 < n <= 2 && GranulesSpec(d, h, si, bits, c, n).Decoded?
    ensures var before := GranulesSpec(d, h, si, bits, c, n - 1);
      && before.Decoded?
      && var g := GranuleSpec(d, h, si, n - 1, bits, before.pos, before.carry);
      && g.Decoded?
      && GranulesSpec(d, h, si, bits, c, n) == Decoded(before.pcm + g.pcm, g.pos, g.carry)
  {
  }

  /**
   * The granules of a frame whose main data `mainData` joins the reservoir
   * `reservoir`: read from `main_data_begin` bytes before the new main data,
   * with the carry `c`.
   */
  function FrameGranules(d: Dsp, h: FrameHeader, si: SideInfo, reservoir: seq<u8>, mainData: seq<u8>, c: Carry): (r: Decoded)
    requires TablesFit(d.tables, h) && St.TransformShape(d.imdct) && SynthShape(d.synth) && CarryShape(c)
    requires si.mainDataBegin <= |reservoir|
    ensures r.Decoded? ==> |r.pcm| == Granules(h) * (SLOTS * (h.channels * 32))
  {
    GranulesSpec(d, h, si, BytesBits((reservoir + mainData)[|reservoir| - si.mainDataBegin..]), c, Granules(h))
  }

  /* ---------------------------------------------------------------- */
  /* The decoder                                                       */
  /* ---------------------------------------------------------------- */

  /** One pass of the first loop of a granule: channel `ch` read into its own lines; a third channel panics. */
  method ReadChannelStep(d: Dsp, reader: BitReader, h: FrameHeader, si: SideInfo, g: Granule, ghost pos0: nat, ch: nat, s0: array<real>, s1: array<real>)
    returns (r: Outcome)
    requires Hf.ValidCodes(d.codes) && TablesFit(d.tables, h) && reader.Valid()
    requires s0.Length == LINES && s1.Length == LINES && s0 != s1
    requires var sp := ReadLines(d, h, g, si, reader.bits, pos0, ch);
      sp.LinesDone? && s0[..] == sp.s0 && s1[..] == sp.s1 && reader.pos == sp.pos
    modifies reader, s0, s1
    ensures reader.Valid()
    ensures var sp := ReadLines(d, h, g, si, reader.bits, pos0, ch + 1);
      && (r == Done <==> sp.LinesDone?)
      && (r == Panic <==> sp.LinesPanic?)
      && (r == Done ==> s0[..] == sp.s0 && s1[..] == sp.s1 && reader.pos == sp.pos)
  {
    if ch >= 2 {
      r := Panic;
    } else if ch == 0 {
      r := DecodeChannel(d, reader, h, g.Channel(0), si.ScfsiOf(0), s0);
    } else {
      r := DecodeChannel(d, reader, h, g.Channel(1), si.ScfsiOf(1), s1);
    }
  }

  /**
   * The first loop of a granule, `for ch in 0..channels`:
   * `decode_scalefactors`, `decode_huffman` and `requantize` for each
   * channel into its own zeroed lines, the first `None` or panic ending it.
   */
  method ReadGranuleLines(d: Dsp, reader: BitReader, h: FrameHeader, si: SideInfo, g: Granule, s0: array<real>, s1: array<real>)
    returns (r: Outcome)
    requires Hf.ValidCodes(d.codes) && TablesFit(d.tables, h) && reader.Valid()
    requires s0.Length == LINES && s1.Length == LINES && s0 != s1
    requires s0[..] == ZeroLines() && s1[..] == ZeroLines()
    modifies reader, s0, s1
    ensures reader.Valid()
    ensures var spec := ReadLines(d, h, g, si, reader.bits, old(reader.pos), h.channels);
      && (r == Done <==> spec.LinesDone?)
      && (r == Panic <==> spec.LinesPanic?)
      && (r == Done ==> s0[..] == spec.s0 && s1[..] == spec.s1 && reader.pos == spec.pos)
  {
    ghost var pos0 := reader.pos;
    ghost var bits := reader.bits;
    var ch := 0;
    while ch < h.channels
      invariant ch <= h.channels && reader.Valid() && reader.bits == bits
      invariant ReadLines(d, h, g, si, bits, pos0, ch).LinesDone?
      invariant s0[..] == ReadLines(d, h, g, si, bits, pos0, ch).s0
      invariant s1[..] == ReadLines(d, h, g, si, bits, pos0, ch).s1
      invariant reader.pos == ReadLines(d, h, g, si, bits, pos0, ch).pos
    {
      r := ReadChannelStep(d, reader, h, si, g, pos0, ch, s0, s1);
      if r != Done {
        ReadLinesStops(d, h, g, si, bits, pos0, ch + 1, h.channels);
        return;
      }
      ch := ch + 1;
    }
    r := Done;
  }

  /** The 576 zero lines of a fresh carry. */
  function ZeroLines(): (z: seq<real>)
    ensures |z| == LINES
  {
    seq(LINES, _ => 0.0)
  }

  class Layer3Decoder {
    /** The foreign parts, fixed for the decoder's life. */
    const dsp: Dsp
    /** `synth[0]`, `synth[1]`: the filterbank states. */
    var synth0: seq<real>
    var synth1: seq<real>
    /** `prev_samples[0]`, `prev_samples[1]`: the IMDCT carries. */
    const prev0: array<real>
    const prev1: array<real>
    /** `main_data_buffer`: the bit reservoir. */
    var reservoir: seq<u8>

    /** The shapes the decoder relies on; it reads only constant fields, so nothing the decoder does can break it. */
    ghost predicate Valid()
    {
      ValidDsp(dsp) && prev0.Length == LINES && prev1.Length == LINES && prev0 != prev1
    }

    /** The carries and filterbank states the decoder holds. */
    function CarryOf(): (c: Carry)
      reads this`synth0, this`synth1, prev0, prev1
      ensures Valid() ==> CarryShape(c)
    {
      Carry(prev0[..], prev1[..], synth0, synth1)
    }

    /** `Layer3Decoder::new`: zero carries, fresh filterbanks, empty reservoir. */
    constructor (d: Dsp)
      requires ValidDsp(d)
      ensures Valid() && dsp == d && fresh(prev0) && fresh(prev1)
      ensures synth0 == d.synthInit && synth1 == d.synthInit && reservoir == []
      ensures prev0[..] == ZeroLines() && prev1[..] == ZeroLines()
    {
      dsp := d;
      synth0, synth1 := d.synthInit, d.synthInit;
      prev0 := new real[LINES](_ => 0.0);
      prev1 := new real[LINES](_ => 0.0);
      reservoir := [];
    }

    /** `reset`: fresh filterbanks, zero carries, empty reservoir. */
    method Reset()
      requires Valid()
      modifies this, prev0, prev1
      ensures Valid()
      ensures synth0 == dsp.synthInit && synth1 == dsp.synthInit && reservoir == []
      ensures prev0[..] == ZeroLines() && prev1[..] == ZeroLines()
    {
      synth0, synth1 := dsp.synthInit, dsp.synthInit;
      forall k | 0 <= k < LINES {
        prev0[k] := 0.0;
      }
      forall k | 0 <= k < LINES {
        prev1[k] := 0.0;
      }
      reservoir := [];
    }

    /** One `synth[ch].process` of slot `i` of the lines `s`, and its 32 clamped samples. */
    method SynthesizeSlot(s: array<real>, ch: nat, i: nat, ghost st: seq<real>) returns (block: seq<i16>)
      requires Valid() && s.Length == LINES && ch < 2 && i < SLOTS
      requires (if ch == 0 then synth0 else synth1) == SynthAfter(dsp, st, s[..], ch, i)
      modifies this
      ensures Valid() && reservoir == old(reservoir)
      ensures block == Block(dsp, st, s[..], ch, i)
      ensures (if ch == 0 then synth0 else synth1) == SynthAfter(dsp, st, s[..], ch, i + 1)
      ensures if ch == 0 then synth1 == old(synth1) else synth0 == old(synth0)
    {
      var subband := new real[SUBBANDS](_ => 0.0);
      for sb := 0 to SUBBANDS
        modifies subband
        invariant forall j :: 0 <= j < sb ==> subband[j] == s[j * SLOTS + i]
      {
        subband[sb] := s[sb * SLOTS + i];
      }
      assert subband[..] == SlotOf(s[..], i);
      var state := if ch == 0 then synth0 else synth1;
      var next := dsp.synth(state, subband[..], ch);
      if ch == 0 {
        synth0 := next.0;
      } else {
        synth1 := next.0;
      }
      var pcm := next.1;
      block := [];
      for j := 0 to 32
        modifies {}
        invariant |block| == j && forall m :: 0 <= m < j ==> block[m] == ToPcm(pcm[m])
      {
        block := block + [ToPcm(pcm[j])];
      }
    }

    /** The inner output loop, `for ch in 0..channels`, at slot `i`. */
    method EmitSlot(s0: array<real>, s1: array<real>, channels: nat, i: nat, ghost st0: seq<real>, ghost st1: seq<real>)
      returns (blocks: seq<i16>)
      requires Valid() && s0.Length == LINES && s1.Length == LINES && channels <= 2 && i < SLOTS
      requires synth0 == SynthState(dsp, st0, s0[..], 0, channels, i)
      requires synth1 == SynthState(dsp, st1, s1[..], 1, channels, i)
      modifies this
      ensures reservoir == old(reservoir)
      ensures blocks == SlotBlocks(dsp, st0, st1, s0[..], s1[..], channels, i)
      ensures synth0 == SynthState(dsp, st0, s0[..], 0, channels, i + 1)
      ensures synth1 == SynthState(dsp, st1, s1[..], 1, channels, i + 1)
    {
      blocks := [];
      for ch := 0 to channels
        invariant reservoir == old(reservoir)
        invariant blocks == SlotBlocks(dsp, st0, st1, s0[..], s1[..], ch, i)
        invariant synth0 == if 0 < ch then SynthAfter(dsp, st0, s0[..], 0, i + 1) else SynthState(dsp, st0, s0[..], 0, channels, i)
        invariant synth1 == if 1 < ch then SynthAfter(dsp, st1, s1[..], 1, i + 1) else SynthState(dsp, st1, s1[..], 1, channels, i)
      {
        var block := SynthesizeSlot(if ch == 0 then s0 else s1, ch, i, if ch == 0 then st0 else st1);
        blocks := blocks + block;
      }
    }

    /** The output loop of a granule: `for i in 0..18`, `for ch in 0..channels`, 32 samples each. */
    method EmitGranule(s0: array<real>, s1: array<real>, channels: nat) returns (out: seq<i16>)
      requires Valid() && s0.Length == LINES && s1.Length == LINES && channels <= 2
      modifies this
      ensures Valid() && reservoir == old(reservoir)
      ensures out == GranulePcm(dsp, old(synth0), old(synth1), s0[..], s1[..], channels, SLOTS)
      ensures synth0 == SynthState(dsp, old(synth0), s0[..], 0, channels, SLOTS)
      ensures synth1 == SynthState(dsp, old(synth1), s1[..], 1, channels, SLOTS)
    {
      ghost var st0, st1 := synth0, synth1;
      out := [];
      for i := 0 to SLOTS
        invariant reservoir == old(reservoir)
        invariant out == GranulePcm(dsp, st0, st1, s0[..], s1[..], channels, i)
        invariant synth0 == SynthState(dsp, st0, s0[..], 0, channels, i)
        invariant synth1 == SynthState(dsp, st1, s1[..], 1, channels, i)
      {
        var blocks := EmitSlot(s0, s1, channels, i, st0, st1);
        out := out + blocks;
      }
    }

    /**
     * The second loop of a granule, `for ch in 0..channels`: the four stages
     * of each channel in channel order, with that channel's carry; the first
     * short block panics.
     */
    method RunStages(h: FrameHeader, g: Granule, s0: array<real>, s1: array<real>) returns (r: Outcome)
      requires Valid() && TablesFit(dsp.tables, h) && St.TransformShape(dsp.imdct)
      requires s0.Length == LINES && s1.Length == LINES && h.channels <= 2
      requires s0 != s1 && s0 != prev0 && s0 != prev1 && s1 != prev0 && s1 != prev1
      modifies s0, s1, prev0, prev1
      ensures r != NoData && (r == Panic <==> ShortIn(g, h.channels))
      ensures r == Done ==>
        && s0[..] == StagedCh(dsp, h, g, h.channels, 0, old(s0[..]), old(prev0[..]))
        && s1[..] == StagedCh(dsp, h, g, h.channels, 1, old(s1[..]), old(prev1[..]))
        && prev0[..] == CarryCh(dsp, h, g, h.channels, 0, old(s0[..]), old(prev0[..]))
        && prev1[..] == CarryCh(dsp, h, g, h.channels, 1, old(s1[..]), old(prev1[..]))
    {
      for c := 0 to h.channels
        invariant !ShortIn(g, c)
        invariant s0[..] == StagedCh(dsp, h, g, c, 0, old(s0[..]), old(prev0[..]))
        invariant s1[..] == StagedCh(dsp, h, g, c, 1, old(s1[..]), old(prev1[..]))
        invariant prev0[..] == CarryCh(dsp, h, g, c, 0, old(s0[..]), old(prev0[..]))
        invariant prev1[..] == CarryCh(dsp, h, g, c, 1, old(s1[..]), old(prev1[..]))
      {
        r := ChannelStages(dsp, h, g.Channel(c), if c == 0 then s0 else s1, if c == 0 then prev0 else prev1);
        if r == Panic {
          return;
        }
      }
      r := Done;
    }

    /**
     * One granule: every channel's lines (a `None` or panic stops it), mid/side
     * stereo for two channels, the per-channel stages, then the PCM output,
     * exactly as `GranuleSpec` says from the decoder's carry. A `None` leaves
     * the carries and filterbanks as they were.
     */
    method DecodeGranule(reader: BitReader, h: FrameHeader, si: SideInfo, gr: nat) returns (r: Outcome, out: seq<i16>)
      requires Valid() && reader.Valid() && gr < 2
      modifies this, prev0, prev1, reader
      ensures Valid() && reader.Valid() && reservoir == old(reservoir)
      ensures var spec := GranuleSpec(dsp, h, si, gr, reader.bits, old(reader.pos), old(CarryOf()));
        && (r == Done <==> spec.Decoded?)
        && (r == Panic <==> spec.Crashed?)
        && (r == Done ==> out == spec.pcm && reader.pos == spec.pos && CarryOf() == spec.carry)
        && (r == NoData ==> CarryOf() == spec.carry)
    {
      DspFits(dsp, h);
      var s0 := new real[LINES](_ => 0.0);
      var s1 := new real[LINES](_ => 0.0);
      assert s0[..] == ZeroLines() && s1[..] == ZeroLines();
      var g := si.GranuleAt(gr);
      r := ReadGranuleLines(dsp, reader, h, si, g, s0, s1);
      out := [];
      if r != Done {
        return;
      }
      if h.channels == 2 {
        St.ProcessStereo(h.msStereo, s0, s1);
      }
      r := RunStages(h, g, s0, s1);
      if r == Panic {
        return;
      }
      out := EmitGranule(s0, s1, h.channels);
      r := Done;
    }

    /** The granule loop of a frame, `for gr in 0..granules`, as `GranulesSpec` says from the decoder's carry. */
    method DecodeGranules(reader: BitReader, h: FrameHeader, si: SideInfo, granules: nat) returns (r: Outcome, output: seq<i16>)
      requires Valid() && reader.Valid() && reader.pos == 0 && granules <= 2
      modifies this, prev0, prev1, reader
      ensures Valid() && reader.Valid() && reservoir == old(reservoir)
      ensures var spec := GranulesSpec(dsp, h, si, reader.bits, old(CarryOf()), granules);
        && (r == Done <==> spec.Decoded?)
        && (r == Panic <==> spec.Crashed?)
        && (r == Done ==> output == spec.pcm)
        && (r != Panic ==> CarryOf() == spec.carry)
    {
      DspFits(dsp, h);
      ghost var c0 := CarryOf();
      output := [];
      for gr := 0 to granules
        invariant Valid() && reader.Valid() && reservoir == old(reservoir)
        invariant var sp := GranulesSpec(dsp, h, si, reader.bits, c0, gr);
          sp.Decoded? && output == sp.pcm && reader.pos == sp.pos && CarryOf() == sp.carry
      {
        var g, pcm := DecodeGranule(reader, h, si, gr);
        if g != Done {
          GranulesStop(dsp, h, si, reader.bits, c0, gr + 1, granules);
          return g, [];
        }
        output := output + pcm;
      }
      r := Done;
    }

    /** The reservoir's trim after a decoded frame: only its last 2048 bytes stay. */
    method TrimReservoir()
      modifies this
      ensures |reservoir| == Min(|old(reservoir)|, MAX_RESERVOIR) && reservoir == old(reservoir)[|old(reservoir)| - |reservoir|..]
      ensures synth0 == old(synth0) && synth1 == old(synth1)
    {
      if |reservoir| > MAX_RESERVOIR {
        var drain := |reservoir| - MAX_RESERVOIR;
        reservoir := reservoir[drain..];
      }
    }

    /**
     * The rest of `decode_frame` once the main data is in the reservoir:
     * the granules read from `offset`, then the reservoir trimmed to its
     * last 2048 bytes when the frame decodes.
     */
    method DecodeMainData(h: FrameHeader, si: SideInfo, offset: nat) returns (r: FrameResult)
      requires Valid() && offset <= |reservoir|
      modifies this, prev0, prev1
      ensures Valid()
      ensures var spec := GranulesSpec(dsp, h, si, BytesBits(old(reservoir)[offset..]), old(CarryOf()), Granules(h));
        && (r.Output? <==> spec.Decoded?)
        && (r == Panicked <==> spec.Crashed?)
        && (r.Output? ==> r.pcm == spec.pcm)
        && (!spec.Crashed? ==> CarryOf() == spec.carry)
      ensures r == NoFrame ==> reservoir == old(reservoir)
      ensures r.Output? ==> |reservoir| == Min(|old(reservoir)|, MAX_RESERVOIR) && reservoir == old(reservoir)[|old(reservoir)| - |reservoir|..]
      ensures r.Output? ==> |r.pcm| == Granules(h) * (SLOTS * (h.channels * 32))
    {
      DspFits(dsp, h);
      var reader := new BitReader(reservoir[offset..]);
      var granules := if h.isMpeg1 then 2 else 1;
      var g, output := DecodeGranules(reader, h, si, granules);
      if g != Done {
        return if g == NoData then NoFrame else Panicked;
      }
      TrimReservoir();
      return Output(output);
    }

    /**
     * `decode_frame` once the side information `si` has parsed: the main data
     * joins the reservoir, `main_data_begin` is checked against it, and the
     * granules are read from that many bytes before the new main data.
     */
    method DecodeParsed(h: FrameHeader, si: SideInfo, mainData: seq<u8>) returns (r: FrameResult)
      requires Valid()
      modifies this, prev0, prev1
      ensures Valid()
      ensures var grown := old(reservoir) + mainData;
        && (|grown| < si.mainDataBegin ==> r == NoFrame)
        && (|old(reservoir)| < si.mainDataBegin <= |grown| ==> r == Panicked)
        && (r == NoFrame ==> reservoir == grown)
        && (r.Output? ==> |reservoir| == Min(|grown|, MAX_RESERVOIR) && reservoir == grown[|grown| - |reservoir|..])
        && (r.Output? ==> |r.pcm| == Granules(h) * (SLOTS * (h.channels * 32)))
      ensures si.mainDataBegin <= |old(reservoir)| ==>
        var spec := FrameGranules(dsp, h, si, old(reservoir), mainData, old(CarryOf()));
        && (r.Output? <==> spec.Decoded?)
        && (r == Panicked <==> spec.Crashed?)
        && (r.Output? ==> r.pcm == spec.pcm)
        && (!spec.Crashed? ==> CarryOf() == spec.carry)
      ensures |old(reservoir)| < si.mainDataBegin ==> CarryOf() == old(CarryOf())
    {
      DspFits(dsp, h);
      reservoir := reservoir + mainData;
      if |reservoir| < si.mainDataBegin {
        return NoFrame;
      }
      if |reservoir| - si.mainDataBegin - |mainData| < 0 {
        return Panicked;
      }
      var offset := |reservoir| - si.mainDataBegin - |mainData|;
      r := DecodeMainData(h, si, offset);
    }

    /**
     * `decode_frame`. A frame too short for its side information, or whose
     * side information does not parse, gives `None` and leaves the reservoir
     * alone. Otherwise the main data joins the reservoir first, so every
     * later `None` leaves it grown by exactly the main data; a
     * `main_data_begin` reaching back past the old reservoir gives `None` when
     * the grown reservoir is shorter still, and panics (the `usize`
     * subtraction underflows) otherwise. When it reaches back no further
     * than the old reservoir, the granules are read from that point of the
     * grown reservoir as `GranulesSpec` says: the frame decodes exactly when
     * every granule does, into their PCM one after the other. A decoded frame
     * trims the reservoir to its last 2048 bytes.
     */
    method DecodeFrame(h: FrameHeader, frame: seq<u8>) returns (r: FrameResult)
      requires Valid()
      modifies this, prev0, prev1
      ensures Valid()
      ensures SideInfoOf(dsp, h, frame).None? ==> r == NoFrame && reservoir == old(reservoir)
      ensures SideInfoOf(dsp, h, frame).Some? ==>
        var grown := old(reservoir) + MainData(h, frame);
        var mainDataBegin := SideInfoOf(dsp, h, frame).value.mainDataBegin;
        && (|grown| < mainDataBegin ==> r == NoFrame)
        && (|old(reservoir)| < mainDataBegin <= |grown| ==> r == Panicked)
        && (r == NoFrame ==> reservoir == grown)
        && (r.Output? ==> |reservoir| == Min(|grown|, MAX_RESERVOIR) && reservoir == grown[|grown| - |reservoir|..])
      ensures SideInfoOf(dsp, h, frame).Some? && SideInfoOf(dsp, h, frame).value.mainDataBegin <= |old(reservoir)| ==>
        var spec := FrameGranules(dsp, h, SideInfoOf(dsp, h, frame).value, old(reservoir), MainData(h, frame), old(CarryOf()));
        && (r.Output? <==> spec.Decoded?)
        && (r == Panicked <==> spec.Crashed?)
        && (r.Output? ==> r.pcm == spec.pcm)
        && (!spec.Crashed? ==> CarryOf() == spec.carry)
      ensures SideInfoOf(dsp, h, frame).None? || |old(reservoir)| < SideInfoOf(dsp, h, frame).value.mainDataBegin ==>
        CarryOf() == old(CarryOf())
      ensures r.Output? ==> SideInfoOf(dsp, h, frame).Some? && |r.pcm| == Granules(h) * (SLOTS * (h.channels * 32))
    {
      var sideInfoStart := 4 + if h.crcProtection then 2 else 0;
      if |frame| < sideInfoStart + h.sideInfoSize {
        return NoFrame;
      }
      var parsed := dsp.parseSideInfo(frame[sideInfoStart..], h);
      if parsed.None? {
        return NoFrame;
      }
      var mainData := frame[sideInfoStart + h.sideInfoSize..];
      assert SideInfoOf(dsp, h, frame) == parsed && MainData(h, frame) == mainData;
      r := DecodeParsed(h, parsed.value, mainData);
    }
  }
}
