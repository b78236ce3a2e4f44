/**
 * The inputs the Layer III decoder (`src/codecs/mp3/layer3.rs`) works from:
 * the frame header and side information produced by parsers that are not
 * part of this model, and the constant tables it indexes. Every value is
 * taken as given; only the field shapes the decoder relies on are fixed
 * here (two granules of two channels, four SCFSI flags per channel).
 */
module Mp3SideInfo {
  /** Spectral lines per granule and channel. */
  const LINES: nat := 576
  /** Polyphase subbands, and time slots per subband. */
  const SUBBANDS: nat := 32
  const SLOTS: nat := 18

  /** The fields of `FrameHeader` the decoder reads; `side_info_size()` is a field here. */
  datatype FrameHeader = FrameHeader(
    isMpeg1: bool, crcProtection: bool, channels: nat, sideInfoSize: nat, msStereo: bool, sampleRate: nat)

  /** `GranuleChannel`: the per-granule, per-channel side information. */
  datatype GranuleChannel = GranuleChannel(
    bigValues: nat, globalGain: nat, scalefacCompress: nat,
    windowSwitching: bool, blockType: nat, mixedBlock: bool,
    tableSelect: (nat, nat, nat), subblockGain: (nat, nat, nat),
    region0Count: nat, region1Count: nat,
    preflag: bool, scalefacScale: bool, count1TableSelect: bool)
  {
    /** `table_select[r]`. */
    function TableSelect(r: nat): nat
      requires r < 3
    {
      if r == 0 then tableSelect.0 else if r == 1 then tableSelect.1 else tableSelect.2
    }

    /** `subblock_gain[w]`. */
    function SubblockGain(w: nat): nat
      requires w < 3
    {
      if w == 0 then subblockGain.0 else if w == 1 then subblockGain.1 else subblockGain.2
    }

    /** `window_switching && block_type == 2`: the granule uses short windows (possibly mixed). */
    predicate IsShort()
    {
      windowSwitching && blockType == 2
    }
  }

  /** `Granule`: the side information of both channels. */
  datatype Granule = Granule(ch0: GranuleChannel, ch1: GranuleChannel)
  {
    function Channel(ch: nat): GranuleChannel
      requires ch < 2
    {
      if ch == 0 then ch0 else ch1
    }
  }

  /** The four scale-factor selection flags of one channel. */
  datatype Scfsi = Scfsi(band0: bool, band1: bool, band2: bool, band3: bool)
  {
    function Flag(region: nat): bool
      requires region < 4
    {
      if region == 0 then band0 else if region == 1 then band1 else if region == 2 then band2 else band3
    }
  }

  /** `SideInfo`: `main_data_begin`, the SCFSI flags of both channels and both granules. */
  datatype SideInfo = SideInfo(mainDataBegin: nat, scfsi0: Scfsi, scfsi1: Scfsi, gr0: Granule, gr1: Granule)
  {
    function ScfsiOf(ch: nat): Scfsi
      requires ch < 2
    {
      if ch == 0 then scfsi0 else scfsi1
    }

    function GranuleAt(gr: nat): Granule
      requires gr < 2
    {
      if gr == 0 then gr0 else gr1
    }
  }

  /**
   * The scale-factor band edges the decoder uses for one frame: `long`
   * (23 edges of 22 bands, in lines) and `short` (14 edges of 13 bands, in
   * lines of one window).
   */
  datatype Bands = Bands(long: seq<nat>, short: seq<nat>)

  /** Edges that start at 0, never decrease and end at `last`. */
  predicate Edges(e: seq<nat>, count: nat, last: nat)
  {
    count > 0 && |e| == count && e[0] == 0 && e[count - 1] == last && forall i, j :: 0 <= i <= j < count ==> e[i] <= e[j]
  }

  /** The shape of the band tables of ISO/IEC 11172-3 and 13818-3: long bands end at line 576, short bands at 192. */
  predicate ValidBands(b: Bands)
  {
    Edges(b.long, 23, LINES) && Edges(b.short, 14, 192)
  }

  /**
   * The constant tables: the band edges for a header (`SCALEFACTOR_BAND_*`
   * picked by version and sample rate), `SLEN_TABLE`, `PRETAB`, the
   * `linbits` of the 34 Huffman tables, and the alias-reduction
   * coefficients `CS` and `CA`.
   */
  datatype Tables = Tables(
    bandsFor: FrameHeader -> Bands, slen: seq<seq<nat>>, pretab: seq<nat>, linbits: seq<nat>,
    cs: seq<real>, ca: seq<real>)

  /** The table sizes of the standard. */
  ghost predicate ValidTables(t: Tables)
  {
    && (forall h :: ValidBands(t.bandsFor(h)))
    && |t.slen| == 2 && |t.slen[0]| == 16 && |t.slen[1]| == 16
    && |t.pretab| == 22 && |t.linbits| == 34 && |t.cs| == 8 && |t.ca| == 8
  }
}
