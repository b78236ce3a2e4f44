/**
 * `decode_scalefactors` of the Layer III decoder
 * (`src/codecs/mp3/layer3.rs`): which scale factors are read from the main
 * data, in which order and with how many bits each.
 *
 * The reads are described by a read list: `Read(w, i, n)` reads `n` bits
 * into `scalefactors[w][i]`. Each loop of the source reads a `Group`: for
 * each index `i` of a range, the windows `0..windows` in turn.
 */
module Mp3Scalefactors {
  import opened Wrappers
  import opened Ints
  import opened Mp3SideInfo
  import opened Mp3Bits

  /** One read of `width` bits into `scalefactors[window][index]`. */
  datatype Read = Read(window: nat, index: nat, width: nat)

  /** The reads of index `i` for the windows `0..windows`. */
  function Row(i: nat, windows: nat, width: nat): (row: seq<Read>)
    ensures |row| == windows
  {
    if windows == 0 then [] else Row(i, windows - 1, width) + [Read(windows - 1, i, width)]
  }

  /** `for i in lo..hi { for w in 0..windows { read width bits into [w][i] } }`. */
  function Group(lo: nat, hi: nat, windows: nat, width: nat): seq<Read>
    decreases hi
  {
    if hi <= lo then [] else Group(lo, hi - 1, windows, width) + Row(hi - 1, windows, width)
  }

  /** The number of bits a read list consumes. */
  function LayoutBits(rs: seq<Read>): nat
  {
    if rs == [] then 0 else LayoutBits(rs[..|rs| - 1]) + rs[|rs| - 1].width
  }

  /** `width` bits from position `at`, truncated to a byte (`as u8`); 0 when the bits are not there. */
  function ReadValue(bits: seq<bool>, at: nat, width: nat): u8
  {
    if at + width <= |bits| then BitsValue(bits[at..at + width]) % 256 else 0
  }

  /**
   * The last read of `[w][i]` in `rs`, if any: where it starts, in bits from
   * the start of the list, and its width.
   */
  function LastRead(rs: seq<Read>, w: nat, i: nat): Option<(nat, nat)>
  {
    if rs == [] then None
    else
      var r := rs[|rs| - 1];
      if r.window == w && r.index == i then Some((LayoutBits(rs[..|rs| - 1]), r.width))
      else LastRead(rs[..|rs| - 1], w, i)
  }

  /**
   * The value `scalefactors[w][i]` holds after the reads of `rs`, made one
   * after another from bit `pos0`, when it held `prior` before: the last read
   * into it wins.
   */
  function Decoded(rs: seq<Read>, bits: seq<bool>, pos0: nat, prior: u8, w: nat, i: nat): u8
  {
    match LastRead(rs, w, i)
    case None => prior
    case Some((at, width)) => ReadValue(bits, pos0 + at, width)
  }

  /** A read of `width` bits at bit offset `at`. */
  function ReadAt(at: nat, width: nat): Option<(nat, nat)>
  {
    Some((at, width))
  }

  /** The last read of `first + second`, given the last reads of each part and the bits of `first`. */
  function Later(first: Option<(nat, nat)>, skip: nat, second: Option<(nat, nat)>): Option<(nat, nat)>
  {
    match second
    case None => first
    case Some((at, width)) => Some((skip + at, width))
  }

  /** Short blocks read bands `0..FIRST_END` with the first width and `FIRST_END..SECOND_END` with the second. */
  const FIRST_END: nat := 6
  const SECOND_END: nat := 12
  /** Mixed blocks read long bands `0..MIXED_LONG_END`, then short bands from `MIXED_SHORT_START`. */
  const MIXED_LONG_END: nat := 8
  const MIXED_SHORT_START: nat := 3
  /** MPEG-2 long blocks read a third group, `SECOND_END..LONG_END`. */
  const LONG_END: nat := 21

  /** The `scfsi` band edges of the MPEG-1 long-block scale factors. */
  const SCFSI_BANDS: seq<nat> := [0, 6, 11, 16, 21]

  /** An MPEG-1 long-block region: not read when its SCFSI flag is set. */
  function Region(scfsi: Scfsi, region: nat, width: nat): seq<Read>
    requires region < 4
  {
    GroupIf(SCFSI_BANDS[region], SCFSI_BANDS[region + 1], 1, width, !scfsi.Flag(region))
  }

  /** The MPEG-1 read list, with the bit widths `slen0` and `slen1` from `SLEN_TABLE`. */
  function Mpeg1Layout(gc: GranuleChannel, scfsi: Scfsi, slen0: nat, slen1: nat): seq<Read>
  {
    if gc.IsShort() then
      if gc.mixedBlock then Group(0, MIXED_LONG_END, 1, slen0) + Group(MIXED_SHORT_START, FIRST_END, 3, slen0) + Group(FIRST_END, SECOND_END, 3, slen1)
      else Group(0, FIRST_END, 3, slen0) + Group(FIRST_END, SECOND_END, 3, slen1)
    else Regions(scfsi, 4, slen0, slen1)
  }

  /** The first `n` long-block regions; the first two use `slen0`, the others `slen1`. */
  function Regions(scfsi: Scfsi, n: nat, slen0: nat, slen1: nat): seq<Read>
    requires n <= 4
  {
    if n == 0 then [] else Regions(scfsi, n - 1, slen0, slen1) + Region(scfsi, n - 1, if n - 1 < 2 then slen0 else slen1)
  }

  /** The MPEG-2 bit widths packed in `scalefac_compress`. */
  function Mpeg2Slen(compress: nat): (nat, nat, nat)
  {
    (compress / 16, (compress / 4) % 4, compress % 4)
  }

  /** A group read only when its width is not 0. */
  function Unless0(lo: nat, hi: nat, windows: nat, width: nat): seq<Read>
  {
    GroupIf(lo, hi, windows, width, width > 0)
  }

  /** The MPEG-2 read list: short blocks in two groups of three windows, long blocks in three groups. */
  function Mpeg2Layout(gc: GranuleChannel): seq<Read>
  {
    var (s0, s1, s2) := Mpeg2Slen(gc.scalefacCompress);
    if gc.IsShort() then Unless0(0, FIRST_END, 3, s0) + Unless0(FIRST_END, SECOND_END, 3, s1)
    else Unless0(0, FIRST_END, 1, s0) + Unless0(FIRST_END, SECOND_END, 1, s1) + Unless0(SECOND_END, LONG_END, 1, s2)
  }

  /** `SLEN_TABLE[_][scalefac_compress]` exists. */
  predicate SlenIndexOk(slen: seq<seq<nat>>, gc: GranuleChannel)
  {
    |slen| == 2 && gc.scalefacCompress < |slen[0]| && gc.scalefacCompress < |slen[1]|
  }

  /** The read list of one granule and channel. */
  function Layout(isMpeg1: bool, gc: GranuleChannel, scfsi: Scfsi, slen: seq<seq<nat>>): seq<Read>
    requires isMpeg1 ==> SlenIndexOk(slen, gc)
  {
    if isMpeg1 then Mpeg1Layout(gc, scfsi, slen[0][gc.scalefacCompress], slen[1][gc.scalefacCompress])
    else Mpeg2Layout(gc)
  }

  /** A copy of the 3 x 22 scale-factor table. */
  function Snapshot(sf: array2<u8>): (t: seq<seq<u8>>)
    requires sf.Length0 == 3 && sf.Length1 == 22
    reads sf
    ensures |t| == 3 && forall w :: 0 <= w < 3 ==> |t[w]| == 22 && forall i :: 0 <= i < 22 ==> t[w][i] == sf[w, i]
  {
    seq(3, w requires 0 <= w < 3 reads sf => seq(22, i requires 0 <= i < 22 reads sf => sf[w, i]))
  }

  /** The table holds what `rs` leave in a table that held `start`. */
  ghost predicate Holds(sf: array2<u8>, rs: seq<Read>, bits: seq<bool>, pos0: nat, start: seq<seq<u8>>)
    requires sf.Length0 == 3 && sf.Length1 == 22
    requires |start| == 3 && forall w :: 0 <= w < 3 ==> |start[w]| == 22
    reads sf
  {
    forall w, i :: 0 <= w < 3 && 0 <= i < 22 ==> sf[w, i] == Decoded(rs, bits, pos0, start[w][i], w, i)
  }

  /** Appending one read. */
  lemma Snoc(rs: seq<Read>, r: Read, w: nat, i: nat)
    ensures LayoutBits(rs + [r]) == LayoutBits(rs) + r.width
    ensures LastRead(rs + [r], w, i)
      == if r.window == w && r.index == i then Some((LayoutBits(rs), r.width)) else LastRead(rs, w, i)
  {
    assert (rs + [r])[..|rs|] == rs;
  }

  /** The bits of a concatenation add up. */
  lemma {:induction false} LayoutBitsAppend(a: seq<Read>, b: seq<Read>)
    ensures LayoutBits(a + b) == LayoutBits(a) + LayoutBits(b)
    decreases |b|
  {
    if b == [] {
      assert a + b == a;
    } else {
      var b' := b[..|b| - 1];
      assert a + b == (a + b') + [b[|b| - 1]];
      Snoc(a + b', b[|b| - 1], 0, 0);
      LayoutBitsAppend(a, b');
    }
  }

  /** A row of `windows` reads of `width` bits. */
  lemma {:induction false} RowBits(i: nat, windows: nat, width: nat)
    ensures LayoutBits(Row(i, windows, width)) == windows * width
  {
    if windows > 0 {
      RowBits(i, windows - 1, width);
      Snoc(Row(i, windows - 1, width), Read(windows - 1, i, width), 0, 0);
      MulSucc(windows - 1, width);
    }
  }

  /** A group reads `(hi - lo) * windows` values of `width` bits. */
  lemma {:induction false} GroupBits(lo: nat, hi: nat, windows: nat, width: nat)
    requires lo <= hi
    ensures LayoutBits(Group(lo, hi, windows, width)) == (hi - lo) * (windows * width)
    decreases hi
  {
    if lo < hi {
      GroupBits(lo, hi - 1, windows, width);
      LayoutBitsAppend(Group(lo, hi - 1, windows, width), Row(hi - 1, windows, width));
      RowBits(hi - 1, windows, width);
      CountStep(lo, hi, windows * width);
    }
  }

  /** One index more in a range adds one more `u`. */
  lemma CountStep(lo: nat, hi: nat, u: nat)
    requires lo < hi
    ensures (hi - lo) * u == (hi - 1 - lo) * u + u
  {
    MulSucc(hi - 1 - lo, u);
  }

  /** `(a * b + w) * c` spread out. */
  lemma Distribute(a: nat, b: nat, w: nat, c: nat)
    ensures (a * b + w) * c == a * (b * c) + w * c
  {
    calc {
      (a * b + w) * c;
      (a * b) * c + w * c;
      a * (b * c) + w * c;
    }
  }

  /** The last read of `[w][i]` in a row: read `w`, when `i` is the row's index. */
  lemma {:induction false} RowLastRead(row: nat, windows: nat, width: nat, w: nat, i: nat)
    ensures LastRead(Row(row, windows, width), w, i)
      == if i == row && w < windows then Some((LayoutBits(Row(row, w, width)), width)) else None
  {
    if windows > 0 {
      RowLastRead(row, windows - 1, width, w, i);
      Snoc(Row(row, windows - 1, width), Read(windows - 1, row, width), w, i);
    }
  }

  /** The last read of a concatenation: in the second list if it reads `[w][i]`, shifted by the first list's bits. */
  lemma {:induction false} LastReadAppend(a: seq<Read>, b: seq<Read>, w: nat, i: nat)
    ensures LastRead(a + b, w, i) == Later(LastRead(a, w, i), LayoutBits(a), LastRead(b, w, i))
    decreases |b|
  {
    if b == [] {
      assert a + b == a;
    } else {
      var b' := b[..|b| - 1];
      var r := b[|b| - 1];
      assert a + b == (a + b') + [r];
      assert b == b' + [r];
      Snoc(a + b', r, w, i);
      Snoc(b', r, w, i);
      LayoutBitsAppend(a, b');
      LastReadAppend(a, b', w, i);
    }
  }

  /** What a concatenation leaves: the second list starts where the first stopped. */
  lemma DecodedAppend(a: seq<Read>, b: seq<Read>, bits: seq<bool>, pos0: nat, prior: u8, w: nat, i: nat)
    ensures Decoded(a + b, bits, pos0, prior, w, i)
      == Decoded(b, bits, pos0 + LayoutBits(a), Decoded(a, bits, pos0, prior, w, i), w, i)
  {
    LastReadAppend(a, b, w, i);
  }

  /** The last read of `[w][i]` in a group: the read of `[w][i]` inside the group, if it is in range. */
  lemma {:induction false} GroupLastRead(lo: nat, hi: nat, windows: nat, width: nat, w: nat, i: nat)
    requires lo <= hi
    ensures LastRead(Group(lo, hi, windows, width), w, i)
      == if lo <= i < hi && w < windows
         then ReadAt(LayoutBits(Group(lo, i, windows, width)) + LayoutBits(Row(i, w, width)), width)
         else None
    decreases hi
  {
    if lo < hi {
      LastReadAppend(Group(lo, hi - 1, windows, width), Row(hi - 1, windows, width), w, i);
      GroupLastRead(lo, hi - 1, windows, width, w, i);
      RowLastRead(hi - 1, windows, width, w, i);
    }
  }

  /**
   * The last read of `[w][i]` in a group: inside the group, the read at
   * offset `((i - lo) * windows + w) * width` from its start; none elsewhere.
   */
  lemma GroupLastReadAt(lo: nat, hi: nat, windows: nat, width: nat, w: nat, i: nat)
    requires lo <= hi
    ensures LastRead(Group(lo, hi, windows, width), w, i)
      == if lo <= i < hi && w < windows then ReadAt(Offset(i - lo, windows, w, width), width) else None
  {
    GroupLastRead(lo, hi, windows, width, w, i);
    if lo <= i < hi && w < windows {
      GroupBits(lo, i, windows, width);
      RowBits(i, w, width);
      Distribute(i - lo, windows, w, width);
    }
  }

  /** After a whole group, an entry holds its read if the group has one, and its prior value otherwise. */
  lemma GroupDecodedAt(lo: nat, hi: nat, windows: nat, width: nat, bits: seq<bool>, pos0: nat, prior: u8, w: nat, i: nat)
    requires lo <= hi
    ensures Decoded(Group(lo, hi, windows, width), bits, pos0, prior, w, i)
      == if Before(lo, hi, 0, windows, w, i) then ReadValue(bits, pos0 + Offset(i - lo, windows, w, width), width) else prior
  {
    GroupLastReadAt(lo, hi, windows, width, w, i);
  }

  /** The bit offset of read `w` of the `k`-th index of a group. */
  function Offset(k: nat, windows: nat, w: nat, width: nat): nat
  {
    (k * windows + w) * width
  }

  /** Read `w + 1` starts `width` bits after read `w`. */
  lemma OffsetStep(k: nat, windows: nat, w: nat, width: nat)
    ensures Offset(k, windows, w + 1, width) == Offset(k, windows, w, width) + width
  {
    MulSucc(k * windows + w, width);
  }

  /** The index after `k` starts where the last window of `k` ends. */
  lemma OffsetNext(k: nat, windows: nat, width: nat)
    ensures Offset(k, windows, windows, width) == Offset(k + 1, windows, 0, width)
  {
    MulSucc(k, windows);
  }

  /** Every read of a group ends inside the group's bits. */
  lemma OffsetBound(k: nat, n: nat, windows: nat, w: nat, width: nat)
    requires k < n && w < windows
    ensures Offset(k, windows, w, width) + width <= n * (windows * width)
  {
    OffsetStep(k, windows, w, width);
    assert Offset(k, windows, w + 1, width) <= Offset(k, windows, windows, width) by {
      assert (k * windows + w + 1) * width <= (k * windows + windows) * width by {
        MulMono(k * windows + w + 1, k * windows + windows, width);
      }
    }
    OffsetNext(k, windows, width);
    MulMono(k + 1, n, windows);
    MulMono((k + 1) * windows, n * windows, width);
    Distribute(n, windows, 0, width);
  }

  /** Multiplication by a natural number keeps order. */
  lemma MulMono(a: nat, b: nat, c: nat)
    requires a <= b
    ensures a * c <= b * c
  {
  }

  /** The reads of the group made once `w` reads of index `i` are done, from index `lo` on. */
  predicate Before(lo: nat, i: nat, w: nat, windows: nat, w': nat, i': nat)
  {
    (lo <= i' < i && w' < windows) || (i' == i && w' < w)
  }

  /**
   * One loop of the source: for each index of `lo..hi`, the windows
   * `0..windows` in turn, `width` bits each. It fails exactly when the
   * group's bits run past the end; otherwise each value read is in place
   * and the rest of the table is untouched.
   */
  method ReadGroup(reader: BitReader, sf: array2<u8>, lo: nat, hi: nat, windows: nat, width: nat)
    returns (ok: bool)
    requires sf.Length0 == 3 && sf.Length1 == 22 && lo <= hi <= 22 && windows <= 3 && reader.Valid()
    modifies reader, sf
    ensures reader.Valid()
    ensures ok <==> old(reader.pos) + LayoutBits(Group(lo, hi, windows, width)) <= |reader.bits|
    ensures ok ==> reader.pos == old(reader.pos) + LayoutBits(Group(lo, hi, windows, width))
    ensures ok ==> forall w, i :: 0 <= w < 3 && 0 <= i < 22 ==>
      sf[w, i] == Decoded(Group(lo, hi, windows, width), reader.bits, old(reader.pos), old(sf[w, i]), w, i)
  {
    ghost var p0 := reader.pos;
    ghost var start := Snapshot(sf);
    GroupBits(lo, hi, windows, width);
    for i := lo to hi
      invariant reader.Valid()
      invariant reader.pos == p0 + Offset(i - lo, windows, 0, width)
      invariant forall w', i' :: 0 <= w' < 3 && 0 <= i' < 22 ==>
        sf[w', i'] == if Before(lo, i, 0, windows, w', i') then ReadValue(reader.bits, p0 + Offset(i' - lo, windows, w', width), width) else start[w'][i']
    {
      var rowOk := ReadRow(reader, sf, lo, i, hi, windows, width, p0, start);
      if !rowOk { return false; }
      OffsetNext(i - lo, windows, width);
    }
    Distribute(hi - lo, windows, 0, width);
    forall w, i | 0 <= w < 3 && 0 <= i < 22
      ensures sf[w, i] == Decoded(Group(lo, hi, windows, width), reader.bits, p0, start[w][i], w, i)
    {
      GroupDecodedAt(lo, hi, windows, width, reader.bits, p0, start[w][i], w, i);
    }
    ok := true;
  }

  /** The reads of index `i`, windows `0..windows`, in the terms of `ReadGroup`'s loop. */
  method ReadRow(reader: BitReader, sf: array2<u8>, lo: nat, i: nat, hi: nat, windows: nat, width: nat,
                 ghost p0: nat, ghost start: seq<seq<u8>>) returns (ok: bool)
    requires sf.Length0 == 3 && sf.Length1 == 22 && lo <= i < hi <= 22 && windows <= 3 && reader.Valid()
    requires |start| == 3 && forall w :: 0 <= w < 3 ==> |start[w]| == 22
    requires reader.pos == p0 + Offset(i - lo, windows, 0, width)
    requires forall w', i' :: 0 <= w' < 3 && 0 <= i' < 22 ==>
      sf[w', i'] == if Before(lo, i, 0, windows, w', i') then ReadValue(reader.bits, p0 + Offset(i' - lo, windows, w', width), width) else start[w'][i']
    modifies reader, sf
    ensures reader.Valid()
    ensures !ok ==> p0 + (hi - lo) * (windows * width) > |reader.bits|
    ensures ok ==> reader.pos == p0 + Offset(i - lo, windows, windows, width)
    ensures ok ==> forall w', i' :: 0 <= w' < 3 && 0 <= i' < 22 ==>
      sf[w', i'] == if Before(lo, i, windows, windows, w', i') then ReadValue(reader.bits, p0 + Offset(i' - lo, windows, w', width), width) else start[w'][i']
  {
    for w := 0 to windows
      invariant reader.Valid()
      invariant reader.pos == p0 + Offset(i - lo, windows, w, width)
      invariant forall w', i' :: 0 <= w' < 3 && 0 <= i' < 22 ==>
        sf[w', i'] == if Before(lo, i, w, windows, w', i') then ReadValue(reader.bits, p0 + Offset(i' - lo, windows, w', width), width) else start[w'][i']
    {
      var v := reader.ReadBits(width);
      if v.None? {
        OffsetBound(i - lo, hi - lo, windows, w, width);
        return false;
      }
      Store(sf, w, i, v.value % 256, reader.bits, p0 + Offset(i - lo, windows, w, width), lo, windows, width, p0, start);
      OffsetStep(i - lo, windows, w, width);
    }
    ok := true;
  }

  /** The store of read `w` of index `i`, in the terms of `ReadGroup`'s invariant. */
  method Store(sf: array2<u8>, w: nat, i: nat, value: u8, ghost bits: seq<bool>, ghost at: nat,
               ghost lo: nat, ghost windows: nat, ghost width: nat, ghost p0: nat, ghost start: seq<seq<u8>>)
    requires sf.Length0 == 3 && sf.Length1 == 22 && lo <= i < 22 && w < windows <= 3
    requires |start| == 3 && forall w :: 0 <= w < 3 ==> |start[w]| == 22
    requires at == p0 + Offset(i - lo, windows, w, width) && value == ReadValue(bits, at, width)
    requires forall w', i' :: 0 <= w' < 3 && 0 <= i' < 22 ==>
      sf[w', i'] == if Before(lo, i, w, windows, w', i') then ReadValue(bits, p0 + Offset(i' - lo, windows, w', width), width) else start[w'][i']
    modifies sf
    ensures forall w', i' :: 0 <= w' < 3 && 0 <= i' < 22 ==>
      sf[w', i'] == if Before(lo, i, w + 1, windows, w', i') then ReadValue(bits, p0 + Offset(i' - lo, windows, w', width), width) else start[w'][i']
  {
    ghost var before := Snapshot(sf);
    sf[w, i] := value;
    forall w', i' | 0 <= w' < 3 && 0 <= i' < 22
      ensures sf[w', i'] == if Before(lo, i, w + 1, windows, w', i') then ReadValue(bits, p0 + Offset(i' - lo, windows, w', width), width) else start[w'][i']
    {
      if w' != w || i' != i {
        assert sf[w', i'] == before[w'][i'];
      }
    }
  }

  /** A group, or nothing when `read` is false (a region the SCFSI flags share, or a width of 0). */
  function GroupIf(lo: nat, hi: nat, windows: nat, width: nat, read: bool): seq<Read>
  {
    if read then Group(lo, hi, windows, width) else []
  }

  /** `ReadGroup` when `read`, as the next part of a read list `done` already made from `pos0`. */
  method ReadPart(reader: BitReader, sf: array2<u8>, lo: nat, hi: nat, windows: nat, width: nat, read: bool,
                  ghost done: seq<Read>, ghost pos0: nat, ghost start: seq<seq<u8>>) returns (ok: bool)
    requires sf.Length0 == 3 && sf.Length1 == 22 && lo <= hi <= 22 && windows <= 3
    requires |start| == 3 && forall w :: 0 <= w < 3 ==> |start[w]| == 22
    requires reader.Valid() && reader.pos == pos0 + LayoutBits(done) && Holds(sf, done, reader.bits, pos0, start)
    modifies reader, sf
    ensures reader.Valid()
    ensures ok <==> pos0 + LayoutBits(done + GroupIf(lo, hi, windows, width, read)) <= |reader.bits|
    ensures ok ==> reader.pos == pos0 + LayoutBits(done + GroupIf(lo, hi, windows, width, read))
    ensures ok ==> Holds(sf, done + GroupIf(lo, hi, windows, width, read), reader.bits, pos0, start)
  {
    ghost var part := GroupIf(lo, hi, windows, width, read);
    ghost var mid := Snapshot(sf);
    LayoutBitsAppend(done, part);
    if read {
      ok := ReadGroup(reader, sf, lo, hi, windows, width);
      if !ok { return; }
    } else {
      ok := true;
    }
    forall w, i | 0 <= w < 3 && 0 <= i < 22
      ensures sf[w, i] == Decoded(done + part, reader.bits, pos0, start[w][i], w, i)
    {
      DecodedAppend(done, part, reader.bits, pos0, start[w][i], w, i);
      assert mid[w][i] == Decoded(done, reader.bits, pos0, start[w][i], w, i);
    }
  }

  /** The first `n` regions consume no more bits than all four. */
  lemma {:induction false} RegionsBits(scfsi: Scfsi, n: nat, slen0: nat, slen1: nat)
    requires n <= 4
    ensures LayoutBits(Regions(scfsi, n, slen0, slen1)) <= LayoutBits(Regions(scfsi, 4, slen0, slen1))
    decreases 4 - n
  {
    if n < 4 {
      RegionsBits(scfsi, n + 1, slen0, slen1);
      LayoutBitsAppend(Regions(scfsi, n, slen0, slen1), Region(scfsi, n, if n < 2 then slen0 else slen1));
    }
  }

  /** When a prefix of a list runs past the end, so does the list. */
  lemma PrefixFails(a: seq<Read>, b: seq<Read>, pos0: nat, limit: nat)
    requires pos0 + LayoutBits(a) > limit
    ensures pos0 + LayoutBits(a + b) > limit
  {
    LayoutBitsAppend(a, b);
  }

  /**
   * `decode_scalefactors`: the reads of `Layout` one after another. Decoding
   * fails exactly when the main data runs out first; then nothing is promised
   * about the table, which the caller discards.
   */
  method DecodeScalefactors(reader: BitReader, isMpeg1: bool, gc: GranuleChannel, scfsi: Scfsi,
                            slen: seq<seq<nat>>, sf: array2<u8>) returns (ok: bool)
    requires isMpeg1 ==> SlenIndexOk(slen, gc)
    requires sf.Length0 == 3 && sf.Length1 == 22 && reader.Valid()
    modifies reader, sf
    ensures reader.Valid()
    ensures ok <==> old(reader.pos) + LayoutBits(Layout(isMpeg1, gc, scfsi, slen)) <= |reader.bits|
    ensures ok ==> reader.pos == old(reader.pos) + LayoutBits(Layout(isMpeg1, gc, scfsi, slen))
    ensures ok ==> forall w, i :: 0 <= w < 3 && 0 <= i < 22 ==>
      sf[w, i] == Decoded(Layout(isMpeg1, gc, scfsi, slen), reader.bits, old(reader.pos), old(sf[w, i]), w, i)
  {
    ghost var pos0 := reader.pos;
    ghost var start := Snapshot(sf);
    if isMpeg1 {
      var slen0 := slen[0][gc.scalefacCompress];
      var slen1 := slen[1][gc.scalefacCompress];
      if gc.windowSwitching && gc.blockType == 2 {
        if gc.mixedBlock {
          ok := Mpeg1Mixed(reader, sf, slen0, slen1, pos0, start);
        } else {
          ok := Mpeg1Short(reader, sf, slen0, slen1, pos0, start);
        }
      } else {
        ok := Mpeg1Long(reader, sf, scfsi, slen0, slen1, pos0, start);
      }
    } else {
      var (s0, s1, s2) := Mpeg2Slen(gc.scalefacCompress);
      if gc.windowSwitching && gc.blockType == 2 {
        ok := Mpeg2Short(reader, sf, s0, s1, pos0, start);
      } else {
        ok := Mpeg2Long(reader, sf, s0, s1, s2, pos0, start);
      }
    }
  }

  /** Reads after no reads. */
  lemma NoPrefix(rs: seq<Read>)
    ensures [] + rs == rs
  {
  }

  /** The bits of three lists in a row add up. */
  lemma Bits3(a: seq<Read>, b: seq<Read>, c: seq<Read>)
    ensures LayoutBits(a + b + c) == LayoutBits(a) + LayoutBits(b) + LayoutBits(c)
  {
    LayoutBitsAppend(a + b, c);
    LayoutBitsAppend(a, b);
  }

  /** The MPEG-1 short blocks: windows 0..3 of bands 0..6, then of bands 6..12. */
  method Mpeg1Short(reader: BitReader, sf: array2<u8>, slen0: nat, slen1: nat,
                    ghost pos0: nat, ghost start: seq<seq<u8>>) returns (ok: bool)
    requires sf.Length0 == 3 && sf.Length1 == 22 && start == Snapshot(sf) && reader.pos == pos0 && reader.Valid()
    modifies reader, sf
    ensures reader.Valid()
    ensures ok <==> pos0 + LayoutBits(Group(0, FIRST_END, 3, slen0) + Group(FIRST_END, SECOND_END, 3, slen1)) <= |reader.bits|
    ensures ok ==> reader.pos == pos0 + LayoutBits(Group(0, FIRST_END, 3, slen0) + Group(FIRST_END, SECOND_END, 3, slen1))
    ensures ok ==> Holds(sf, Group(0, FIRST_END, 3, slen0) + Group(FIRST_END, SECOND_END, 3, slen1), reader.bits, pos0, start)
  {
    ghost var g0, g1 := Group(0, FIRST_END, 3, slen0), Group(FIRST_END, SECOND_END, 3, slen1);
    LayoutBitsAppend(g0, g1);
    NoPrefix(g0);
    ok := ReadPart(reader, sf, 0, FIRST_END, 3, slen0, true, [], pos0, start);
    if !ok { return; }
    ok := ReadPart(reader, sf, FIRST_END, SECOND_END, 3, slen1, true, g0, pos0, start);
  }

  /** The MPEG-1 mixed blocks: long bands 0..8, then short bands 3..6 and 6..12 (bands 3..6 overlap the long ones). */
  method Mpeg1Mixed(reader: BitReader, sf: array2<u8>, slen0: nat, slen1: nat,
                    ghost pos0: nat, ghost start: seq<seq<u8>>) returns (ok: bool)
    requires sf.Length0 == 3 && sf.Length1 == 22 && start == Snapshot(sf) && reader.pos == pos0 && reader.Valid()
    modifies reader, sf
    ensures reader.Valid()
    ensures ok <==> pos0 + LayoutBits(Group(0, MIXED_LONG_END, 1, slen0) + Group(MIXED_SHORT_START, FIRST_END, 3, slen0) + Group(FIRST_END, SECOND_END, 3, slen1)) <= |reader.bits|
    ensures ok ==> reader.pos == pos0 + LayoutBits(Group(0, MIXED_LONG_END, 1, slen0) + Group(MIXED_SHORT_START, FIRST_END, 3, slen0) + Group(FIRST_END, SECOND_END, 3, slen1))
    ensures ok ==> Holds(sf, Group(0, MIXED_LONG_END, 1, slen0) + Group(MIXED_SHORT_START, FIRST_END, 3, slen0) + Group(FIRST_END, SECOND_END, 3, slen1), reader.bits, pos0, start)
  {
    ghost var g0, g1, g2 := Group(0, MIXED_LONG_END, 1, slen0), Group(MIXED_SHORT_START, FIRST_END, 3, slen0), Group(FIRST_END, SECOND_END, 3, slen1);
    Bits3(g0, g1, g2);
    LayoutBitsAppend(g0, g1);
    NoPrefix(g0);
    ok := ReadPart(reader, sf, 0, MIXED_LONG_END, 1, slen0, true, [], pos0, start);
    if !ok { return; }
    ok := ReadPart(reader, sf, MIXED_SHORT_START, FIRST_END, 3, slen0, true, g0, pos0, start);
    if !ok { return; }
    ok := ReadPart(reader, sf, FIRST_END, SECOND_END, 3, slen1, true, g0 + g1, pos0, start);
  }

  /** The MPEG-1 long blocks: the four regions, each skipped when its SCFSI flag is set. */
  method Mpeg1Long(reader: BitReader, sf: array2<u8>, scfsi: Scfsi, slen0: nat, slen1: nat,
                   ghost pos0: nat, ghost start: seq<seq<u8>>) returns (ok: bool)
    requires sf.Length0 == 3 && sf.Length1 == 22 && start == Snapshot(sf) && reader.pos == pos0 && reader.Valid()
    modifies reader, sf
    ensures reader.Valid()
    ensures ok <==> pos0 + LayoutBits(Regions(scfsi, 4, slen0, slen1)) <= |reader.bits|
    ensures ok ==> reader.pos == pos0 + LayoutBits(Regions(scfsi, 4, slen0, slen1))
    ensures ok ==> Holds(sf, Regions(scfsi, 4, slen0, slen1), reader.bits, pos0, start)
  {
    ok := true;
    for region := 0 to 4
      invariant reader.pos == pos0 + LayoutBits(Regions(scfsi, region, slen0, slen1))
      invariant Holds(sf, Regions(scfsi, region, slen0, slen1), reader.bits, pos0, start)
      invariant reader.Valid()
    {
      var width := if region < 2 then slen0 else slen1;
      ok := ReadPart(reader, sf, SCFSI_BANDS[region], SCFSI_BANDS[region + 1], 1, width, !scfsi.Flag(region),
                     Regions(scfsi, region, slen0, slen1), pos0, start);
      if !ok {
        RegionsBits(scfsi, region + 1, slen0, slen1);
        return;
      }
    }
  }

  /** The MPEG-2 short blocks: two groups of three windows, each skipped when its width is 0. */
  method Mpeg2Short(reader: BitReader, sf: array2<u8>, s0: nat, s1: nat,
                    ghost pos0: nat, ghost start: seq<seq<u8>>) returns (ok: bool)
    requires sf.Length0 == 3 && sf.Length1 == 22 && start == Snapshot(sf) && reader.pos == pos0 && reader.Valid()
    modifies reader, sf
    ensures reader.Valid()
    ensures ok <==> pos0 + LayoutBits(Unless0(0, FIRST_END, 3, s0) + Unless0(FIRST_END, SECOND_END, 3, s1)) <= |reader.bits|
    ensures ok ==> reader.pos == pos0 + LayoutBits(Unless0(0, FIRST_END, 3, s0) + Unless0(FIRST_END, SECOND_END, 3, s1))
    ensures ok ==> Holds(sf, Unless0(0, FIRST_END, 3, s0) + Unless0(FIRST_END, SECOND_END, 3, s1), reader.bits, pos0, start)
  {
    ghost var g0, g1 := Unless0(0, FIRST_END, 3, s0), Unless0(FIRST_END, SECOND_END, 3, s1);
    LayoutBitsAppend(g0, g1);
    NoPrefix(g0);
    ok := ReadPart(reader, sf, 0, FIRST_END, 3, s0, s0 > 0, [], pos0, start);
    if !ok { return; }
    ok := ReadPart(reader, sf, FIRST_END, SECOND_END, 3, s1, s1 > 0, g0, pos0, start);
  }

  /** The MPEG-2 long blocks: bands 0..6, 6..12 and 12..21, each skipped when its width is 0. */
  method Mpeg2Long(reader: BitReader, sf: array2<u8>, s0: nat, s1: nat, s2: nat,
                   ghost pos0: nat, ghost start: seq<seq<u8>>) returns (ok: bool)
    requires sf.Length0 == 3 && sf.Length1 == 22 && start == Snapshot(sf) && reader.pos == pos0 && reader.Valid()
    modifies reader, sf
    ensures reader.Valid()
    ensures ok <==> pos0 + LayoutBits(Unless0(0, FIRST_END, 1, s0) + Unless0(FIRST_END, SECOND_END, 1, s1) + Unless0(SECOND_END, LONG_END, 1, s2)) <= |reader.bits|
    ensures ok ==> reader.pos == pos0 + LayoutBits(Unless0(0, FIRST_END, 1, s0) + Unless0(FIRST_END, SECOND_END, 1, s1) + Unless0(SECOND_END, LONG_END, 1, s2))
    ensures ok ==> Holds(sf, Unless0(0, FIRST_END, 1, s0) + Unless0(FIRST_END, SECOND_END, 1, s1) + Unless0(SECOND_END, LONG_END, 1, s2), reader.bits, pos0, start)
  {
    ghost var g0, g1, g2 := Unless0(0, FIRST_END, 1, s0), Unless0(FIRST_END, SECOND_END, 1, s1), Unless0(SECOND_END, LONG_END, 1, s2);
    Bits3(g0, g1, g2);
    LayoutBitsAppend(g0, g1);
    NoPrefix(g0);
    ok := ReadPart(reader, sf, 0, FIRST_END, 1, s0, s0 > 0, [], pos0, start);
    if !ok { return; }
    ok := ReadPart(reader, sf, FIRST_END, SECOND_END, 1, s1, s1 > 0, g0, pos0, start);
    if !ok { return; }
    ok := ReadPart(reader, sf, SECOND_END, LONG_END, 1, s2, s2 > 0, g0 + g1, pos0, start);
  }

  /** Two groups in a row: the bits of each, added. */
  lemma Group2Bits(lo0: nat, hi0: nat, lo1: nat, hi1: nat, windows: nat, s0: nat, s1: nat)
    requires lo0 <= hi0 && lo1 <= hi1
    ensures LayoutBits(Group(lo0, hi0, windows, s0) + Group(lo1, hi1, windows, s1))
      == (hi0 - lo0) * (windows * s0) + (hi1 - lo1) * (windows * s1)
  {
    LayoutBitsAppend(Group(lo0, hi0, windows, s0), Group(lo1, hi1, windows, s1));
    GroupBits(lo0, hi0, windows, s0);
    GroupBits(lo1, hi1, windows, s1);
  }

  /** Three groups in a row: the bits of each, added. */
  lemma Group3Bits(lo0: nat, hi0: nat, w0: nat, s0: nat, lo1: nat, hi1: nat, w1: nat, s1: nat,
                   lo2: nat, hi2: nat, w2: nat, s2: nat)
    requires lo0 <= hi0 && lo1 <= hi1 && lo2 <= hi2
    ensures LayoutBits(Group(lo0, hi0, w0, s0) + Group(lo1, hi1, w1, s1) + Group(lo2, hi2, w2, s2))
      == (hi0 - lo0) * (w0 * s0) + (hi1 - lo1) * (w1 * s1) + (hi2 - lo2) * (w2 * s2)
  {
    Bits3(Group(lo0, hi0, w0, s0), Group(lo1, hi1, w1, s1), Group(lo2, hi2, w2, s2));
    GroupBits(lo0, hi0, w0, s0);
    GroupBits(lo1, hi1, w1, s1);
    GroupBits(lo2, hi2, w2, s2);
  }

  /**
   * The bits an MPEG-1 granule channel's scale factors take: 6 bands of
   * 3 windows at each width for short blocks; for mixed blocks 8 long bands
   * then 3 and 6 short bands; for long blocks each region not shared
   * through SCFSI.
   */
  lemma Mpeg1Bits(gc: GranuleChannel, scfsi: Scfsi, s0: nat, s1: nat)
    ensures gc.IsShort() && gc.mixedBlock ==>
      LayoutBits(Mpeg1Layout(gc, scfsi, s0, s1)) == 8 * (1 * s0) + 3 * (3 * s0) + 6 * (3 * s1)
    ensures gc.IsShort() && !gc.mixedBlock ==>
      LayoutBits(Mpeg1Layout(gc, scfsi, s0, s1)) == 6 * (3 * s0) + 6 * (3 * s1)
    ensures !gc.IsShort() ==>
      LayoutBits(Mpeg1Layout(gc, scfsi, s0, s1))
        == (if scfsi.band0 then 0 else 6 * s0) + (if scfsi.band1 then 0 else 5 * s0)
         + (if scfsi.band2 then 0 else 5 * s1) + (if scfsi.band3 then 0 else 5 * s1)
  {
    if gc.IsShort() {
      if gc.mixedBlock {
        MixedBits(s0, s1);
      } else {
        ShortBits(s0, s1);
      }
    } else {
      LongBits(scfsi, s0, s1);
    }
  }

  /** The MPEG-1 mixed-block list. */
  lemma MixedBits(s0: nat, s1: nat)
    ensures LayoutBits(Group(0, MIXED_LONG_END, 1, s0) + Group(MIXED_SHORT_START, FIRST_END, 3, s0) + Group(FIRST_END, SECOND_END, 3, s1)) == 8 * (1 * s0) + 3 * (3 * s0) + 6 * (3 * s1)
  {
    Group3Bits(0, 8, 1, s0, 3, 6, 3, s0, 6, 12, 3, s1);
  }

  /** The MPEG-1 short-block list. */
  lemma ShortBits(s0: nat, s1: nat)
    ensures LayoutBits(Group(0, FIRST_END, 3, s0) + Group(FIRST_END, SECOND_END, 3, s1)) == 6 * (3 * s0) + 6 * (3 * s1)
  {
    Group2Bits(0, 6, 6, 12, 3, s0, s1);
  }

  /** The long-block regions, each its bands times its width unless shared. */
  lemma LongBits(scfsi: Scfsi, s0: nat, s1: nat)
    ensures LayoutBits(Regions(scfsi, 4, s0, s1))
      == (if scfsi.band0 then 0 else 6 * s0) + (if scfsi.band1 then 0 else 5 * s0)
       + (if scfsi.band2 then 0 else 5 * s1) + (if scfsi.band3 then 0 else 5 * s1)
  {
    RegionsStep(scfsi, 0, s0, s1);
    RegionsStep(scfsi, 1, s0, s1);
    RegionsStep(scfsi, 2, s0, s1);
    RegionsStep(scfsi, 3, s0, s1);
  }

  /** One more region adds its bits. */
  lemma RegionsStep(scfsi: Scfsi, n: nat, s0: nat, s1: nat)
    requires n < 4
    ensures LayoutBits(Regions(scfsi, n + 1, s0, s1))
      == LayoutBits(Regions(scfsi, n, s0, s1))
       + if scfsi.Flag(n) then 0 else if n == 0 then 6 * s0 else if n == 1 then 5 * s0 else 5 * s1
  {
    LayoutBitsAppend(Regions(scfsi, n, s0, s1), Region(scfsi, n, if n < 2 then s0 else s1));
    RegionBits(scfsi, n, if n < 2 then s0 else s1);
  }

  /** A long-block region: 6 bands for the first, 5 for the others, or nothing when shared. */
  lemma RegionBits(scfsi: Scfsi, region: nat, width: nat)
    requires region < 4
    ensures LayoutBits(Region(scfsi, region, width))
      == if scfsi.Flag(region) then 0 else if region == 0 then 6 * width else 5 * width
  {
    GroupBits(SCFSI_BANDS[region], SCFSI_BANDS[region + 1], 1, width);
    assert SCFSI_BANDS[region + 1] - SCFSI_BANDS[region] == if region == 0 then 6 else 5;
  }

  /**
   * The bits an MPEG-2 granule channel's scale factors take, from the three
   * widths packed in `scalefac_compress` (a width of 0 reads nothing).
   */
  lemma Mpeg2Bits(gc: GranuleChannel)
    ensures var (s0, s1, s2) := Mpeg2Slen(gc.scalefacCompress);
      LayoutBits(Mpeg2Layout(gc))
        == if gc.IsShort() then 6 * (3 * s0) + 6 * (3 * s1) else 6 * (1 * s0) + 6 * (1 * s1) + 9 * (1 * s2)
  {
    var (s0, s1, s2) := Mpeg2Slen(gc.scalefacCompress);
    if gc.IsShort() {
      Mpeg2ShortBits(s0, s1);
    } else {
      Mpeg2LongBits(s0, s1, s2);
    }
  }

  /** The MPEG-2 short-block list; a group of width 0 reads nothing, which is also 0 bits. */
  lemma Mpeg2ShortBits(s0: nat, s1: nat)
    ensures LayoutBits(Unless0(0, FIRST_END, 3, s0) + Unless0(FIRST_END, SECOND_END, 3, s1)) == 6 * (3 * s0) + 6 * (3 * s1)
  {
    Unless0Bits2(0, 6, 6, 12, 3, s0, s1);
  }

  /** The MPEG-2 long-block list. */
  lemma Mpeg2LongBits(s0: nat, s1: nat, s2: nat)
    ensures LayoutBits(Unless0(0, FIRST_END, 1, s0) + Unless0(FIRST_END, SECOND_END, 1, s1) + Unless0(SECOND_END, LONG_END, 1, s2))
      == 6 * (1 * s0) + 6 * (1 * s1) + 9 * (1 * s2)
  {
    Unless0Bits3(0, 6, 6, 12, 12, 21, s0, s1, s2);
  }

  /** A group of width 0 reads nothing, which is also what its size says. */
  lemma Unless0Bits(lo: nat, hi: nat, windows: nat, width: nat)
    requires lo <= hi
    ensures LayoutBits(Unless0(lo, hi, windows, width)) == (hi - lo) * (windows * width)
  {
    GroupBits(lo, hi, windows, width);
  }

  lemma Unless0Bits2(lo0: nat, hi0: nat, lo1: nat, hi1: nat, windows: nat, s0: nat, s1: nat)
    requires lo0 <= hi0 && lo1 <= hi1
    ensures LayoutBits(Unless0(lo0, hi0, windows, s0) + Unless0(lo1, hi1, windows, s1))
      == (hi0 - lo0) * (windows * s0) + (hi1 - lo1) * (windows * s1)
  {
    LayoutBitsAppend(Unless0(lo0, hi0, windows, s0), Unless0(lo1, hi1, windows, s1));
    Unless0Bits(lo0, hi0, windows, s0);
    Unless0Bits(lo1, hi1, windows, s1);
  }

  lemma Unless0Bits3(lo0: nat, hi0: nat, lo1: nat, hi1: nat, lo2: nat, hi2: nat, s0: nat, s1: nat, s2: nat)
    requires lo0 <= hi0 && lo1 <= hi1 && lo2 <= hi2
    ensures LayoutBits(Unless0(lo0, hi0, 1, s0) + Unless0(lo1, hi1, 1, s1) + Unless0(lo2, hi2, 1, s2))
      == (hi0 - lo0) * (1 * s0) + (hi1 - lo1) * (1 * s1) + (hi2 - lo2) * (1 * s2)
  {
    Bits3(Unless0(lo0, hi0, 1, s0), Unless0(lo1, hi1, 1, s1), Unless0(lo2, hi2, 1, s2));
    Unless0Bits(lo0, hi0, 1, s0);
    Unless0Bits(lo1, hi1, 1, s1);
    Unless0Bits(lo2, hi2, 1, s2);
  }

  /** The last read of `[w][i]` in a group read only when `read`. */
  lemma GroupIfLastRead(lo: nat, hi: nat, windows: nat, width: nat, read: bool, w: nat, i: nat)
    requires lo <= hi
    ensures LastRead(GroupIf(lo, hi, windows, width, read), w, i)
      == if read && lo <= i < hi && w < windows then ReadAt(Offset(i - lo, windows, w, width), width) else None
  {
    if read {
      GroupLastReadAt(lo, hi, windows, width, w, i);
    }
  }

  /** The last read of `[w][i]` in two groups in a row: the read of the later group that covers it wins. */
  lemma TwoGroupsLastRead(lo0: nat, hi0: nat, n0: nat, s0: nat, r0: bool,
                          lo1: nat, hi1: nat, n1: nat, s1: nat, r1: bool, w: nat, i: nat)
    requires lo0 <= hi0 && lo1 <= hi1
    ensures LastRead(GroupIf(lo0, hi0, n0, s0, r0) + GroupIf(lo1, hi1, n1, s1, r1), w, i)
      == if r1 && lo1 <= i < hi1 && w < n1 then ReadAt(LayoutBits(GroupIf(lo0, hi0, n0, s0, r0)) + Offset(i - lo1, n1, w, s1), s1)
         else if r0 && lo0 <= i < hi0 && w < n0 then ReadAt(Offset(i - lo0, n0, w, s0), s0)
         else None
  {
    LastReadAppend(GroupIf(lo0, hi0, n0, s0, r0), GroupIf(lo1, hi1, n1, s1, r1), w, i);
    GroupIfLastRead(lo0, hi0, n0, s0, r0, w, i);
    GroupIfLastRead(lo1, hi1, n1, s1, r1, w, i);
  }

  /** The last read of `[w][i]` in three groups in a row: the read of the last group that covers it wins. */
  lemma ThreeGroupsLastRead(lo0: nat, hi0: nat, n0: nat, s0: nat, r0: bool,
                            lo1: nat, hi1: nat, n1: nat, s1: nat, r1: bool,
                            lo2: nat, hi2: nat, n2: nat, s2: nat, r2: bool, w: nat, i: nat)
    requires lo0 <= hi0 && lo1 <= hi1 && lo2 <= hi2
    ensures LastRead(GroupIf(lo0, hi0, n0, s0, r0) + GroupIf(lo1, hi1, n1, s1, r1) + GroupIf(lo2, hi2, n2, s2, r2), w, i)
      == if r2 && lo2 <= i < hi2 && w < n2 then
           ReadAt(LayoutBits(GroupIf(lo0, hi0, n0, s0, r0)) + LayoutBits(GroupIf(lo1, hi1, n1, s1, r1)) + Offset(i - lo2, n2, w, s2), s2)
         else if r1 && lo1 <= i < hi1 && w < n1 then ReadAt(LayoutBits(GroupIf(lo0, hi0, n0, s0, r0)) + Offset(i - lo1, n1, w, s1), s1)
         else if r0 && lo0 <= i < hi0 && w < n0 then ReadAt(Offset(i - lo0, n0, w, s0), s0)
         else None
  {
    var g0, g1, g2 := GroupIf(lo0, hi0, n0, s0, r0), GroupIf(lo1, hi1, n1, s1, r1), GroupIf(lo2, hi2, n2, s2, r2);
    LastReadAppend(g0 + g1, g2, w, i);
    LayoutBitsAppend(g0, g1);
    TwoGroupsLastRead(lo0, hi0, n0, s0, r0, lo1, hi1, n1, s1, r1, w, i);
    GroupIfLastRead(lo2, hi2, n2, s2, r2, w, i);
  }

  /** The long-block region band `i` belongs to. */
  function RegionOf(i: nat): (region: nat)
    requires i < 21
    ensures region < 4 && SCFSI_BANDS[region] <= i < SCFSI_BANDS[region + 1]
  {
    if i < 6 then 0 else if i < 11 then 1 else if i < 16 then 2 else 3
  }

  /**
   * The first `n` long-block regions read window 0 of each band below
   * `SCFSI_BANDS[n]` whose region's SCFSI flag is clear, with `slen0` for
   * the first two regions and `slen1` for the others; nothing else.
   */
  lemma {:induction false} RegionsReads(scfsi: Scfsi, n: nat, s0: nat, s1: nat, w: nat, i: nat)
    requires n <= 4
    ensures LastRead(Regions(scfsi, n, s0, s1), w, i).Some?
      <==> w == 0 && i < SCFSI_BANDS[n] && !scfsi.Flag(RegionOf(i))
    ensures LastRead(Regions(scfsi, n, s0, s1), w, i).Some? ==>
      LastRead(Regions(scfsi, n, s0, s1), w, i).value.1 == if RegionOf(i) < 2 then s0 else s1
  {
    if n > 0 {
      var region := n - 1;
      var width := if region < 2 then s0 else s1;
      RegionsReads(scfsi, region, s0, s1, w, i);
      LastReadAppend(Regions(scfsi, region, s0, s1), Region(scfsi, region, width), w, i);
      GroupIfLastRead(SCFSI_BANDS[region], SCFSI_BANDS[region + 1], 1, width, !scfsi.Flag(region), w, i);
      if i < 21 && RegionOf(i) == region {
        assert SCFSI_BANDS[region] <= i < SCFSI_BANDS[n];
      }
    }
  }

  /**
   * MPEG-1 long blocks: window 0 of bands 0..21 is read, with `slen0` for
   * bands 0..11 and `slen1` for bands 11..21, except the bands of a region
   * whose SCFSI flag is set, which are not read and keep their value.
   */
  lemma LongReads(scfsi: Scfsi, s0: nat, s1: nat, w: nat, i: nat)
    ensures LastRead(Regions(scfsi, 4, s0, s1), w, i).None?
      <==> w != 0 || i >= 21 || scfsi.Flag(RegionOf(i))
    ensures LastRead(Regions(scfsi, 4, s0, s1), w, i).Some? ==>
      LastRead(Regions(scfsi, 4, s0, s1), w, i).value.1 == if i < 11 then s0 else s1
  {
    RegionsReads(scfsi, 4, s0, s1, w, i);
  }

  /**
   * MPEG-1 short blocks: bands 0..6 of each window, then bands 6..12 from
   * where the first group's bits end; nothing else is read.
   */
  lemma Mpeg1ShortReads(s0: nat, s1: nat, w: nat, i: nat)
    ensures LastRead(Group(0, FIRST_END, 3, s0) + Group(FIRST_END, SECOND_END, 3, s1), w, i)
      == if FIRST_END <= i < SECOND_END && w < 3 then ReadAt(LayoutBits(Group(0, FIRST_END, 3, s0)) + Offset(i - FIRST_END, 3, w, s1), s1)
         else if i < FIRST_END && w < 3 then ReadAt(Offset(i - 0, 3, w, s0), s0)
         else None
  {
    TwoGroupsLastRead(0, FIRST_END, 3, s0, true, FIRST_END, SECOND_END, 3, s1, true, w, i);
  }

  /**
   * MPEG-1 mixed blocks: the long reads of bands 0..8 are made first, and
   * the short reads of bands 3..12 that follow overwrite window 0 of bands
   * 3..8, so only bands 0..3 keep their long-block value.
   */
  lemma Mpeg1MixedReads(s0: nat, s1: nat, w: nat, i: nat)
    ensures LastRead(Group(0, MIXED_LONG_END, 1, s0) + Group(MIXED_SHORT_START, FIRST_END, 3, s0) + Group(FIRST_END, SECOND_END, 3, s1), w, i)
      == if FIRST_END <= i < SECOND_END && w < 3 then
           ReadAt(LayoutBits(Group(0, MIXED_LONG_END, 1, s0)) + LayoutBits(Group(MIXED_SHORT_START, FIRST_END, 3, s0)) + Offset(i - FIRST_END, 3, w, s1), s1)
         else if MIXED_SHORT_START <= i < FIRST_END && w < 3 then ReadAt(LayoutBits(Group(0, MIXED_LONG_END, 1, s0)) + Offset(i - MIXED_SHORT_START, 3, w, s0), s0)
         else if i < MIXED_LONG_END && w < 1 then ReadAt(Offset(i - 0, 1, w, s0), s0)
         else None
  {
    ThreeGroupsLastRead(0, MIXED_LONG_END, 1, s0, true, MIXED_SHORT_START, FIRST_END, 3, s0, true, FIRST_END, SECOND_END, 3, s1, true, w, i);
  }

  /** MPEG-2 short blocks: as MPEG-1, but a group whose width is 0 is not read. */
  lemma Mpeg2ShortReads(s0: nat, s1: nat, w: nat, i: nat)
    ensures LastRead(Unless0(0, FIRST_END, 3, s0) + Unless0(FIRST_END, SECOND_END, 3, s1), w, i)
      == if s1 > 0 && FIRST_END <= i < SECOND_END && w < 3 then ReadAt(LayoutBits(Unless0(0, FIRST_END, 3, s0)) + Offset(i - FIRST_END, 3, w, s1), s1)
         else if s0 > 0 && 0 <= i < FIRST_END && w < 3 then ReadAt(Offset(i - 0, 3, w, s0), s0)
         else None
  {
    TwoGroupsLastRead(0, FIRST_END, 3, s0, s0 > 0, FIRST_END, SECOND_END, 3, s1, s1 > 0, w, i);
  }

  /** MPEG-2 long blocks: window 0 of bands 0..6, 6..12 and 12..21, a group of width 0 not being read. */
  lemma Mpeg2LongReads(s0: nat, s1: nat, s2: nat, w: nat, i: nat)
    ensures LastRead(Unless0(0, FIRST_END, 1, s0) + Unless0(FIRST_END, SECOND_END, 1, s1) + Unless0(SECOND_END, LONG_END, 1, s2), w, i)
      == if s2 > 0 && SECOND_END <= i < LONG_END && w < 1 then
           ReadAt(LayoutBits(Unless0(0, FIRST_END, 1, s0)) + LayoutBits(Unless0(FIRST_END, SECOND_END, 1, s1)) + Offset(i - SECOND_END, 1, w, s2), s2)
         else if s1 > 0 && FIRST_END <= i < SECOND_END && w < 1 then ReadAt(LayoutBits(Unless0(0, FIRST_END, 1, s0)) + Offset(i - FIRST_END, 1, w, s1), s1)
         else if s0 > 0 && 0 <= i < FIRST_END && w < 1 then ReadAt(Offset(i - 0, 1, w, s0), s0)
         else None
  {
    ThreeGroupsLastRead(0, FIRST_END, 1, s0, s0 > 0, FIRST_END, SECOND_END, 1, s1, s1 > 0, SECOND_END, LONG_END, 1, s2, s2 > 0, w, i);
  }
}
