/**
 * `decode_huffman` of the Layer III decoder (`src/codecs/mp3/layer3.rs`):
 * how the 576 spectral lines of a granule channel split into the three
 * big-value regions (pairs), the count1 zone (quads) and the zero tail.
 *
 * The Huffman code tables themselves (`decode_huffman_pair`,
 * `decode_huffman_quad`) are not part of this model: they are the
 * parameter `HuffmanCodes`, functions from the bits and a position to the
 * decoded values and the position after them.
 */
module Mp3Huffman {
  import opened Wrappers
  import opened Ints
  import opened Mp3SideInfo
  import opened Mp3Bits

  /** The two code readers: a pair with `linbits`, and a quad from table A or B. */
  datatype HuffmanCodes = HuffmanCodes(
    pair: (seq<bool>, nat, nat, nat) -> Option<(int, int, nat)>,
    quad: (seq<bool>, nat, nat) -> Option<(int, int, int, int, nat)>)

  /** A code never leaves the reader past the end of its bits. */
  ghost predicate ValidCodes(h: HuffmanCodes)
  {
    && (forall bits: seq<bool>, pos: nat, table: nat, linbits: nat :: pos <= |bits| && h.pair(bits, pos, table, linbits).Some? ==>
          h.pair(bits, pos, table, linbits).value.2 <= |bits|)
    && (forall bits: seq<bool>, pos: nat, table: nat :: pos <= |bits| && h.quad(bits, pos, table).Some? ==>
          h.quad(bits, pos, table).value.4 <= |bits|)
  }

  /** Values decoded in front of what the rest decodes; a failure stays a failure. */
  function Prepend(vs: seq<int>, r: Option<(seq<int>, nat)>): Option<(seq<int>, nat)>
  {
    match r
    case None => None
    case Some((rest, p)) => Some((vs + rest, p))
  }

  lemma PrependPrepend(a: seq<int>, b: seq<int>, r: Option<(seq<int>, nat)>)
    ensures Prepend(a, Prepend(b, r)) == Prepend(a + b, r)
  {
    if r.Some? {
      assert a + (b + r.value.0) == (a + b) + r.value.0;
    }
  }

  /** `n` zero lines. */
  function Zeros(n: nat): (z: seq<int>)
    ensures |z| == n && forall k :: 0 <= k < n ==> z[k] == 0
  {
    seq(n, k => 0)
  }

  /** Where `while i < end { ...; i += 2 }` leaves `i`. */
  function RunEnd(i: nat, end: nat): (j: nat)
    ensures j >= i
    ensures i >= end ==> j == i
    ensures i < end ==> end <= j <= end + 1
    decreases end - i
  {
    if i >= end then i else RunEnd(i + 2, end)
  }

  /**
   * One big-value region: a pair of lines for each `i, i + 2, ...` below
   * `end`. Table 0 gives two zero lines without reading; any other table
   * decodes a pair with its `linbits`, and a failed decode fails the region.
   */
  function Pairs(h: HuffmanCodes, bits: seq<bool>, pos: nat, i: nat, end: nat, table: nat, linbits: nat)
    : (r: Option<(seq<int>, nat)>)
    ensures r.Some? ==> |r.value.0| == RunEnd(i, end) - i
    decreases end - i
  {
    if i >= end then Some(([], pos))
    else if table == 0 then Prepend([0, 0], Pairs(h, bits, pos, i + 2, end, table, linbits))
    else
      match h.pair(bits, pos, table, linbits)
      case None => None
      case Some((x, y, p)) => Prepend([x, y], Pairs(h, bits, p, i + 2, end, table, linbits))
  }

  /**
   * The count1 zone from line `i`: quads while four more lines fit in the
   * 576; an all-zero quad ends the zone (its bits are consumed, its lines
   * are not written), and a failed decode fails it.
   */
  function Quads(h: HuffmanCodes, bits: seq<bool>, pos: nat, i: nat, table: nat): (r: Option<(seq<int>, nat)>)
    ensures r.Some? ==> |r.value.0| % 4 == 0 && (|r.value.0| > 0 ==> i + |r.value.0| <= LINES)
    decreases LINES - i
  {
    if i + 4 > LINES then Some(([], pos))
    else
      match h.quad(bits, pos, table)
      case None => None
      case Some((v, w, x, y, p)) =>
        if v == 0 && w == 0 && x == 0 && y == 0 then Some(([], p))
        else Prepend([v, w, x, y], Quads(h, bits, p, i + 4, table))
  }

  /** `big_values * 2`, at most 576: where the pairs end. */
  function BigValuesEnd(gc: GranuleChannel): (e: nat)
    ensures e <= LINES && e % 2 == 0
  {
    if 2 * gc.bigValues <= LINES then 2 * gc.bigValues else LINES
  }

  /** Both region starts index the long band table. */
  predicate RegionsInTable(gc: GranuleChannel, sfbLong: seq<nat>)
  {
    gc.region0Count + gc.region1Count + 2 < |sfbLong|
  }

  /** `region1_start` and `region2_start`, each at most 576. */
  function RegionStarts(gc: GranuleChannel, sfbLong: seq<nat>): (nat, nat)
    requires RegionsInTable(gc, sfbLong)
  {
    (Min(sfbLong[gc.region0Count + 1], LINES), Min(sfbLong[gc.region0Count + gc.region1Count + 2], LINES))
  }

  /** `HUFFMAN_TABLES[table.min(33)].linbits`. */
  function Linbits(linbits: seq<nat>, table: nat): nat
    requires |linbits| == 34
  {
    linbits[Min(table, 33)]
  }

  /** The first two big-value regions, the second starting at the line where the first stopped. */
  function FirstRegions(h: HuffmanCodes, bits: seq<bool>, pos: nat, gc: GranuleChannel, sfbLong: seq<nat>, linbits: seq<nat>)
    : Option<(seq<int>, nat)>
    requires RegionsInTable(gc, sfbLong) && |linbits| == 34
  {
    var (start1, start2) := RegionStarts(gc, sfbLong);
    var bigEnd := BigValuesEnd(gc);
    var t0, t1 := gc.TableSelect(0), gc.TableSelect(1);
    match Pairs(h, bits, pos, 0, Min(start1, bigEnd), t0, Linbits(linbits, t0))
    case None => None
    case Some((a, p)) => Prepend(a, Pairs(h, bits, p, |a|, Min(start2, bigEnd), t1, Linbits(linbits, t1)))
  }

  /** The three big-value regions in turn: the third runs from where the first two stopped up to `big_values * 2`. */
  function BigValues(h: HuffmanCodes, bits: seq<bool>, pos: nat, gc: GranuleChannel, sfbLong: seq<nat>, linbits: seq<nat>)
    : Option<(seq<int>, nat)>
    requires RegionsInTable(gc, sfbLong) && |linbits| == 34
  {
    var t2 := gc.TableSelect(2);
    match FirstRegions(h, bits, pos, gc, sfbLong, linbits)
    case None => None
    case Some((ab, p)) => Prepend(ab, Pairs(h, bits, p, |ab|, BigValuesEnd(gc), t2, Linbits(linbits, t2)))
  }

  /** The big-value pairs fill exactly the lines below `big_values * 2` (at most 576). */
  lemma BigValuesLength(h: HuffmanCodes, bits: seq<bool>, pos: nat, gc: GranuleChannel, sfbLong: seq<nat>, linbits: seq<nat>)
    requires RegionsInTable(gc, sfbLong) && |linbits| == 34
    ensures BigValues(h, bits, pos, gc, sfbLong, linbits).Some? ==>
      |BigValues(h, bits, pos, gc, sfbLong, linbits).value.0| == BigValuesEnd(gc)
  {
    var (start1, start2) := RegionStarts(gc, sfbLong);
    var bigEnd := BigValuesEnd(gc);
    var t0, t1, t2 := gc.TableSelect(0), gc.TableSelect(1), gc.TableSelect(2);
    var first := Pairs(h, bits, pos, 0, Min(start1, bigEnd), t0, Linbits(linbits, t0));
    if first.Some? {
      var (a, p1) := first.value;
      RunEndBound(0, Min(start1, bigEnd), bigEnd);
      var second := Pairs(h, bits, p1, |a|, Min(start2, bigEnd), t1, Linbits(linbits, t1));
      if second.Some? {
        var (b, p2) := second.value;
        RunEndBound(|a|, Min(start2, bigEnd), bigEnd);
        RunEndBound(|a| + |b|, bigEnd, bigEnd);
      }
    }
  }

  /** From an even line, pairs up to an even bound stop at or before it, on an even line. */
  lemma {:induction false} RunEndBound(i: nat, end: nat, bound: nat)
    requires i % 2 == 0 && bound % 2 == 0 && i <= bound && end <= bound
    ensures RunEnd(i, end) <= bound && RunEnd(i, end) % 2 == 0
    ensures end == bound ==> RunEnd(i, end) == bound
    decreases end - i
  {
    if i < end {
      RunEndBound(i + 2, end, bound);
    }
  }

  /** A region coded with table 0 reads no bits and holds only zero lines. */
  lemma {:induction false} PairsZeroTable(h: HuffmanCodes, bits: seq<bool>, pos: nat, i: nat, end: nat, linbits: nat)
    ensures Pairs(h, bits, pos, i, end, 0, linbits) == Some((Zeros(RunEnd(i, end) - i), pos))
    decreases end - i
  {
    if i < end {
      PairsZeroTable(h, bits, pos, i + 2, end, linbits);
      assert [0, 0] + Zeros(RunEnd(i + 2, end) - (i + 2)) == Zeros(RunEnd(i, end) - i);
    }
  }

  /** The `q`-th quad of a run of quads. */
  function QuadAt(vals: seq<int>, q: nat): (int, int, int, int)
    requires 4 * q + 4 <= |vals|
  {
    (vals[4 * q], vals[4 * q + 1], vals[4 * q + 2], vals[4 * q + 3])
  }

  /** No quad of the run is all zero. */
  ghost predicate NoZeroQuad(vals: seq<int>)
  {
    forall q: nat :: 4 * q + 4 <= |vals| ==> QuadAt(vals, q) != (0, 0, 0, 0)
  }

  /** Where the reader stands after `k` quads decoded one after the other from `pos`. */
  function QuadPos(h: HuffmanCodes, bits: seq<bool>, pos: nat, table: nat, k: nat): Option<nat>
    decreases k
  {
    if k == 0 then Some(pos)
    else
      match h.quad(bits, pos, table)
      case None => None
      case Some((_, _, _, _, p)) => QuadPos(h, bits, p, table, k - 1)
  }

  /**
   * How the count1 zone ends: none of its quads is all zero, and after its
   * `n` quads either four more lines would pass line 576 (the reader stays
   * where the last quad left it), or the next quad decodes as all zero and
   * the reader stands after that one.
   */
  lemma {:induction false} QuadsStop(h: HuffmanCodes, bits: seq<bool>, pos: nat, i: nat, table: nat)
    requires Quads(h, bits, pos, i, table).Some?
    ensures var (vals, p) := Quads(h, bits, pos, i, table).value;
      var at := QuadPos(h, bits, pos, table, |vals| / 4);
      && NoZeroQuad(vals) && at.Some?
      && (i + |vals| + 4 > LINES ==> p == at.value)
      && (i + |vals| + 4 <= LINES ==> h.quad(bits, at.value, table) == Some((0, 0, 0, 0, p)))
    decreases LINES - i
  {
    if i + 4 <= LINES {
      var (v, w, x, y, p1) := h.quad(bits, pos, table).value;
      if !(v == 0 && w == 0 && x == 0 && y == 0) {
        QuadsStop(h, bits, p1, i + 4, table);
        var rest := Quads(h, bits, p1, i + 4, table).value.0;
        var vals := [v, w, x, y] + rest;
        assert |vals| / 4 == |rest| / 4 + 1;
        forall q: nat | 4 * q + 4 <= |vals|
          ensures QuadAt(vals, q) != (0, 0, 0, 0)
        {
          if q > 0 {
            assert QuadAt(vals, q) == QuadAt(rest, q - 1);
          }
        }
      }
    }
  }

  /** The quad table: B when `count1table_select` is set, A otherwise. */
  function QuadTable(gc: GranuleChannel): nat
  {
    if gc.count1TableSelect then 1 else 0
  }

  /**
   * The lines `decode_huffman` leaves, and the position after them: the
   * big-value pairs, the count1 quads from where they end, zeros up to 576.
   */
  function HuffmanLines(h: HuffmanCodes, bits: seq<bool>, pos: nat, gc: GranuleChannel, sfbLong: seq<nat>, linbits: seq<nat>)
    : (r: Option<(seq<int>, nat)>)
    requires RegionsInTable(gc, sfbLong) && |linbits| == 34
    ensures r.Some? ==> |r.value.0| == LINES
  {
    match BigValues(h, bits, pos, gc, sfbLong, linbits)
    case None => None
    case Some((big, p)) =>
      BigValuesLength(h, bits, pos, gc, sfbLong, linbits);
      match Quads(h, bits, p, |big|, QuadTable(gc))
      case None => None
      case Some((quads, q)) => Some((big + quads + Zeros(LINES - |big| - |quads|), q))
  }

  /**
   * The layout of the 576 lines: the big-value pairs fill the lines below
   * `big_values * 2`, the count1 quads after them hold no all-zero quad and
   * stop within the 576, and every line after the quads is 0.
   */
  lemma HuffmanLayout(h: HuffmanCodes, bits: seq<bool>, pos: nat, gc: GranuleChannel, sfbLong: seq<nat>, linbits: seq<nat>)
    requires RegionsInTable(gc, sfbLong) && |linbits| == 34
    requires HuffmanLines(h, bits, pos, gc, sfbLong, linbits).Some?
    ensures var lines := HuffmanLines(h, bits, pos, gc, sfbLong, linbits).value.0;
      var (big, p) := BigValues(h, bits, pos, gc, sfbLong, linbits).value;
      var (quads, q) := Quads(h, bits, p, |big|, QuadTable(gc)).value;
      && |big| == BigValuesEnd(gc) && lines[..BigValuesEnd(gc)] == big
      && BigValuesEnd(gc) + |quads| <= LINES && lines[BigValuesEnd(gc)..BigValuesEnd(gc) + |quads|] == quads
      && NoZeroQuad(quads)
      && (forall k :: BigValuesEnd(gc) + |quads| <= k < LINES ==> lines[k] == 0)
  {
    BigValuesLength(h, bits, pos, gc, sfbLong, linbits);
    var (big, p) := BigValues(h, bits, pos, gc, sfbLong, linbits).value;
    QuadsStop(h, bits, p, |big|, QuadTable(gc));
    var (quads, q) := Quads(h, bits, p, |big|, QuadTable(gc)).value;
    var lines := big + quads + Zeros(LINES - |big| - |quads|);
    assert lines[..|big|] == big;
    assert lines[|big|..|big| + |quads|] == quads;
  }

  /** The first `|lines|` samples hold `lines`. */
  ghost predicate Filled(samples: array<real>, lines: seq<int>)
    reads samples
  {
    |lines| <= samples.Length && forall k :: 0 <= k < |lines| ==> samples[k] == lines[k] as real
  }

  /** `samples[i] = v as f32` at the next line. */
  method Put(samples: array<real>, i: nat, ghost lines: seq<int>, v: int)
    requires Filled(samples, lines) && i == |lines| < samples.Length
    modifies samples
    ensures Filled(samples, lines + [v])
  {
    samples[i] := v as real;
  }

  /** Nothing in front changes nothing. */
  lemma PrependNothing(r: Option<(seq<int>, nat)>)
    ensures Prepend([], r) == r
  {
    if r.Some? {
      assert [] + r.value.0 == r.value.0;
    }
  }

  /**
   * The body of a big-value loop at line `i < end`: table 0 gives two zeros
   * and leaves the reader alone; another table decodes a pair and moves the
   * reader past it. The rest of the region is decoded from there.
   */
  method PairStep(reader: BitReader, i: nat, end: nat, table: nat, linbits: nat, h: HuffmanCodes)
    returns (r: Option<(int, int)>)
    requires reader.Valid() && ValidCodes(h) && i < end
    modifies reader
    ensures reader.Valid()
    ensures r.None? ==> Pairs(h, reader.bits, old(reader.pos), i, end, table, linbits).None?
    ensures r.Some? ==>
      Pairs(h, reader.bits, old(reader.pos), i, end, table, linbits)
      == Prepend([r.value.0, r.value.1], Pairs(h, reader.bits, reader.pos, i + 2, end, table, linbits))
  {
    if table == 0 {
      return Some((0, 0));
    }
    var d := h.pair(reader.bits, reader.pos, table, linbits);
    if d.None? {
      return None;
    }
    reader.pos := d.value.2;
    return Some((d.value.0, d.value.1));
  }

  /**
   * One pass of a big-value loop at line `i < end`, after the lines
   * `prefix + done`: a failure fails the region, and otherwise the pair is
   * written and the rest of the region is decoded from the next line.
   */
  method PairPass(reader: BitReader, samples: array<real>, i: nat, end: nat, table: nat, linbits: nat,
                  h: HuffmanCodes, ghost prefix: seq<int>, ghost done: seq<int>, ghost whole: Option<(seq<int>, nat)>)
    returns (ok: bool, ghost done': seq<int>)
    requires reader.Valid() && ValidCodes(h) && samples.Length == LINES
    requires i == |prefix + done| && i < end <= LINES && i % 2 == 0 && Filled(samples, prefix + done)
    requires whole == Prepend(done, Pairs(h, reader.bits, reader.pos, i, end, table, linbits))
    modifies reader, samples
    ensures reader.Valid()
    ensures !ok ==> whole.None?
    ensures ok ==> |done'| == |done| + 2 && Filled(samples, prefix + done')
    ensures ok ==> whole == Prepend(done', Pairs(h, reader.bits, reader.pos, i + 2, end, table, linbits))
  {
    done' := done;
    var r := PairStep(reader, i, end, table, linbits, h);
    if r.None? {
      return false, done';
    }
    var (x, y) := r.value;
    PrependPrepend(done, [x, y], Pairs(h, reader.bits, reader.pos, i + 2, end, table, linbits));
    PutPair(samples, i, prefix + done, x, y);
    assert prefix + done + [x, y] == prefix + (done + [x, y]);
    return true, done + [x, y];
  }

  /**
   * One `while i < end` loop of `decode_huffman` from line `i0`, after the
   * lines `prefix`: it fails exactly when `Pairs` does, and otherwise leaves
   * `Pairs`' lines after `prefix` and the reader where `Pairs` ends.
   */
  method ReadPairs(reader: BitReader, samples: array<real>, i0: nat, end: nat, table: nat, linbits: nat,
                   h: HuffmanCodes, ghost prefix: seq<int>) returns (ok: bool, i: nat)
    requires reader.Valid() && ValidCodes(h) && samples.Length == LINES
    requires i0 == |prefix| && i0 % 2 == 0 && end <= LINES && Filled(samples, prefix)
    modifies reader, samples
    ensures reader.Valid()
    ensures ok <==> Pairs(h, reader.bits, old(reader.pos), i0, end, table, linbits).Some?
    ensures ok ==> i == RunEnd(i0, end) && reader.pos == Pairs(h, reader.bits, old(reader.pos), i0, end, table, linbits).value.1
    ensures ok ==> Filled(samples, prefix + Pairs(h, reader.bits, old(reader.pos), i0, end, table, linbits).value.0)
  {
    ghost var whole := Pairs(h, reader.bits, reader.pos, i0, end, table, linbits);
    ghost var done: seq<int> := [];
    PrependNothing(whole);
    assert prefix + [] == prefix;
    ghost var m: nat := i0 / 2;
    i := i0;
    while i < end
      invariant reader.Valid() && i == 2 * m && i == |prefix + done|
      invariant RunEnd(i, end) == RunEnd(i0, end)
      invariant whole == Prepend(done, Pairs(h, reader.bits, reader.pos, i, end, table, linbits))
      invariant Filled(samples, prefix + done)
      decreases end - i
    {
      ok, done := PairPass(reader, samples, i, end, table, linbits, h, prefix, done, whole);
      if !ok {
        return false, i;
      }
      i, m := i + 2, m + 1;
    }
    assert done + [] == done;
    return true, i;
  }

  /**
   * The body of the count1 loop at line `i`, with four lines left: a quad is
   * decoded and the reader moves past it. An all-zero quad ends the zone
   * there; any other quad is followed by the rest of the zone.
   */
  method QuadStep(reader: BitReader, i: nat, table: nat, h: HuffmanCodes) returns (r: Option<(int, int, int, int)>)
    requires reader.Valid() && ValidCodes(h) && i + 4 <= LINES
    modifies reader
    ensures reader.Valid()
    ensures r.None? ==> Quads(h, reader.bits, old(reader.pos), i, table).None?
    ensures r == Some((0, 0, 0, 0)) ==> Quads(h, reader.bits, old(reader.pos), i, table) == Some(([], reader.pos))
    ensures r.Some? && r != Some((0, 0, 0, 0)) ==>
      Quads(h, reader.bits, old(reader.pos), i, table)
      == Prepend([r.value.0, r.value.1, r.value.2, r.value.3], Quads(h, reader.bits, reader.pos, i + 4, table))
  {
    var d := h.quad(reader.bits, reader.pos, table);
    if d.None? {
      return None;
    }
    var (v, w, x, y, p) := d.value;
    reader.pos := p;
    return Some((v, w, x, y));
  }

  /**
   * The count1 loop from line `i0`, after the lines `prefix`: it fails
   * exactly when `Quads` does, and otherwise leaves `Quads`' lines after
   * `prefix` and the reader where `Quads` ends.
   */
  method ReadQuads(reader: BitReader, samples: array<real>, i0: nat, table: nat, h: HuffmanCodes, ghost prefix: seq<int>)
    returns (ok: bool, i: nat)
    requires reader.Valid() && ValidCodes(h) && samples.Length == LINES
    requires i0 == |prefix| && Filled(samples, prefix)
    modifies reader, samples
    ensures reader.Valid()
    ensures ok <==> Quads(h, reader.bits, old(reader.pos), i0, table).Some?
    ensures ok ==> i == i0 + |Quads(h, reader.bits, old(reader.pos), i0, table).value.0|
    ensures ok ==> reader.pos == Quads(h, reader.bits, old(reader.pos), i0, table).value.1
    ensures ok ==> Filled(samples, prefix + Quads(h, reader.bits, old(reader.pos), i0, table).value.0)
  {
    ghost var p0 := reader.pos;
    ghost var done: seq<int> := [];
    PrependNothing(Quads(h, reader.bits, p0, i0, table));
    assert prefix + [] == prefix;
    i := i0;
    while i + 4 <= LINES
      invariant reader.Valid() && i0 <= i && |done| == i - i0
      invariant Quads(h, reader.bits, p0, i0, table) == Prepend(done, Quads(h, reader.bits, reader.pos, i, table))
      invariant Filled(samples, prefix + done)
      decreases LINES - i
    {
      var r := QuadStep(reader, i, table, h);
      if r.None? {
        return false, i;
      }
      if r == Some((0, 0, 0, 0)) {
        assert done + [] == done;
        return true, i;
      }
      var (v, w, x, y) := r.value;
      PrependPrepend(done, [v, w, x, y], Quads(h, reader.bits, reader.pos, i + 4, table));
      PutQuad(samples, i, prefix + done, v, w, x, y);
      assert prefix + done + [v, w, x, y] == prefix + (done + [v, w, x, y]);
      done := done + [v, w, x, y];
      i := i + 4;
    }
    assert done + [] == done;
    return true, i;
  }

  /** The two writes of a pair. */
  method PutPair(samples: array<real>, i: nat, ghost lines: seq<int>, x: int, y: int)
    requires Filled(samples, lines) && i == |lines| && i + 2 <= samples.Length
    modifies samples
    ensures Filled(samples, lines + [x, y])
  {
    Put(samples, i, lines, x);
    Put(samples, i + 1, lines + [x], y);
    assert lines + [x] + [y] == lines + [x, y];
  }

  /** The four writes of a quad. */
  method PutQuad(samples: array<real>, i: nat, ghost lines: seq<int>, v: int, w: int, x: int, y: int)
    requires Filled(samples, lines) && i == |lines| && i + 4 <= samples.Length
    modifies samples
    ensures Filled(samples, lines + [v, w, x, y])
  {
    Put(samples, i, lines, v);
    Put(samples, i + 1, lines + [v], w);
    assert lines + [v] + [w] == lines + [v, w];
    Put(samples, i + 2, lines + [v, w], x);
    assert lines + [v, w] + [x] == lines + [v, w, x];
    Put(samples, i + 3, lines + [v, w, x], y);
    assert lines + [v, w, x] + [y] == lines + [v, w, x, y];
  }

  /** The last loop: every line from `i0` to 575 becomes 0. */
  method ZeroTail(samples: array<real>, i0: nat, ghost prefix: seq<int>)
    requires samples.Length == LINES && i0 == |prefix| <= LINES && Filled(samples, prefix)
    modifies samples
    ensures Filled(samples, prefix + Zeros(LINES - i0))
  {
    var i := i0;
    while i < LINES
      invariant i0 <= i <= LINES
      invariant Filled(samples, prefix + Zeros(i - i0))
    {
      assert prefix + Zeros(i - i0) + [0] == prefix + Zeros(i + 1 - i0);
      Put(samples, i, prefix + Zeros(i - i0), 0);
      i := i + 1;
    }
  }

  /** The first two big-value loops: they fail exactly when `FirstRegions` does, and otherwise leave its lines. */
  method ReadFirstRegions(reader: BitReader, gc: GranuleChannel, sfbLong: seq<nat>, linbits: seq<nat>, h: HuffmanCodes,
                          samples: array<real>) returns (ok: bool, i: nat)
    requires reader.Valid() && ValidCodes(h) && samples.Length == LINES
    requires RegionsInTable(gc, sfbLong) && |linbits| == 34
    modifies reader, samples
    ensures reader.Valid()
    ensures ok <==> FirstRegions(h, reader.bits, old(reader.pos), gc, sfbLong, linbits).Some?
    ensures ok ==> reader.pos == FirstRegions(h, reader.bits, old(reader.pos), gc, sfbLong, linbits).value.1
    ensures ok ==> i == |FirstRegions(h, reader.bits, old(reader.pos), gc, sfbLong, linbits).value.0|
    ensures ok ==> i % 2 == 0 && i <= BigValuesEnd(gc)
    ensures ok ==> Filled(samples, FirstRegions(h, reader.bits, old(reader.pos), gc, sfbLong, linbits).value.0)
  {
    var (start1, start2) := RegionStarts(gc, sfbLong);
    var bigEnd := BigValuesEnd(gc);
    var t0, t1 := gc.TableSelect(0), gc.TableSelect(1);
    ghost var p0 := reader.pos;
    var ok1, i1 := ReadPairs(reader, samples, 0, Min(start1, bigEnd), t0, Linbits(linbits, t0), h, []);
    if !ok1 {
      return false, 0;
    }
    ghost var a := Pairs(h, reader.bits, p0, 0, Min(start1, bigEnd), t0, Linbits(linbits, t0)).value.0;
    assert [] + a == a;
    RunEndBound(0, Min(start1, bigEnd), bigEnd);
    ok, i := ReadPairs(reader, samples, i1, Min(start2, bigEnd), t1, Linbits(linbits, t1), h, a);
    RunEndBound(i1, Min(start2, bigEnd), bigEnd);
  }

  /** The three big-value loops: they fail exactly when `BigValues` does, and otherwise leave its lines. */
  method ReadBigValues(reader: BitReader, gc: GranuleChannel, sfbLong: seq<nat>, linbits: seq<nat>, h: HuffmanCodes,
                       samples: array<real>) returns (ok: bool, i: nat)
    requires reader.Valid() && ValidCodes(h) && samples.Length == LINES
    requires RegionsInTable(gc, sfbLong) && |linbits| == 34
    modifies reader, samples
    ensures reader.Valid()
    ensures ok <==> BigValues(h, reader.bits, old(reader.pos), gc, sfbLong, linbits).Some?
    ensures ok ==> reader.pos == BigValues(h, reader.bits, old(reader.pos), gc, sfbLong, linbits).value.1
    ensures ok ==> i == |BigValues(h, reader.bits, old(reader.pos), gc, sfbLong, linbits).value.0|
    ensures ok ==> Filled(samples, BigValues(h, reader.bits, old(reader.pos), gc, sfbLong, linbits).value.0)
  {
    var t2 := gc.TableSelect(2);
    var ok1, i1 := ReadFirstRegions(reader, gc, sfbLong, linbits, h, samples);
    if !ok1 {
      return false, 0;
    }
    ok, i := ReadPairs(reader, samples, i1, BigValuesEnd(gc), t2, Linbits(linbits, t2), h,
                       FirstRegions(h, reader.bits, old(reader.pos), gc, sfbLong, linbits).value.0);
  }

  /**
   * `decode_huffman`: the three big-value loops, the count1 loop and the
   * zero fill. It fails exactly when a code fails to decode; otherwise the
   * 576 lines are `HuffmanLines` and the reader stands after them.
   */
  method DecodeHuffman(reader: BitReader, gc: GranuleChannel, sfbLong: seq<nat>, linbits: seq<nat>, h: HuffmanCodes,
                       samples: array<real>) returns (ok: bool)
    requires reader.Valid() && ValidCodes(h) && samples.Length == LINES
    requires RegionsInTable(gc, sfbLong) && |linbits| == 34
    modifies reader, samples
    ensures reader.Valid()
    ensures ok <==> HuffmanLines(h, reader.bits, old(reader.pos), gc, sfbLong, linbits).Some?
    ensures ok ==> reader.pos == HuffmanLines(h, reader.bits, old(reader.pos), gc, sfbLong, linbits).value.1
    ensures ok ==> forall k :: 0 <= k < LINES ==>
      samples[k] == HuffmanLines(h, reader.bits, old(reader.pos), gc, sfbLong, linbits).value.0[k] as real
  {
    ghost var p0 := reader.pos;
    BigValuesLength(h, reader.bits, p0, gc, sfbLong, linbits);
    var ok1, i := ReadBigValues(reader, gc, sfbLong, linbits, h, samples);
    if !ok1 {
      return false;
    }
    ghost var big := BigValues(h, reader.bits, p0, gc, sfbLong, linbits).value.0;
    ghost var p1 := reader.pos;
    var ok2, j := ReadQuads(reader, samples, i, QuadTable(gc), h, big);
    if !ok2 {
      return false;
    }
    ghost var quads := Quads(h, reader.bits, p1, |big|, QuadTable(gc)).value.0;
    ZeroTail(samples, j, big + quads);
    return true;
  }
}
