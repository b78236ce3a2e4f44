/**
 * The per-granule stages of the Layer III decoder
 * (`src/codecs/mp3/layer3.rs`) that rewrite the 576 lines in place:
 * mid/side stereo, the reordering of short blocks, the alias-reduction
 * butterflies and the frequency inversion. Each is a method over the
 * `[f32; 576]` array(s), proved against a closed form on the lines before
 * the stage; `f32` arithmetic is modelled on reals.
 */
module Mp3Stages {
  import opened Mp3SideInfo

  /* ---------------------------------------------------------------- */
  /* process_stereo                                                    */
  /* ---------------------------------------------------------------- */

  /** The constant `0.707106781` (1/√2 to nine places) of the mid/side matrix. */
  const MS_SCALE: real := 0.707106781

  /** One line of mid/side stereo: `((m + s) * c, (m - s) * c)`. */
  function MidSide(m: real, s: real): (real, real)
  {
    ((m + s) * MS_SCALE, (m - s) * MS_SCALE)
  }

  /**
   * The matrix is its own inverse up to the factor `2c^2`: applied twice it
   * gives back both lines scaled by `2c^2`, which lies within `10^-9` of 1.
   */
  lemma MidSideTwice(m: real, s: real)
    ensures MidSide(MidSide(m, s).0, MidSide(m, s).1) == (2.0 * MS_SCALE * MS_SCALE * m, 2.0 * MS_SCALE * MS_SCALE * s)
    ensures 1.0 - 1.0 / 1000000000.0 < 2.0 * MS_SCALE * MS_SCALE < 1.0
  {
    var c := MS_SCALE;
    assert ((m + s) * c + (m - s) * c) * c == 2.0 * c * c * m;
    assert ((m + s) * c - (m - s) * c) * c == 2.0 * c * c * s;
  }

  /** The energy of the two lines is scaled by the same `2c^2`. */
  lemma MidSideEnergy(m: real, s: real)
    ensures var (l, r) := MidSide(m, s); l * l + r * r == 2.0 * MS_SCALE * MS_SCALE * (m * m + s * s)
  {
  }

  /** The left and right lines after `process_stereo`, line by line `MidSide` when `msStereo` is set. */
  function StereoLeft(msStereo: bool, l: seq<real>, r: seq<real>): (o: seq<real>)
    requires |l| == LINES && |r| == LINES
    ensures |o| == LINES
  {
    if msStereo then seq(LINES, k requires 0 <= k < LINES => MidSide(l[k], r[k]).0) else l
  }

  function StereoRight(msStereo: bool, l: seq<real>, r: seq<real>): (o: seq<real>)
    requires |l| == LINES && |r| == LINES
    ensures |o| == LINES
  {
    if msStereo then seq(LINES, k requires 0 <= k < LINES => MidSide(l[k], r[k]).1) else r
  }

  /**
   * `process_stereo`: with mid/side stereo every line pair `(m, s)` of the
   * two channels becomes `MidSide(m, s)`; otherwise nothing changes.
   */
  method ProcessStereo(msStereo: bool, left: array<real>, right: array<real>)
    requires left.Length == LINES && right.Length == LINES && left != right
    modifies left, right
    ensures !msStereo ==> left[..] == old(left[..]) && right[..] == old(right[..])
    ensures msStereo ==> forall k :: 0 <= k < LINES ==> (left[k], right[k]) == MidSide(old(left[k]), old(right[k]))
    ensures left[..] == StereoLeft(msStereo, old(left[..]), old(right[..]))
    ensures right[..] == StereoRight(msStereo, old(left[..]), old(right[..]))
  {
    if msStereo {
      for i := 0 to LINES
        invariant forall k :: 0 <= k < LINES ==>
          (left[k], right[k]) == if k < i then MidSide(old(left[k]), old(right[k])) else (old(left[k]), old(right[k]))
      {
        var m := left[i];
        var s := right[i];
        left[i] := (m + s) * MS_SCALE;
        right[i] := (m - s) * MS_SCALE;
      }
    }
  }

  /* ---------------------------------------------------------------- */
  /* reorder                                                           */
  /* ---------------------------------------------------------------- */

  /** Short band edges in lines of one window: 14 edges from 0 to 192. */
  predicate ShortEdges(short: seq<nat>)
  {
    Edges(short, 14, 192)
  }

  /** `sfb_short[b + 1] - sfb_short[b]`: the width of short band `b`. */
  function Width(short: seq<nat>, b: nat): nat
    requires ShortEdges(short) && b < 13
  {
    short[b + 1] - short[b]
  }

  /** `dst`: where line `i` of window `w` of band `b` goes, window-interleaved. */
  function Dst(short: seq<nat>, b: nat, w: nat, i: nat): nat
    requires ShortEdges(short) && b < 13
  {
    short[b] * 3 + i * 3 + w
  }

  /** `src`: where line `i` of window `w` of band `b` comes from, window after window. */
  function Src(short: seq<nat>, b: nat, w: nat, i: nat): nat
    requires ShortEdges(short) && b < 13
  {
    short[b] * 3 + w * Width(short, b) + i
  }

  /** The band `b` with `short[b] <= j < short[b + 1]`, searching from `from`. */
  function ShortBandFrom(short: seq<nat>, j: nat, from: nat): (b: nat)
    requires ShortEdges(short) && j < 192 && from < 13 && short[from] <= j
    ensures from <= b < 13 && short[b] <= j < short[b + 1]
    decreases 13 - from
  {
    if j < short[from + 1] then from else ShortBandFrom(short, j, from + 1)
  }

  /** The short band of line `k`: the band its position `k / 3` within its window lies in. */
  function BandOfLine(short: seq<nat>, k: nat): (b: nat)
    requires ShortEdges(short) && k < LINES
    ensures b < 13 && short[b] * 3 <= k < short[b + 1] * 3
  {
    ShortBandFrom(short, k / 3, 0)
  }

  /** Each line lies in one band only. */
  lemma BandOfLineUnique(short: seq<nat>, k: nat, b: nat)
    requires ShortEdges(short) && k < LINES && b < 13 && short[b] * 3 <= k < short[b + 1] * 3
    ensures BandOfLine(short, k) == b
  {
  }

  /** The line moved to line `k` of a band starting at line `base * 3` with `width` lines per window. */
  function Moved(base: nat, width: nat, k: nat): (m: int)
    ensures base * 3 <= k < (base + width) * 3 ==> base * 3 <= m < (base + width) * 3
  {
    MovedInBand(base, width, k);
    base * 3 + (k % 3) * width + (k / 3 - base)
  }

  /** Window `k % 3`, index `k / 3 - base` of a band lands inside the band. */
  lemma MovedInBand(base: nat, width: nat, k: nat)
    ensures base * 3 <= k < (base + width) * 3 ==>
      base * 3 <= base * 3 + (k % 3) * width + (k / 3 - base) < (base + width) * 3
  {
    if base * 3 <= k < (base + width) * 3 {
      var q, r := k / 3, k % 3;
      assert k == 3 * q + r && 0 <= r < 3;
      assert base <= q < base + width;
      assert r * width <= 2 * width by {
        if r == 2 {
          assert r * width == 2 * width;
        }
      }
    }
  }

  /** The line `reorder` moves to line `k`: `Src` of the band, window `k % 3` and index `k / 3 - short[b]` of `k`. */
  function SrcOfLine(short: seq<nat>, k: nat): (src: nat)
    requires ShortEdges(short) && k < LINES
    ensures var b := BandOfLine(short, k); short[b] * 3 <= src < short[b + 1] * 3
  {
    var b := BandOfLine(short, k);
    SrcInBand(short, b, k % 3, k / 3 - short[b]);
    Src(short, b, k % 3, k / 3 - short[b])
  }

  /** Line `Dst(b, w, i)` is filled from `Src(b, w, i)`, the formula of the source. */
  lemma SrcOfDst(short: seq<nat>, b: nat, w: nat, i: nat)
    requires ShortEdges(short) && b < 13 && w < 3 && i < Width(short, b)
    ensures Dst(short, b, w, i) < LINES && SrcOfLine(short, Dst(short, b, w, i)) == Src(short, b, w, i)
  {
    var k := Dst(short, b, w, i);
    assert short[b + 1] <= short[13];
    assert k / 3 == short[b] + i && k % 3 == w;
    BandOfLineUnique(short, k, b);
  }

  /** `Src(b, w, i)` stays inside band `b`'s lines. */
  lemma SrcInBand(short: seq<nat>, b: nat, w: nat, i: nat)
    requires ShortEdges(short) && b < 13 && w < 3 && i < Width(short, b)
    ensures short[b] * 3 <= Src(short, b, w, i) < short[b + 1] * 3
  {
    var width := Width(short, b);
    assert w * width + i < 3 * width by {
      if w == 0 {
      } else if w == 1 {
      } else {
        assert w * width == 2 * width;
      }
    }
  }

  /** Two different `(w, i)` of a band never share a source line: together with `SrcInBand`, `reorder` permutes each band. */
  lemma SrcInjective(short: seq<nat>, b: nat, w: nat, i: nat, w': nat, i': nat)
    requires ShortEdges(short) && b < 13 && w < 3 && i < Width(short, b) && w' < 3 && i' < Width(short, b)
    requires Src(short, b, w, i) == Src(short, b, w', i')
    ensures w == w' && i == i'
  {
    var width := Width(short, b);
    assert w * width + i == w' * width + i';
    assert 0 * width == 0 && 1 * width == width && 2 * width == width + width;
    if w == 0 {
      assert w * width == 0;
    } else if w == 1 {
      assert w * width == width;
    } else {
      assert w * width == width + width;
    }
    if w' == 0 {
      assert w' * width == 0;
    } else if w' == 1 {
      assert w' * width == width;
    } else {
      assert w' * width == width + width;
    }
  }

  /** The first line `reorder` rewrites: `sfb_short[3] * 3` for mixed blocks, 0 otherwise. */
  function ReorderStart(short: seq<nat>, mixed: bool): nat
    requires ShortEdges(short)
  {
    if mixed then short[3] * 3 else 0
  }

  /** `for i in 0..width` of one window: line `base*3 + i*3 + w` of `temp` takes line `base*3 + w*width + i`. */
  method ReorderWindow(samples: array<real>, temp: array<real>, base: nat, width: nat, w: nat)
    requires samples.Length == LINES && temp.Length == LINES && samples != temp
    requires (base + width) * 3 <= LINES && w < 3
    modifies temp
    ensures forall k :: 0 <= k < LINES ==>
      temp[k] == if base * 3 <= k < (base + width) * 3 && k % 3 == w then samples[Moved(base, width, k)] else old(temp[k])
  {
    assert w * width <= 2 * width by {
      if w == 0 {
      } else if w == 1 {
      } else {
        assert w * width == 2 * width;
      }
    }
    for i := 0 to width
      invariant forall k :: 0 <= k < LINES ==>
        temp[k] == if base * 3 <= k < (base + i) * 3 && k % 3 == w then samples[Moved(base, width, k)] else old(temp[k])
    {
      var src := base * 3 + w * width + i;
      var dst := base * 3 + i * 3 + w;
      if src < LINES && dst < LINES {
        assert dst / 3 == base + i && dst % 3 == w;
        assert Moved(base, width, dst) == src;
        temp[dst] := samples[src];
      }
    }
  }

  /** Within band `b`, the line `reorder` moves to each line is the band's `Moved` one. */
  lemma BandMoves(short: seq<nat>, b: nat)
    requires ShortEdges(short) && b < 13
    ensures short[b + 1] * 3 <= LINES
    ensures forall k :: short[b] * 3 <= k < short[b + 1] * 3 ==>
      SrcOfLine(short, k) == Moved(short[b], short[b + 1] - short[b], k)
  {
    assert short[b + 1] <= short[13];
    forall k | short[b] * 3 <= k < short[b + 1] * 3
      ensures SrcOfLine(short, k) == Moved(short[b], short[b + 1] - short[b], k)
    {
      BandOfLineUnique(short, k, b);
    }
  }

  /** `for window in 0..3` over the band at line `base * 3`: each of its lines takes its `Moved` line. */
  method ReorderWindows(samples: array<real>, temp: array<real>, base: nat, width: nat)
    requires samples.Length == LINES && temp.Length == LINES && samples != temp
    requires (base + width) * 3 <= LINES
    modifies temp
    ensures forall k :: 0 <= k < LINES ==>
      temp[k] == if base * 3 <= k < (base + width) * 3 then samples[Moved(base, width, k)] else old(temp[k])
  {
    for w := 0 to 3
      invariant forall k :: 0 <= k < LINES ==>
        temp[k] == if base * 3 <= k < (base + width) * 3 && k % 3 < w then samples[Moved(base, width, k)] else old(temp[k])
    {
      ReorderWindow(samples, temp, base, width, w);
    }
  }

  /** `for window in 0..3` of band `b`: every line of the band takes its `Src`. */
  method ReorderBand(samples: array<real>, temp: array<real>, short: seq<nat>, b: nat)
    requires ShortEdges(short) && b < 13
    requires samples.Length == LINES && temp.Length == LINES && samples != temp
    modifies temp
    ensures forall k :: 0 <= k < LINES ==>
      temp[k] == if short[b] * 3 <= k < short[b + 1] * 3 then samples[SrcOfLine(short, k)] else old(temp[k])
  {
    var base, width := short[b], short[b + 1] - short[b];
    BandMoves(short, b);
    ReorderWindows(samples, temp, base, width);
  }

  /**
   * The lines after `reorder`: unchanged unless the granule uses short
   * windows; then, from `ReorderStart` on, each line takes its `SrcOfLine`.
   */
  function ReorderLines(gc: GranuleChannel, short: seq<nat>, s: seq<real>): (t: seq<real>)
    requires ShortEdges(short) && |s| == LINES
    ensures |t| == LINES
  {
    if !gc.IsShort() then s
    else seq(LINES, k requires 0 <= k < LINES => if k < ReorderStart(short, gc.mixedBlock) then s[k] else s[SrcOfLine(short, k)])
  }

  /**
   * For short windows, line `sfb_short[b]*3 + i*3 + w` of every band from
   * `start_sfb` (3 for mixed blocks, else 0) takes line
   * `sfb_short[b]*3 + w*width + i`.
   */
  lemma ReorderMoves(gc: GranuleChannel, short: seq<nat>, s: seq<real>, b: nat, w: nat, i: nat)
    requires ShortEdges(short) && |s| == LINES && gc.IsShort()
    requires (if gc.mixedBlock then 3 else 0) <= b < 13 && w < 3 && i < Width(short, b)
    ensures Dst(short, b, w, i) < LINES && Src(short, b, w, i) < LINES
    ensures ReorderLines(gc, short, s)[Dst(short, b, w, i)] == s[Src(short, b, w, i)]
  {
    SrcOfDst(short, b, w, i);
    SrcInBand(short, b, w, i);
    assert short[b + 1] <= short[13];
    if gc.mixedBlock {
      assert short[3] <= short[b];
    }
  }

  /** Long blocks are left alone, and a mixed block keeps its lines below `sfb_short[3]*3`. */
  lemma ReorderKeeps(gc: GranuleChannel, short: seq<nat>, s: seq<real>, k: nat)
    requires ShortEdges(short) && |s| == LINES && k < LINES
    requires !gc.IsShort() || (gc.mixedBlock && k < short[3] * 3)
    ensures ReorderLines(gc, short, s)[k] == s[k]
  {
  }

  /** `reorder`: the lines become `ReorderLines` of the old lines. */
  method Reorder(gc: GranuleChannel, short: seq<nat>, samples: array<real>)
    requires ShortEdges(short) && samples.Length == LINES
    modifies samples
    ensures samples[..] == ReorderLines(gc, short, old(samples[..]))
  {
    if !gc.windowSwitching || gc.blockType != 2 {
      return;
    }
    ghost var s0 := samples[..];
    var temp := new real[LINES](k => 0.0);
    var startSfb := if gc.mixedBlock then 3 else 0;
    for sfb := startSfb to 13
      invariant samples[..] == s0
      invariant forall k :: 0 <= k < LINES ==>
        temp[k] == if short[startSfb] * 3 <= k < short[sfb] * 3 then s0[SrcOfLine(short, k)] else 0.0
    {
      assert short[startSfb] <= short[sfb];
      ReorderBand(samples, temp, short, sfb);
    }
    assert short[13] * 3 == LINES;
    var start := if gc.mixedBlock then short[3] * 3 else 0;
    forall k | start <= k < LINES {
      samples[k] := temp[k];
    }
  }

  /* ---------------------------------------------------------------- */
  /* alias_reduction                                                   */
  /* ---------------------------------------------------------------- */

  /** One butterfly: `(a * cs - b * ca, b * cs + a * ca)`. */
  function Butterfly(a: real, b: real, cs: real, ca: real): (real, real)
  {
    (a * cs - b * ca, b * cs + a * ca)
  }

  /** With `cs^2 + ca^2 = 1` (the coefficients of the standard), a butterfly is a rotation: it keeps the pair's energy. */
  lemma ButterflyEnergy(a: real, b: real, cs: real, ca: real)
    requires cs * cs + ca * ca == 1.0
    ensures var (x, y) := Butterfly(a, b, cs, ca); x * x + y * y == a * a + b * b
  {
    var (x, y) := Butterfly(a, b, cs, ca);
    assert x * x + y * y == (a * a + b * b) * (cs * cs + ca * ca);
  }

  /** With `cs^2 + ca^2 = 1`, the butterfly with `-ca` undoes it. */
  lemma ButterflyInverse(a: real, b: real, cs: real, ca: real)
    requires cs * cs + ca * ca == 1.0
    ensures var (x, y) := Butterfly(a, b, cs, ca); Butterfly(x, y, cs, -ca) == (a, b)
  {
    var (x, y) := Butterfly(a, b, cs, ca);
    calc {
      x * cs - y * -ca;
      (a * cs - b * ca) * cs + (b * cs + a * ca) * ca;
      a * (cs * cs + ca * ca);
      a * 1.0;
    }
    calc {
      y * cs + x * -ca;
      (b * cs + a * ca) * cs - (a * cs - b * ca) * ca;
      b * (cs * cs + ca * ca);
      b * 1.0;
    }
  }

  /** `idx1 = 18 * (sb + 1) - 1 - i`, below the boundary between subbands `sb` and `sb + 1`. */
  function Idx1(sb: nat, i: nat): int
  {
    18 * (sb + 1) - 1 - i
  }

  /** `idx2 = 18 * (sb + 1) + i`, above it. */
  function Idx2(sb: nat, i: nat): int
  {
    18 * (sb + 1) + i
  }

  /** `bands`: one subband boundary for window-switching mixed blocks, all 31 otherwise. */
  function AliasBoundaries(gc: GranuleChannel): nat
  {
    if gc.windowSwitching && gc.mixedBlock then 1 else 31
  }

  /**
   * Line `k` after the butterflies over the first `nb` boundaries: a line
   * `8..1` below boundary `q + 1` or `0..7` above boundary `q` pairs with its
   * mirror image; lines 8 and 9 of each subband and lines past the last
   * boundary keep their value.
   */
  function AliasLine(s: seq<real>, nb: nat, cs: seq<real>, ca: seq<real>, k: nat): real
    requires |s| == LINES && nb <= 31 && |cs| == 8 && |ca| == 8 && k < LINES
  {
    var q, r := k / 18, k % 18;
    if r >= 10 && q + 1 <= nb then Butterfly(s[k], s[k + 2 * (17 - r) + 1], cs[17 - r], ca[17 - r]).0
    else if r <= 7 && 1 <= q <= nb then Butterfly(s[k - 2 * r - 1], s[k], cs[r], ca[r]).1
    else s[k]
  }

  /** All lines after the butterflies over the first `nb` boundaries. */
  function AliasAll(s: seq<real>, nb: nat, cs: seq<real>, ca: seq<real>): (t: seq<real>)
    requires |s| == LINES && nb <= 31 && |cs| == 8 && |ca| == 8
    ensures |t| == LINES
  {
    seq(LINES, k requires 0 <= k < LINES => AliasLine(s, nb, cs, ca, k))
  }

  /** The pair at boundary `sb + 1` and distance `i` becomes `Butterfly` of its old values. */
  lemma AliasPair(s: seq<real>, nb: nat, cs: seq<real>, ca: seq<real>, sb: nat, i: nat)
    requires |s| == LINES && nb <= 31 && |cs| == 8 && |ca| == 8 && sb < nb && i < 8
    ensures 0 <= Idx1(sb, i) && Idx2(sb, i) < LINES
    ensures (AliasAll(s, nb, cs, ca)[Idx1(sb, i)], AliasAll(s, nb, cs, ca)[Idx2(sb, i)])
      == Butterfly(s[Idx1(sb, i)], s[Idx2(sb, i)], cs[i], ca[i])
  {
    var k1, k2 := Idx1(sb, i), Idx2(sb, i);
    assert k1 / 18 == sb && k1 % 18 == 17 - i;
    assert k2 / 18 == sb + 1 && k2 % 18 == i;
  }

  /** Every line either keeps its value or is the `idx1` or `idx2` of a boundary below `nb`. */
  lemma AliasOnlyPairs(s: seq<real>, nb: nat, cs: seq<real>, ca: seq<real>, k: nat)
    requires |s| == LINES && nb <= 31 && |cs| == 8 && |ca| == 8 && k < LINES
    ensures AliasAll(s, nb, cs, ca)[k] == s[k]
      || exists sb: nat, i: nat :: sb < nb && i < 8 && (k == Idx1(sb, i) || k == Idx2(sb, i))
  {
    var q, r := k / 18, k % 18;
    if r >= 10 && q + 1 <= nb {
      assert k == Idx1(q, 17 - r);
    } else if r <= 7 && 1 <= q <= nb {
      assert k == Idx2(q - 1, r);
    }
  }

  /** Before boundary `sb + 1` is processed its pair still holds the old values. */
  lemma AliasPairBefore(s: seq<real>, cs: seq<real>, ca: seq<real>, sb: nat, i: nat)
    requires |s| == LINES && sb < 31 && |cs| == 8 && |ca| == 8 && i < 8
    ensures 0 <= Idx1(sb, i) && Idx2(sb, i) < LINES
    ensures AliasLine(s, sb, cs, ca, Idx1(sb, i)) == s[Idx1(sb, i)] && AliasLine(s, sb, cs, ca, Idx2(sb, i)) == s[Idx2(sb, i)]
  {
    var k1, k2 := Idx1(sb, i), Idx2(sb, i);
    assert k1 / 18 == sb && k1 % 18 == 17 - i;
    assert k2 / 18 == sb + 1 && k2 % 18 == i;
  }

  /** Processing boundary `sb + 1` changes no line outside its sixteen. */
  lemma AliasLineStep(s: seq<real>, cs: seq<real>, ca: seq<real>, sb: nat, k: nat)
    requires |s| == LINES && sb < 31 && |cs| == 8 && |ca| == 8 && k < LINES
    requires !(18 * (sb + 1) - 8 <= k < 18 * (sb + 1) + 8)
    ensures AliasLine(s, sb + 1, cs, ca, k) == AliasLine(s, sb, cs, ca, k)
  {
  }

  /** Lines holding the butterflies of boundary `sb + 1` applied to `pre`, and elsewhere `pre`'s lines. */
  ghost predicate BoundaryDone(pre: seq<real>, post: seq<real>, cs: seq<real>, ca: seq<real>, sb: nat)
    requires |pre| == LINES && |post| == LINES && |cs| == 8 && |ca| == 8 && sb < 31
  {
    (forall j :: 0 <= j < 8 ==>
      (post[Idx1(sb, j)], post[Idx2(sb, j)]) == Butterfly(pre[Idx1(sb, j)], pre[Idx2(sb, j)], cs[j], ca[j]))
    && forall k :: 0 <= k < LINES && !(18 * (sb + 1) - 8 <= k < 18 * (sb + 1) + 8) ==> post[k] == pre[k]
  }

  /** Processing boundary `sb + 1` takes `AliasAll` over `sb` boundaries to `AliasAll` over `sb + 1`. */
  lemma AliasStep(s0: seq<real>, pre: seq<real>, post: seq<real>, cs: seq<real>, ca: seq<real>, sb: nat)
    requires |s0| == LINES && |pre| == LINES && |post| == LINES && |cs| == 8 && |ca| == 8 && sb < 31
    requires pre == AliasAll(s0, sb, cs, ca) && BoundaryDone(pre, post, cs, ca, sb)
    ensures post == AliasAll(s0, sb + 1, cs, ca)
  {
    forall k | 0 <= k < LINES
      ensures post[k] == AliasLine(s0, sb + 1, cs, ca, k)
    {
      if 18 * (sb + 1) - 8 <= k < 18 * (sb + 1) {
        var j := 18 * (sb + 1) - 1 - k;
        assert k == Idx1(sb, j);
        AliasPairBefore(s0, cs, ca, sb, j);
        AliasPair(s0, sb + 1, cs, ca, sb, j);
      } else if 18 * (sb + 1) <= k < 18 * (sb + 1) + 8 {
        var j := k - 18 * (sb + 1);
        assert k == Idx2(sb, j);
        AliasPairBefore(s0, cs, ca, sb, j);
        AliasPair(s0, sb + 1, cs, ca, sb, j);
      } else {
        AliasLineStep(s0, cs, ca, sb, k);
      }
    }
  }

  /** `for i in 0..8` at boundary `sb + 1`: its eight butterflies (the `idx2 >= 576` break never fires). */
  method AliasBoundary(samples: array<real>, cs: seq<real>, ca: seq<real>, sb: nat)
    requires samples.Length == LINES && |cs| == 8 && |ca| == 8 && sb < 31
    modifies samples
    ensures BoundaryDone(old(samples[..]), samples[..], cs, ca, sb)
  {
    ghost var pre := samples[..];
    for i := 0 to 8
      invariant forall j :: 0 <= j < i ==>
        (samples[Idx1(sb, j)], samples[Idx2(sb, j)]) == Butterfly(pre[Idx1(sb, j)], pre[Idx2(sb, j)], cs[j], ca[j])
      invariant forall k :: 0 <= k < LINES && !(18 * (sb + 1) - 1 - i < k < 18 * (sb + 1) + i) ==> samples[k] == pre[k]
    {
      var idx1 := 18 * (sb + 1) - 1 - i;
      var idx2 := 18 * (sb + 1) + i;
      if idx2 >= LINES {
        break;
      }
      assert idx1 == Idx1(sb, i) && idx2 == Idx2(sb, i);
      var a := samples[idx1];
      var b := samples[idx2];
      assert a == pre[idx1] && b == pre[idx2];
      ghost var before := samples[..];
      samples[idx1] := a * cs[i] - b * ca[i];
      samples[idx2] := b * cs[i] + a * ca[i];
      forall j | 0 <= j < i
        ensures samples[Idx1(sb, j)] == before[Idx1(sb, j)] && samples[Idx2(sb, j)] == before[Idx2(sb, j)]
      {
        assert idx1 < Idx1(sb, j) < Idx2(sb, j) < idx2;
      }
      assert samples[Idx1(sb, i)] == Butterfly(pre[Idx1(sb, i)], pre[Idx2(sb, i)], cs[i], ca[i]).0;
      assert samples[Idx2(sb, i)] == Butterfly(pre[Idx1(sb, i)], pre[Idx2(sb, i)], cs[i], ca[i]).1;
    }
  }

  /**
   * The lines after `alias_reduction`: unchanged for pure short blocks,
   * otherwise the butterflies over the first `AliasBoundaries(gc)` subband
   * boundaries.
   */
  function AliasOut(gc: GranuleChannel, cs: seq<real>, ca: seq<real>, s: seq<real>): (t: seq<real>)
    requires |s| == LINES && |cs| == 8 && |ca| == 8
    ensures |t| == LINES
  {
    if gc.IsShort() && !gc.mixedBlock then s else AliasAll(s, AliasBoundaries(gc), cs, ca)
  }

  /** `alias_reduction`: the lines become `AliasOut` of the old lines. */
  method AliasReduction(gc: GranuleChannel, cs: seq<real>, ca: seq<real>, samples: array<real>)
    requires samples.Length == LINES && |cs| == 8 && |ca| == 8
    modifies samples
    ensures samples[..] == AliasOut(gc, cs, ca, old(samples[..]))
  {
    if gc.windowSwitching && gc.blockType == 2 && !gc.mixedBlock {
      return;
    }
    var bands := if gc.windowSwitching && gc.mixedBlock then 1 else 31;
    ghost var s0 := samples[..];
    assert AliasAll(s0, 0, cs, ca) == s0;
    for sb := 0 to bands
      invariant samples[..] == AliasAll(s0, sb, cs, ca)
    {
      ghost var pre := samples[..];
      AliasBoundary(samples, cs, ca, sb);
      AliasStep(s0, pre, samples[..], cs, ca, sb);
    }
  }

  /* ---------------------------------------------------------------- */
  /* frequency_inversion                                               */
  /* ---------------------------------------------------------------- */

  /** Line `18 * sb + i` with `sb` and `i` both odd. */
  predicate Inverted(k: nat)
  {
    (k / 18) % 2 == 1 && (k % 18) % 2 == 1
  }

  /** The lines after `frequency_inversion`: the `Inverted` ones negated. */
  function FreqInv(s: seq<real>): (t: seq<real>)
    ensures |t| == |s|
  {
    seq(|s|, k requires 0 <= k < |s| => if Inverted(k) then -s[k] else s[k])
  }

  /** Frequency inversion undoes itself. */
  lemma FreqInvTwice(s: seq<real>)
    ensures FreqInv(FreqInv(s)) == s
  {
  }

  /** The `n`-th inverted line, `n < 144`: subband `2 * (n / 9) + 1`, line `2 * (n % 9) + 1`. */
  function InvertedLine(n: nat): nat
  {
    18 * (2 * (n / 9) + 1) + 2 * (n % 9) + 1
  }

  /*
   * Exactly 144 lines are inverted: the `InvertedLine(n)` for `n < 144` are
   * inverted lines below 576 (`InvertedLineIs`), in increasing order, so all
   * different (`InvertedLineIncreasing`), and there is no other
   * (`InvertedLineOnto`).
   */

  lemma InvertedLineIs(n: nat)
    requires n < 144
    ensures InvertedLine(n) < LINES && Inverted(InvertedLine(n))
  {
    var l := InvertedLine(n);
    assert l / 18 == 2 * (n / 9) + 1 && l % 18 == 2 * (n % 9) + 1;
  }

  lemma InvertedLineIncreasing(n: nat)
    requires n < 143
    ensures InvertedLine(n) < InvertedLine(n + 1)
  {
    if n % 9 < 8 {
      assert (n + 1) / 9 == n / 9 && (n + 1) % 9 == n % 9 + 1;
    } else {
      assert (n + 1) / 9 == n / 9 + 1 && (n + 1) % 9 == 0;
    }
  }

  lemma InvertedLineOnto(k: nat)
    requires k < LINES && Inverted(k)
    ensures exists n :: 0 <= n < 144 && InvertedLine(n) == k
  {
    var n := 9 * ((k / 18) / 2) + (k % 18) / 2;
    assert n / 9 == (k / 18) / 2 && n % 9 == (k % 18) / 2;
    assert InvertedLine(n) == k;
  }

  /** `for i in (1..18).step_by(2)` in subband `sb`: its odd lines negated. */
  method InvertSubband(samples: array<real>, sb: nat)
    requires samples.Length == LINES && sb < 32
    modifies samples
    ensures forall k :: 0 <= k < LINES ==>
      samples[k] == if k / 18 == sb && (k % 18) % 2 == 1 then -old(samples[k]) else old(samples[k])
  {
    var i := 1;
    ghost var m := 0;
    while i < 18
      invariant i == 2 * m + 1 && i <= 19
      invariant forall k :: 0 <= k < LINES ==>
        samples[k] == if k / 18 == sb && k % 18 < i && (k % 18) % 2 == 1 then -old(samples[k]) else old(samples[k])
    {
      assert (18 * sb + i) / 18 == sb && (18 * sb + i) % 18 == i;
      samples[sb * 18 + i] := -samples[sb * 18 + i];
      i, m := i + 2, m + 1;
    }
  }

  /** `frequency_inversion`: the lines become `FreqInv` of the old lines. */
  method FrequencyInversion(samples: array<real>)
    requires samples.Length == LINES
    modifies samples
    ensures samples[..] == FreqInv(old(samples[..]))
  {
    var sb := 1;
    ghost var m := 0;
    while sb < 32
      invariant sb == 2 * m + 1 && sb <= 33
      invariant forall k :: 0 <= k < LINES ==>
        samples[k] == if k / 18 < sb && Inverted(k) then -old(samples[k]) else old(samples[k])
    {
      InvertSubband(samples, sb);
      sb, m := sb + 2, m + 1;
    }
  }

  /* ---------------------------------------------------------------- */
  /* imdct                                                             */
  /* ---------------------------------------------------------------- */

  /**
   * `imdct_36` followed by `apply_window(output, block_type, mixed)`: 18
   * lines of a subband in, 36 windowed time samples out. The transform and
   * the windows are not part of this model; only the shape of their result is.
   */
  type Transform = (seq<real>, nat, bool) -> seq<real>

  ghost predicate TransformShape(f: Transform)
  {
    forall x: seq<real>, blockType: nat, mixed: bool :: |f(x, blockType, mixed)| == 36
  }

  /** `sb_block_type`: 0 for the two lowest subbands of a mixed block, the granule's block type otherwise. */
  function SbBlockType(gc: GranuleChannel, sb: nat): nat
  {
    if gc.mixedBlock && sb < 2 then 0 else gc.blockType
  }

  /** `out_sb`: the windowed transform of subband `sb`'s 18 lines. */
  function SubbandOut(f: Transform, s: seq<real>, gc: GranuleChannel, sb: nat): (out: seq<real>)
    requires TransformShape(f) && |s| == LINES && sb < SUBBANDS
    ensures |out| == 36
  {
    f(s[sb * SLOTS .. sb * SLOTS + SLOTS], SbBlockType(gc, sb), gc.mixedBlock)
  }

  /** The lines after `imdct`: each line's first-half output plus the carry `p` from the previous granule. */
  function ImdctLines(f: Transform, s: seq<real>, p: seq<real>, gc: GranuleChannel): (t: seq<real>)
    requires TransformShape(f) && |s| == LINES && |p| == LINES
    ensures |t| == LINES
  {
    seq(LINES, k requires 0 <= k < LINES => SubbandOut(f, s, gc, k / SLOTS)[k % SLOTS] + p[k])
  }

  /** The carry `imdct` leaves for the next granule: the second half of each subband's output. */
  function ImdctCarry(f: Transform, s: seq<real>, gc: GranuleChannel): (t: seq<real>)
    requires TransformShape(f) && |s| == LINES
    ensures |t| == LINES
  {
    seq(LINES, k requires 0 <= k < LINES => SubbandOut(f, s, gc, k / SLOTS)[k % SLOTS + SLOTS])
  }

  /** Line `18*sb + i` becomes `out_sb[i] + prev[18*sb + i]` and the carry there becomes `out_sb[i + 18]`. */
  lemma ImdctAt(f: Transform, s: seq<real>, p: seq<real>, gc: GranuleChannel, sb: nat, i: nat)
    requires TransformShape(f) && |s| == LINES && |p| == LINES && sb < SUBBANDS && i < SLOTS
    ensures sb * SLOTS + i < LINES
    ensures ImdctLines(f, s, p, gc)[sb * SLOTS + i] == SubbandOut(f, s, gc, sb)[i] + p[sb * SLOTS + i]
    ensures ImdctCarry(f, s, gc)[sb * SLOTS + i] == SubbandOut(f, s, gc, sb)[i + SLOTS]
  {
    var k := sb * SLOTS + i;
    assert k / SLOTS == sb && k % SLOTS == i;
  }

  /**
   * Over two granules the transform overlaps and adds: a line of the second
   * is its own first half plus the first granule's second half.
   */
  lemma ImdctOverlap(f: Transform, s1: seq<real>, s2: seq<real>, p: seq<real>, gc1: GranuleChannel, gc2: GranuleChannel, k: nat)
    requires TransformShape(f) && |s1| == LINES && |s2| == LINES && |p| == LINES && k < LINES
    ensures ImdctLines(f, s2, ImdctCarry(f, s1, gc1), gc2)[k]
      == SubbandOut(f, s2, gc2, k / SLOTS)[k % SLOTS] + SubbandOut(f, s1, gc1, k / SLOTS)[k % SLOTS + SLOTS]
  {
  }

  /** `s`, `p` are `s0`, `p0` after subband `sb`'s lines took `out[i] + prev` and its carry took `out[i + 18]`. */
  ghost predicate SubbandWritten(s0: seq<real>, p0: seq<real>, s: seq<real>, p: seq<real>, sb: nat, out: seq<real>)
    requires |s0| == LINES && |p0| == LINES && |s| == LINES && |p| == LINES && sb < SUBBANDS && |out| == 36
  {
    forall k :: 0 <= k < LINES ==>
      && s[k] == (if sb * SLOTS <= k < sb * SLOTS + SLOTS then out[k - sb * SLOTS] + p0[k] else s0[k])
      && p[k] == (if sb * SLOTS <= k < sb * SLOTS + SLOTS then out[k - sb * SLOTS + SLOTS] else p0[k])
  }

  /** The 18 lines of one subband: `samples` takes `out[i] + prev`, `prev` takes `out[i + 18]`. */
  method ImdctSubband(samples: array<real>, prev: array<real>, sb: nat, out: seq<real>)
    requires samples.Length == LINES && prev.Length == LINES && samples != prev && sb < SUBBANDS && |out| == 36
    modifies samples, prev
    ensures SubbandWritten(old(samples[..]), old(prev[..]), samples[..], prev[..], sb, out)
  {
    for i := 0 to SLOTS
      invariant forall k :: 0 <= k < LINES ==>
        && samples[k] == (if sb * SLOTS <= k < sb * SLOTS + i then out[k - sb * SLOTS] + old(prev[k]) else old(samples[k]))
        && prev[k] == (if sb * SLOTS <= k < sb * SLOTS + i then out[k - sb * SLOTS + SLOTS] else old(prev[k]))
    {
      samples[sb * SLOTS + i] := out[i] + prev[sb * SLOTS + i];
      prev[sb * SLOTS + i] := out[i + SLOTS];
    }
  }

  /** The first `n` subbands of `s`, `p` hold their transform (over `s0`, `p0`); the rest are untouched. */
  ghost predicate ImdctDone(f: Transform, s0: seq<real>, p0: seq<real>, gc: GranuleChannel, s: seq<real>, p: seq<real>, n: nat)
    requires TransformShape(f) && |s0| == LINES && |p0| == LINES && |s| == LINES && |p| == LINES
  {
    && (forall k :: 0 <= k < n * SLOTS && k < LINES ==> s[k] == SubbandOut(f, s0, gc, k / SLOTS)[k % SLOTS] + p0[k])
    && (forall k :: 0 <= k < n * SLOTS && k < LINES ==> p[k] == SubbandOut(f, s0, gc, k / SLOTS)[k % SLOTS + SLOTS])
    && (forall k :: n * SLOTS <= k < LINES ==> s[k] == s0[k] && p[k] == p0[k])
  }

  /** Transforming subband `sb` extends `ImdctDone` by one subband. */
  lemma ImdctStep(f: Transform, s0: seq<real>, p0: seq<real>, gc: GranuleChannel,
                  s: seq<real>, p: seq<real>, s': seq<real>, p': seq<real>, sb: nat)
    requires TransformShape(f) && |s0| == LINES && |p0| == LINES && |s| == LINES && |p| == LINES
    requires |s'| == LINES && |p'| == LINES && sb < SUBBANDS
    requires ImdctDone(f, s0, p0, gc, s, p, sb)
    requires SubbandWritten(s, p, s', p', sb, SubbandOut(f, s0, gc, sb))
    ensures ImdctDone(f, s0, p0, gc, s', p', sb + 1)
  {
    forall k | sb * SLOTS <= k < sb * SLOTS + SLOTS
      ensures k / SLOTS == sb && k % SLOTS == k - sb * SLOTS
    {
    }
  }

  /** Lines and carry that hold every subband's transform are `ImdctLines` and `ImdctCarry`. */
  lemma ImdctComplete(f: Transform, s0: seq<real>, p0: seq<real>, gc: GranuleChannel, s: seq<real>, p: seq<real>)
    requires TransformShape(f) && |s0| == LINES && |p0| == LINES && |s| == LINES && |p| == LINES
    requires ImdctDone(f, s0, p0, gc, s, p, SUBBANDS)
    ensures s == ImdctLines(f, s0, p0, gc) && p == ImdctCarry(f, s0, gc)
  {
  }

  /**
   * `imdct` for one channel, whose carry is `prev`: the lines become
   * `ImdctLines` and the carry `ImdctCarry`. A subband of block type 2 makes
   * the source index past its 36-sample buffer (`output[6 + window + i*3]`
   * with `i` up to 11), so callers must not pass a short block.
   */
  method Imdct(f: Transform, gc: GranuleChannel, samples: array<real>, prev: array<real>)
    requires TransformShape(f) && gc.blockType != 2
    requires samples.Length == LINES && prev.Length == LINES && samples != prev
    modifies samples, prev
    ensures samples[..] == ImdctLines(f, old(samples[..]), old(prev[..]), gc)
    ensures prev[..] == ImdctCarry(f, old(samples[..]), gc)
  {
    ghost var s0, p0 := samples[..], prev[..];
    for sb := 0 to SUBBANDS
      invariant ImdctDone(f, s0, p0, gc, samples[..], prev[..], sb)
    {
      var input := samples[sb * SLOTS .. sb * SLOTS + SLOTS];
      assert input == s0[sb * SLOTS .. sb * SLOTS + SLOTS];
      var sbBlockType := if gc.mixedBlock && sb < 2 then 0 else gc.blockType;
      var out := f(input, sbBlockType, gc.mixedBlock);
      ghost var s, p := samples[..], prev[..];
      ImdctSubband(samples, prev, sb, out);
      ImdctStep(f, s0, p0, gc, s, p, samples[..], prev[..], sb);
    }
    ImdctComplete(f, s0, p0, gc, samples[..], prev[..]);
  }
}
