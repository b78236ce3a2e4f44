/**
 * `requantize` of the Layer III decoder (`src/codecs/mp3/layer3.rs`): every
 * non-zero line `v` of a granule channel becomes
 * `sign(v) * |v|^(4/3) * 2^(exp / 4)`, with an exponent made of the global
 * gain, the subblock gain of its window (short blocks) and its scale factor
 * (plus the pre-emphasis of its band in long blocks).
 *
 * The loops are modelled as written: each `for i in start..end` over a
 * long band is a `Range` pass, each `(start..end).step_by(3)` over one
 * window of a short band is a `Window` pass, and the nesting of the band
 * and window loops fixes the order of the passes. `f32` arithmetic is
 * modelled on reals, and `powf` is a parameter.
 */
module Mp3Requantize {
  import opened Ints
  import opened Mp3SideInfo

  /** `f32::powf`, left to the platform. */
  type Pow = (real, real) -> real

  /** What the model needs of `powf`: a positive base has a positive power. */
  ghost predicate ValidPow(powf: Pow)
  {
    forall x: real, y: real :: x > 0.0 ==> powf(x, y) > 0.0
  }

  function Abs(v: real): real
  {
    if v < 0.0 then -v else v
  }

  /** `-1`, `0` or `1` by the sign of `v`. */
  function Sign(v: real): real
  {
    if v > 0.0 then 1.0 else if v < 0.0 then -1.0 else 0.0
  }

  /** One line: zero stays zero, any other value is `sign * |v|^(4/3) * 2^(exp * 0.25)`. */
  function Requant(v: real, exp: real, powf: Pow): real
  {
    if v == 0.0 then v else Sign(v) * powf(Abs(v), 4.0 / 3.0) * powf(2.0, exp * 0.25)
  }

  /** With a `powf` that keeps positive bases positive, a line keeps its sign (and zero stays zero). */
  lemma RequantSign(v: real, exp: real, powf: Pow)
    requires ValidPow(powf)
    ensures Sign(Requant(v, exp, powf)) == Sign(v)
  {
    if v != 0.0 {
      var m, g := powf(Abs(v), 4.0 / 3.0), powf(2.0, exp * 0.25);
      assert m > 0.0 && g > 0.0;
      assert m * g > 0.0;
    }
  }

  /** The scale factors of one channel: three windows of 22 bands. */
  predicate SfShape(sf: seq<seq<u8>>)
  {
    |sf| == 3 && forall w :: 0 <= w < 3 ==> |sf[w]| == 22
  }

  /** `scalefac_scale`: a step of 1 or of 0.5 per scale-factor unit. */
  function ScaleStep(gc: GranuleChannel): real
  {
    if gc.scalefacScale then 1.0 else 0.5
  }

  /** `PRETAB[b]` when `preflag` is set, 0 otherwise. */
  function Pre(gc: GranuleChannel, pretab: seq<nat>, b: nat): real
    requires b < |pretab|
  {
    if gc.preflag then pretab[b] as real else 0.0
  }

  /** The exponent of long band `sfb` (indices capped at 21). */
  function LongExp(gc: GranuleChannel, sf: seq<seq<u8>>, pretab: seq<nat>, sfb: nat): real
    requires SfShape(sf) && |pretab| == 22
  {
    var b := Min(sfb, 21);
    gc.globalGain as real - 210.0 - ScaleStep(gc) * (sf[0][b] as real + Pre(gc, pretab, b))
  }

  /** The exponent of long band `sfb < 8` of a mixed block: it also takes the subblock gain of window 0. */
  function MixedLongExp(gc: GranuleChannel, sf: seq<seq<u8>>, pretab: seq<nat>, sfb: nat): real
    requires SfShape(sf) && |pretab| == 22 && sfb < 22
  {
    gc.globalGain as real - 210.0 - 8.0 * gc.SubblockGain(0) as real - ScaleStep(gc) * (sf[0][sfb] as real + Pre(gc, pretab, sfb))
  }

  /** The exponent of window `w` of short band `b`. */
  function WindowExp(gc: GranuleChannel, sf: seq<seq<u8>>, w: nat, b: nat): real
    requires SfShape(sf) && w < 3 && b < 22
  {
    gc.globalGain as real - 210.0 - 8.0 * gc.SubblockGain(w) as real - ScaleStep(gc) * sf[w][b] as real
  }

  /**
   * One innermost loop: `Range` requantizes every line of `start..end`;
   * `Window` every third line from `start` below `end`, skipping lines past
   * 575 (the guard `i < 576` of the mixed-block loop; the other short-block
   * loops stop at 576 anyway).
   */
  datatype Pass = Range(start: nat, end: nat, exp: real) | Window(start: nat, end: nat, exp: real)

  /** Line `k` is one the pass requantizes. */
  predicate Hits(p: Pass, k: nat)
  {
    match p
    case Range(start, end, _) => start <= k < end
    case Window(start, end, _) => start <= k < end && k < LINES && (k - start) % 3 == 0
  }

  /** The lines after one pass. */
  function ApplyPass(s: seq<real>, p: Pass, powf: Pow): (t: seq<real>)
    ensures |t| == |s|
  {
    seq(|s|, k requires 0 <= k < |s| => if Hits(p, k) then Requant(s[k], p.exp, powf) else s[k])
  }

  /** The lines after the passes, in order. */
  function ApplyAll(s: seq<real>, ps: seq<Pass>, powf: Pow): (t: seq<real>)
    ensures |t| == |s|
  {
    if ps == [] then s else ApplyPass(ApplyAll(s, ps[..|ps| - 1], powf), ps[|ps| - 1], powf)
  }

  /** One more pass after a prefix of the passes. */
  lemma ApplyAllStep(s: seq<real>, ps: seq<Pass>, n: nat, powf: Pow)
    requires n < |ps|
    ensures ApplyAll(s, ps[..n + 1], powf) == ApplyPass(ApplyAll(s, ps[..n], powf), ps[n], powf)
  {
    assert ps[..n + 1][..n] == ps[..n];
  }

  /** Passes one after the other. */
  lemma {:induction false} ApplyAllAppend(s: seq<real>, a: seq<Pass>, b: seq<Pass>, powf: Pow)
    ensures ApplyAll(s, a + b, powf) == ApplyAll(ApplyAll(s, a, powf), b, powf)
    decreases |b|
  {
    if b == [] {
      assert a + b == a;
    } else {
      var b' := b[..|b| - 1];
      assert (a + b)[..|a + b| - 1] == a + b';
      ApplyAllAppend(s, a, b', powf);
    }
  }

  /** The long-block loop `for sfb in 0..22`: band `sfb` up to its end capped at 576. */
  function LongPasses(gc: GranuleChannel, bands: Bands, sf: seq<seq<u8>>, pretab: seq<nat>): (ps: seq<Pass>)
    requires ValidBands(bands) && SfShape(sf) && |pretab| == 22
    ensures |ps| == 22
  {
    seq(22, sfb requires 0 <= sfb < 22 =>
      Range(bands.long[sfb], Min(bands.long[sfb + 1], LINES), LongExp(gc, sf, pretab, sfb)))
  }

  /** The first loop of a mixed block, `for sfb in 0..8`: long bands with no cap. */
  function MixedLongPasses(gc: GranuleChannel, bands: Bands, sf: seq<seq<u8>>, pretab: seq<nat>): (ps: seq<Pass>)
    requires ValidBands(bands) && SfShape(sf) && |pretab| == 22
    ensures |ps| == 8
  {
    seq(8, sfb requires 0 <= sfb < 8 =>
      Range(bands.long[sfb], bands.long[sfb + 1], MixedLongExp(gc, sf, pretab, sfb)))
  }

  /** Window `w` of short band `sfb` in a mixed block: scale factor `[w][sfb]`, end not capped. */
  function MixedShortPass(gc: GranuleChannel, bands: Bands, sf: seq<seq<u8>>, sfb: nat, w: nat): Pass
    requires |bands.short| == 14 && SfShape(sf) && sfb < 13 && w < 3
  {
    Window(bands.short[sfb] * 3 + w, bands.short[sfb + 1] * 3 + w, WindowExp(gc, sf, w, sfb))
  }

  /** Window `w` of short band `sfb` in a short block: scale factor `[w][min(sfb, 11)]`, end capped at 576. */
  function ShortPass(gc: GranuleChannel, bands: Bands, sf: seq<seq<u8>>, sfb: nat, w: nat): Pass
    requires |bands.short| == 14 && SfShape(sf) && sfb < 13 && w < 3
  {
    Window(bands.short[sfb] * 3 + w, Min(bands.short[sfb + 1] * 3 + w, LINES), WindowExp(gc, sf, w, Min(sfb, 11)))
  }

  /** `for sfb in lo..13 { for window in 0..3 { .. } }`, in that order. */
  function WindowPasses(gc: GranuleChannel, bands: Bands, sf: seq<seq<u8>>, lo: nat, mixed: bool): (ps: seq<Pass>)
    requires |bands.short| == 14 && SfShape(sf) && lo <= 13
    ensures |ps| == 3 * (13 - lo)
  {
    seq(3 * (13 - lo), n requires 0 <= n < 3 * (13 - lo) =>
      if mixed then MixedShortPass(gc, bands, sf, lo + n / 3, n % 3) else ShortPass(gc, bands, sf, lo + n / 3, n % 3))
  }

  /** All passes of `requantize` for the block type of `gc`. */
  function Passes(gc: GranuleChannel, bands: Bands, sf: seq<seq<u8>>, pretab: seq<nat>): seq<Pass>
    requires ValidBands(bands) && SfShape(sf) && |pretab| == 22
  {
    if gc.IsShort() then
      if gc.mixedBlock then MixedLongPasses(gc, bands, sf, pretab) + WindowPasses(gc, bands, sf, 3, true)
      else WindowPasses(gc, bands, sf, 0, false)
    else LongPasses(gc, bands, sf, pretab)
  }

  /** With a `powf` that keeps positive bases positive, requantizing keeps every line's sign; zero lines stay zero. */
  lemma {:induction false} ApplyAllSign(s: seq<real>, ps: seq<Pass>, powf: Pow)
    requires ValidPow(powf)
    ensures forall k :: 0 <= k < |s| ==> Sign(ApplyAll(s, ps, powf)[k]) == Sign(s[k])
  {
    if ps != [] {
      ApplyAllSign(s, ps[..|ps| - 1], powf);
      var t := ApplyAll(s, ps[..|ps| - 1], powf);
      forall k | 0 <= k < |s|
        ensures Sign(ApplyAll(s, ps, powf)[k]) == Sign(s[k])
      {
        RequantSign(t[k], ps[|ps| - 1].exp, powf);
      }
    }
  }

  /** The band `b` whose lines `e[b] .. e[b + 1]` hold line `k`, searching from band `from`. */
  function BandFrom(e: seq<nat>, count: nat, last: nat, k: nat, from: nat): (b: nat)
    requires Edges(e, count, last) && k < last && from + 1 < count && e[from] <= k
    ensures from <= b && b + 1 < count && e[b] <= k < e[b + 1]
    decreases count - from
  {
    if k < e[from + 1] then from else BandFrom(e, count, last, k, from + 1)
  }

  /** The band of line `k`. */
  function BandOf(e: seq<nat>, count: nat, last: nat, k: nat): (b: nat)
    requires Edges(e, count, last) && k < last
    ensures b + 1 < count && e[b] <= k < e[b + 1]
  {
    BandFrom(e, count, last, k, 0)
  }

  /** Non-decreasing edges put each line in one band only. */
  lemma BandUnique(e: seq<nat>, count: nat, last: nat, k: nat, b: nat)
    requires Edges(e, count, last) && k < last && b + 1 < count && e[b] <= k < e[b + 1]
    ensures BandOf(e, count, last, k) == b
  {
  }

  /** Passes over the long bands `0 .. |ps|` in order, each from its band's start to its end. */
  predicate LongBandRun(e: seq<nat>, ps: seq<Pass>)
    requires Edges(e, 23, LINES)
  {
    |ps| <= 22 && forall i :: 0 <= i < |ps| ==> ps[i] == Range(e[i], e[i + 1], ps[i].exp)
  }

  /**
   * After the first `n` passes of a run over the long bands, the lines below
   * `e[n]` carry the exponent of the band they lie in, and the rest are
   * untouched.
   */
  lemma {:induction false} LongPrefix(e: seq<nat>, ps: seq<Pass>, s: seq<real>, powf: Pow, n: nat)
    requires Edges(e, 23, LINES) && LongBandRun(e, ps) && |s| == LINES && n <= |ps|
    ensures forall k :: 0 <= k < LINES ==>
      ApplyAll(s, ps[..n], powf)[k]
      == if k < e[n] && BandOf(e, 23, LINES, k) < n then Requant(s[k], ps[BandOf(e, 23, LINES, k)].exp, powf) else s[k]
  {
    if n == 0 {
      assert ps[..0] == [];
    } else {
      LongPrefix(e, ps, s, powf, n - 1);
      ApplyAllStep(s, ps, n - 1, powf);
      var t := ApplyAll(s, ps[..n - 1], powf);
      assert ps[n - 1] == Range(e[n - 1], e[n], ps[n - 1].exp);
      forall k | 0 <= k < LINES
        ensures ApplyAll(s, ps[..n], powf)[k]
          == if k < e[n] && BandOf(e, 23, LINES, k) < n then Requant(s[k], ps[BandOf(e, 23, LINES, k)].exp, powf) else s[k]
      {
        assert ApplyAll(s, ps[..n], powf)[k] == if e[n - 1] <= k < e[n] then Requant(t[k], ps[n - 1].exp, powf) else t[k];
        if e[n - 1] <= k < e[n] {
          BandUnique(e, 23, LINES, k, n - 1);
        }
      }
    }
  }

  /** The long-block passes cover the long bands one after the other. */
  lemma LongPassesRun(gc: GranuleChannel, bands: Bands, sf: seq<seq<u8>>, pretab: seq<nat>)
    requires ValidBands(bands) && SfShape(sf) && |pretab| == 22
    ensures LongBandRun(bands.long, LongPasses(gc, bands, sf, pretab))
    ensures forall i :: 0 <= i < 22 ==> LongPasses(gc, bands, sf, pretab)[i].exp == LongExp(gc, sf, pretab, i)
  {
    var e := bands.long;
    forall i | 0 <= i < 22
      ensures LongPasses(gc, bands, sf, pretab)[i] == Range(e[i], e[i + 1], LongExp(gc, sf, pretab, i))
    {
      assert e[i + 1] <= e[22];
    }
  }

  /**
   * In a long block every one of the 576 lines is requantized exactly once,
   * with the exponent of the long band it lies in.
   */
  lemma LongRequantize(gc: GranuleChannel, bands: Bands, sf: seq<seq<u8>>, pretab: seq<nat>, s: seq<real>, powf: Pow)
    requires ValidBands(bands) && SfShape(sf) && |pretab| == 22 && |s| == LINES && !gc.IsShort()
    ensures forall k :: 0 <= k < LINES ==>
      ApplyAll(s, Passes(gc, bands, sf, pretab), powf)[k]
      == Requant(s[k], LongExp(gc, sf, pretab, BandOf(bands.long, 23, LINES, k)), powf)
  {
    var ps := LongPasses(gc, bands, sf, pretab);
    LongPassesRun(gc, bands, sf, pretab);
    LongPrefix(bands.long, ps, s, powf, 22);
    assert ps[..22] == ps;
  }

  /** The pass for window `w` of short band `sfb`, in a mixed block or a short one. */
  function ShortBandPass(gc: GranuleChannel, bands: Bands, sf: seq<seq<u8>>, mixed: bool, sfb: nat, w: nat): Pass
    requires |bands.short| == 14 && SfShape(sf) && sfb < 13 && w < 3
  {
    if mixed then MixedShortPass(gc, bands, sf, sfb, w) else ShortPass(gc, bands, sf, sfb, w)
  }

  /** The short band of line `k`: the band of its position `k / 3` within its window. */
  function ShortBandOf(bands: Bands, k: nat): (b: nat)
    requires Edges(bands.short, 14, 192) && k < LINES
    ensures b < 13
  {
    BandOf(bands.short, 14, 192, k / 3)
  }

  /** Every third line from `a * 3 + w` below `b * 3 + w` is a line of window `w` whose position lies in `a .. b`. */
  lemma ThirdLines(a: nat, b: nat, w: nat, k: nat)
    requires w < 3
    ensures (a * 3 + w <= k < b * 3 + w && (k - (a * 3 + w)) % 3 == 0) <==> (a <= k / 3 < b && k % 3 == w)
  {
  }

  /** Below line 576, a short-band pass hits every third line of its window from the band's start to its end. */
  lemma WindowPassLines(gc: GranuleChannel, bands: Bands, sf: seq<seq<u8>>, mixed: bool, sfb: nat, w: nat, k: nat)
    requires |bands.short| == 14 && SfShape(sf) && sfb < 13 && w < 3 && k < LINES
    ensures Hits(ShortBandPass(gc, bands, sf, mixed, sfb, w), k)
      <==> bands.short[sfb] * 3 + w <= k < bands.short[sfb + 1] * 3 + w && (k - (bands.short[sfb] * 3 + w)) % 3 == 0
  {
  }

  /** A short-band pass hits exactly the lines of its window (`k % 3`) whose position `k / 3` lies in its band. */
  lemma WindowHit(gc: GranuleChannel, bands: Bands, sf: seq<seq<u8>>, mixed: bool, sfb: nat, w: nat, k: nat)
    requires Edges(bands.short, 14, 192) && SfShape(sf) && sfb < 13 && w < 3 && k < LINES
    ensures Hits(ShortBandPass(gc, bands, sf, mixed, sfb, w), k) <==> ShortBandOf(bands, k) == sfb && k % 3 == w
  {
    var e := bands.short;
    var inBand := e[sfb] <= k / 3 < e[sfb + 1];
    assert Hits(ShortBandPass(gc, bands, sf, mixed, sfb, w), k) <==> inBand && k % 3 == w by {
      WindowPassLines(gc, bands, sf, mixed, sfb, w, k);
      ThirdLines(e[sfb], e[sfb + 1], w, k);
    }
    assert inBand <==> ShortBandOf(bands, k) == sfb by {
      if inBand {
        BandUnique(e, 14, 192, k / 3, sfb);
      }
    }
  }

  /** The exponent a short-block line gets from its window and band (scale factor index capped at 11 outside mixed blocks). */
  function ShortLineExp(gc: GranuleChannel, bands: Bands, sf: seq<seq<u8>>, mixed: bool, k: nat): real
    requires Edges(bands.short, 14, 192) && SfShape(sf) && k < LINES
  {
    var b := ShortBandOf(bands, k);
    WindowExp(gc, sf, k % 3, if mixed then b else Min(b, 11))
  }

  /**
   * After the first `n` window passes from band `lo`, a line whose window
   * and band come up at pass index below `n` carries their exponent, and
   * every other line is untouched.
   */
  lemma {:induction false} WindowPrefix(gc: GranuleChannel, bands: Bands, sf: seq<seq<u8>>, lo: nat, mixed: bool,
                                        s: seq<real>, powf: Pow, n: nat)
    requires Edges(bands.short, 14, 192) && SfShape(sf) && lo <= 13 && |s| == LINES && n <= 3 * (13 - lo)
    ensures forall k :: 0 <= k < LINES ==>
      ApplyAll(s, WindowPasses(gc, bands, sf, lo, mixed)[..n], powf)[k]
      == if lo <= ShortBandOf(bands, k) && 3 * (ShortBandOf(bands, k) - lo) + k % 3 < n
         then Requant(s[k], ShortLineExp(gc, bands, sf, mixed, k), powf) else s[k]
  {
    var ps := WindowPasses(gc, bands, sf, lo, mixed);
    if n == 0 {
      assert ps[..0] == [];
    } else {
      WindowPrefix(gc, bands, sf, lo, mixed, s, powf, n - 1);
      ApplyAllStep(s, ps, n - 1, powf);
      var t := ApplyAll(s, ps[..n - 1], powf);
      var sfb, w := lo + (n - 1) / 3, (n - 1) % 3;
      assert ps[n - 1] == ShortBandPass(gc, bands, sf, mixed, sfb, w);
      forall k | 0 <= k < LINES
        ensures ApplyAll(s, ps[..n], powf)[k]
          == if lo <= ShortBandOf(bands, k) && 3 * (ShortBandOf(bands, k) - lo) + k % 3 < n
             then Requant(s[k], ShortLineExp(gc, bands, sf, mixed, k), powf) else s[k]
      {
        WindowHit(gc, bands, sf, mixed, sfb, w, k);
        assert ApplyAll(s, ps[..n], powf)[k]
          == if Hits(ps[n - 1], k) then Requant(t[k], ps[n - 1].exp, powf) else t[k];
      }
    }
  }

  /**
   * In a short block (not mixed) every one of the 576 lines is requantized
   * exactly once, with the exponent of its window `k % 3` and of the short
   * band its position `k / 3` lies in.
   */
  lemma ShortRequantize(gc: GranuleChannel, bands: Bands, sf: seq<seq<u8>>, pretab: seq<nat>, s: seq<real>, powf: Pow)
    requires ValidBands(bands) && SfShape(sf) && |pretab| == 22 && |s| == LINES && gc.IsShort() && !gc.mixedBlock
    ensures forall k :: 0 <= k < LINES ==>
      ApplyAll(s, Passes(gc, bands, sf, pretab), powf)[k] == Requant(s[k], ShortLineExp(gc, bands, sf, false, k), powf)
  {
    WindowPrefix(gc, bands, sf, 0, false, s, powf, 39);
    assert WindowPasses(gc, bands, sf, 0, false)[..39] == WindowPasses(gc, bands, sf, 0, false);
  }

  /** The first loop of a mixed block covers the first eight long bands one after the other. */
  lemma MixedLongPassesRun(gc: GranuleChannel, bands: Bands, sf: seq<seq<u8>>, pretab: seq<nat>)
    requires ValidBands(bands) && SfShape(sf) && |pretab| == 22
    ensures LongBandRun(bands.long, MixedLongPasses(gc, bands, sf, pretab))
    ensures forall i :: 0 <= i < 8 ==> MixedLongPasses(gc, bands, sf, pretab)[i].exp == MixedLongExp(gc, sf, pretab, i)
  {
  }

  /**
   * In a mixed block a line of the first eight long bands is requantized with
   * the exponent of its long band (subblock gain of window 0 included), and
   * then a line of short band 3 or above with the exponent of its window and
   * short band. A line in both (when the eighth long band ends after short
   * band 3 starts) is requantized twice; a line in neither is untouched.
   */
  lemma MixedRequantize(gc: GranuleChannel, bands: Bands, sf: seq<seq<u8>>, pretab: seq<nat>, s: seq<real>, powf: Pow)
    requires ValidBands(bands) && SfShape(sf) && |pretab| == 22 && |s| == LINES && gc.IsShort() && gc.mixedBlock
    ensures forall k :: 0 <= k < LINES ==>
      var b := BandOf(bands.long, 23, LINES, k);
      var a := if b < 8 then Requant(s[k], MixedLongExp(gc, sf, pretab, b), powf) else s[k];
      ApplyAll(s, Passes(gc, bands, sf, pretab), powf)[k]
      == if 3 <= ShortBandOf(bands, k) then Requant(a, ShortLineExp(gc, bands, sf, true, k), powf) else a
  {
    var e := bands.long;
    var ps := MixedLongPasses(gc, bands, sf, pretab);
    MixedLongPassesRun(gc, bands, sf, pretab);
    LongPrefix(e, ps, s, powf, 8);
    assert ps[..8] == ps;
    var t := ApplyAll(s, ps, powf);
    forall k | 0 <= k < LINES
      ensures t[k] == if BandOf(e, 23, LINES, k) < 8 then Requant(s[k], MixedLongExp(gc, sf, pretab, BandOf(e, 23, LINES, k)), powf) else s[k]
    {
      var b := BandOf(e, 23, LINES, k);
      if b < 8 {
        assert e[b + 1] <= e[8];
      }
    }
    ApplyAllAppend(s, ps, WindowPasses(gc, bands, sf, 3, true), powf);
    WindowPrefix(gc, bands, sf, 3, true, t, powf, 30);
    assert WindowPasses(gc, bands, sf, 3, true)[..30] == WindowPasses(gc, bands, sf, 3, true);
  }

  /** One requantized line, as the loops write it. */
  function RequantLine(v: real, exp: real, powf: Pow): (r: real)
    ensures v == 0.0 ==> r == 0.0
  {
    if v != 0.0 then Requant(v, exp, powf) else v
  }

  /** `for i in start..end { if samples[i] != 0.0 { .. } }`. */
  method ScaleRange(samples: array<real>, start: nat, end: nat, exp: real, powf: Pow)
    requires samples.Length == LINES && end <= LINES
    modifies samples
    ensures samples[..] == ApplyPass(old(samples[..]), Range(start, end, exp), powf)
  {
    var i := start;
    while i < end
      invariant start <= i && (i == start || i <= end)
      invariant forall k :: 0 <= k < LINES ==>
        samples[k] == if start <= k < i then Requant(old(samples[k]), exp, powf) else old(samples[k])
    {
      if samples[i] != 0.0 {
        samples[i] := RequantLine(samples[i], exp, powf);
      }
      i := i + 1;
    }
  }

  /** `for i in (start..end).step_by(3) { if i < 576 && samples[i] != 0.0 { .. } }`. */
  method ScaleWindow(samples: array<real>, start: nat, end: nat, exp: real, powf: Pow)
    requires samples.Length == LINES
    modifies samples
    ensures samples[..] == ApplyPass(old(samples[..]), Window(start, end, exp), powf)
  {
    var i := start;
    while i < end
      invariant start <= i && (i - start) % 3 == 0
      invariant forall k :: 0 <= k < LINES ==>
        samples[k] == if start <= k < i && k < end && (k - start) % 3 == 0 then Requant(old(samples[k]), exp, powf)
                      else old(samples[k])
    {
      if i < LINES && samples[i] != 0.0 {
        samples[i] := RequantLine(samples[i], exp, powf);
      }
      i := i + 3;
    }
  }

  /**
   * `requantize`: the band loops of the block type of `gc`, each line of a
   * band scaled by its band's exponent. The lines end as `Passes` leaves
   * them.
   */
  method Requantize(gc: GranuleChannel, bands: Bands, sf: seq<seq<u8>>, pretab: seq<nat>, powf: Pow,
                    samples: array<real>)
    requires ValidBands(bands) && SfShape(sf) && |pretab| == 22 && samples.Length == LINES
    modifies samples
    ensures samples[..] == ApplyAll(old(samples[..]), Passes(gc, bands, sf, pretab), powf)
  {
    ghost var s0 := samples[..];
    if gc.windowSwitching && gc.blockType == 2 {
      if gc.mixedBlock {
        ghost var ps := MixedLongPasses(gc, bands, sf, pretab);
        for sfb := 0 to 8
          invariant samples[..] == ApplyAll(s0, ps[..sfb], powf)
        {
          ApplyAllStep(s0, ps, sfb, powf);
          ScaleRange(samples, bands.long[sfb], bands.long[sfb + 1], MixedLongExp(gc, sf, pretab, sfb), powf);
        }
        assert ps[..8] == ps;
        ScaleWindows(gc, bands, sf, 3, true, powf, samples);
        ApplyAllAppend(s0, ps, WindowPasses(gc, bands, sf, 3, true), powf);
      } else {
        ScaleWindows(gc, bands, sf, 0, false, powf, samples);
      }
    } else {
      ghost var ps := LongPasses(gc, bands, sf, pretab);
      for sfb := 0 to 22
        invariant samples[..] == ApplyAll(s0, ps[..sfb], powf)
      {
        ApplyAllStep(s0, ps, sfb, powf);
        ScaleRange(samples, bands.long[sfb], Min(bands.long[sfb + 1], LINES), LongExp(gc, sf, pretab, sfb), powf);
      }
      assert ps[..22] == ps;
    }
  }

  /** The pass of window `w` of short band `sfb` sits at `3 * (sfb - lo) + w`. */
  lemma WindowPassAt(gc: GranuleChannel, bands: Bands, sf: seq<seq<u8>>, lo: nat, mixed: bool, sfb: nat, w: nat)
    requires |bands.short| == 14 && SfShape(sf) && lo <= sfb < 13 && w < 3
    ensures 3 * (sfb - lo) + w < 3 * (13 - lo)
    ensures WindowPasses(gc, bands, sf, lo, mixed)[3 * (sfb - lo) + w]
      == if mixed then MixedShortPass(gc, bands, sf, sfb, w) else ShortPass(gc, bands, sf, sfb, w)
  {
    var n := 3 * (sfb - lo) + w;
    assert n / 3 == sfb - lo && n % 3 == w;
  }

  /** The innermost loop for window `w` of short band `sfb`. */
  method ScaleWindowOf(gc: GranuleChannel, bands: Bands, sf: seq<seq<u8>>, lo: nat, mixed: bool, sfb: nat, w: nat,
                       powf: Pow, samples: array<real>)
    requires |bands.short| == 14 && SfShape(sf) && lo <= sfb < 13 && w < 3 && samples.Length == LINES
    modifies samples
    ensures 3 * (sfb - lo) + w < 3 * (13 - lo)
    ensures samples[..] == ApplyPass(old(samples[..]), WindowPasses(gc, bands, sf, lo, mixed)[3 * (sfb - lo) + w], powf)
  {
    WindowPassAt(gc, bands, sf, lo, mixed, sfb, w);
    var start := bands.short[sfb] * 3 + w;
    if mixed {
      ScaleWindow(samples, start, bands.short[sfb + 1] * 3 + w, WindowExp(gc, sf, w, sfb), powf);
    } else {
      ScaleWindow(samples, start, Min(bands.short[sfb + 1] * 3 + w, LINES), WindowExp(gc, sf, w, Min(sfb, 11)), powf);
    }
  }

  /** The window loop `for window in 0..3` of short band `sfb`: three more passes. */
  method ScaleBandWindows(gc: GranuleChannel, bands: Bands, sf: seq<seq<u8>>, lo: nat, mixed: bool, sfb: nat, powf: Pow,
                          samples: array<real>, ghost s0: seq<real>)
    requires |bands.short| == 14 && SfShape(sf) && lo <= sfb < 13 && samples.Length == LINES
    requires samples[..] == ApplyAll(s0, WindowPasses(gc, bands, sf, lo, mixed)[..3 * (sfb - lo)], powf)
    modifies samples
    ensures samples[..] == ApplyAll(s0, WindowPasses(gc, bands, sf, lo, mixed)[..3 * (sfb - lo) + 3], powf)
  {
    ghost var ps := WindowPasses(gc, bands, sf, lo, mixed);
    ghost var n := 3 * (sfb - lo);
    for w := 0 to 3
      invariant n == 3 * (sfb - lo) + w
      invariant samples[..] == ApplyAll(s0, ps[..n], powf)
    {
      ScaleWindowOf(gc, bands, sf, lo, mixed, sfb, w, powf, samples);
      ApplyAllStep(s0, ps, n, powf);
      n := n + 1;
    }
  }

  /** The short-band loops `for sfb in lo..13 { for window in 0..3 { .. } }`. */
  method ScaleWindows(gc: GranuleChannel, bands: Bands, sf: seq<seq<u8>>, lo: nat, mixed: bool, powf: Pow,
                      samples: array<real>)
    requires |bands.short| == 14 && SfShape(sf) && lo <= 13 && samples.Length == LINES
    modifies samples
    ensures samples[..] == ApplyAll(old(samples[..]), WindowPasses(gc, bands, sf, lo, mixed), powf)
  {
    ghost var s0 := samples[..];
    ghost var ps := WindowPasses(gc, bands, sf, lo, mixed);
    assert ps[..0] == [];
    for sfb := lo to 13
      invariant samples[..] == ApplyAll(s0, ps[..3 * (sfb - lo)], powf)
    {
      ScaleBandWindows(gc, bands, sf, lo, mixed, sfb, powf, samples, s0);
    }
    assert ps[..3 * (13 - lo)] == ps;
  }
}
