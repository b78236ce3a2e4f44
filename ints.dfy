/**
 * Fixed-width integers of the Rust source.  Dafny integers are unbounded,
 * so every width is a subset type and every wrap-around or saturation the
 * source relies on is written out.
 */
module Ints {
  const U8_LIMIT: int := 0x100
  const U16_LIMIT: int := 0x1_0000
  const U32_LIMIT: int := 0x1_0000_0000
  const U64_LIMIT: int := 0x1_0000_0000_0000_0000
  const I64_LIMIT: int := 0x8000_0000_0000_0000

  type u8 = x: int | 0 <= x < 0x100
  type u16 = x: int | 0 <= x < 0x1_0000
  type u32 = x: int | 0 <= x < 0x1_0000_0000
  type u64 = x: int | 0 <= x < 0x1_0000_0000_0000_0000
  type i64 = x: int | -0x8000_0000_0000_0000 <= x < 0x8000_0000_0000_0000
  type i16 = x: int | -0x8000 <= x < 0x8000

  function Min(a: int, b: int): int { if a <= b then a else b }

  function Max(a: int, b: int): int { if a >= b then a else b }

  /** `x as u16` (and wrapping u16 arithmetic): keep the low 16 bits. */
  function WrapU16(x: int): u16 { x % U16_LIMIT }

  /** `x as u32` (and wrapping u32 arithmetic): keep the low 32 bits. */
  function WrapU32(x: int): u32 { x % U32_LIMIT }

  /** Wrapping u64 (`usize`) arithmetic: keep the low 64 bits. */
  function WrapU64(x: int): u64 { x % U64_LIMIT }

  /** Wrapping i64 arithmetic: the two's-complement value of the low 64 bits. */
  function WrapI64(x: int): i64
  {
    var low := x % U64_LIMIT;
    if low < I64_LIMIT then low else low - U64_LIMIT
  }

  /** `u32::saturating_mul`. */
  function SaturatingMulU32(a: u32, b: u32): u32
  {
    if a * b < U32_LIMIT then a * b else U32_LIMIT - 1
  }

  /** A factor of at least 1 does not make a natural number smaller. */
  lemma MulAtLeast(x: nat, c: nat)
    requires c >= 1
    ensures x * c >= x
  {
    var k := c - 1;
    assert x * c == x + x * k;
  }

  /** The quotient of `n` by `d` is the number of whole `d`s in `n`. */
  lemma DivBounds(n: nat, d: nat)
    requires d > 0
    ensures 0 <= n / d <= n
    ensures (n / d) * d <= n < (n / d + 1) * d
  {
    var q, r := n / d, n % d;
    assert n == q * d + r && 0 <= r < d;
    MulAtLeast(q, d);
    assert (q + 1) * d == q * d + d;
  }

  /** One more factor adds one more `u`. */
  lemma MulSucc(n: int, u: int)
    ensures (n + 1) * u == n * u + u
  {
  }

  /** Products of three factors in either grouping. */
  lemma ProductRegroup(a: int, b: int, n: int)
    ensures a * b * n == n * (b * a)
  {
  }

  /** Two saturating `u32` products amount to one saturation of the full product. */
  lemma SaturatingMulTwice(a: u32, b: u32, c: u32)
    ensures SaturatingMulU32(SaturatingMulU32(a, b), c) == Min(a * b * c, U32_LIMIT - 1)
  {
    var ab := a * b;
    assert a * b * c == ab * c;
    if ab >= U32_LIMIT && c >= 1 {
      MulAtLeast(ab, c);
      MulAtLeast(U32_LIMIT - 1, c);
    }
  }

  /** `usize::saturating_sub`. */
  function SaturatingSub(a: nat, b: nat): nat { if a >= b then a - b else 0 }

  /** The decimal digit `d` as a character. */
  function DigitChar(d: nat): char
    requires d < 10
  {
    "0123456789"[d]
  }

  /** `format!("{}", n)` for an unsigned integer: its decimal digits, most significant first. */
  function Decimal(n: nat): (s: string)
    ensures |s| >= 1
    ensures forall i :: 0 <= i < |s| ==> '0' <= s[i] <= '9'
    decreases n
  {
    if n < 10 then [DigitChar(n)] else Decimal(n / 10) + [DigitChar(n % 10)]
  }
}
