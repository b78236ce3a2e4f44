/**
 * The bit cursor the Layer III decoder reads its main data and side
 * information through (`BitReader` in the MP3 codec; its source is not part
 * of this model). It is modelled as the usual MSB-first reader over the
 * bits of a byte buffer: `read_bits(n)` yields the next `n` bits as an
 * unsigned number and fails, without moving, when fewer than `n` remain.
 */
module Mp3Bits {
  import opened Wrappers
  import opened Ints

  function Pow2(n: nat): (p: nat)
    ensures p >= 1
  {
    if n == 0 then 1 else 2 * Pow2(n - 1)
  }

  /** The `n` low bits of `b`, most significant first. */
  function ByteBits(b: nat, n: nat): (bits: seq<bool>)
    ensures |bits| == n
  {
    if n == 0 then [] else ByteBits(b / 2, n - 1) + [b % 2 == 1]
  }

  /** The bits of a byte buffer, each byte most significant bit first. */
  function BytesBits(data: seq<u8>): (bits: seq<bool>)
    ensures |bits| == 8 * |data|
  {
    if data == [] then [] else ByteBits(data[0], 8) + BytesBits(data[1..])
  }

  /** The unsigned number a bit string spells, most significant bit first. */
  function BitsValue(bits: seq<bool>): (v: nat)
    ensures v < Pow2(|bits|)
  {
    if bits == [] then 0 else 2 * BitsValue(bits[..|bits| - 1]) + (if bits[|bits| - 1] then 1 else 0)
  }

  /** Reading back the `n` bits of a number below `2^n` gives the number. */
  lemma {:induction false} ByteBitsValue(b: nat, n: nat)
    requires b < Pow2(n)
    ensures BitsValue(ByteBits(b, n)) == b
  {
    if n > 0 {
      var bits := ByteBits(b, n);
      assert bits[..n - 1] == ByteBits(b / 2, n - 1);
      ByteBitsValue(b / 2, n - 1);
    }
  }

  /** Bytes are below `2^8`. */
  lemma ByteBound(b: u8)
    ensures b < Pow2(BYTE)
  {
    assert Pow2(BYTE) == 2 * 2 * 2 * 2 * 2 * 2 * 2 * 2;
  }

  /** Eight bits per byte. */
  const BYTE: nat := 8

  /** The bits of byte `k` of the buffer are the eight bits of that byte. */
  lemma {:induction false} BytesBitsSlice(data: seq<u8>, k: nat)
    requires k < |data|
    ensures BytesBits(data)[8 * k .. 8 * k + 8] == ByteBits(data[k], BYTE)
  {
    if k == 0 {
      assert BytesBits(data)[..8] == ByteBits(data[0], BYTE);
    } else {
      BytesBitsSlice(data[1..], k - 1);
      assert BytesBits(data)[8 * k .. 8 * k + 8] == BytesBits(data[1..])[8 * (k - 1) .. 8 * (k - 1) + 8];
    }
  }

  /** Each byte of the buffer reads back from its own eight bits. */
  lemma BytesBitsByte(data: seq<u8>, k: nat)
    requires k < |data|
    ensures BitsValue(BytesBits(data)[8 * k .. 8 * k + 8]) == data[k]
  {
    BytesBitsSlice(data, k);
    ByteBound(data[k]);
    ByteBitsValue(data[k], BYTE);
  }

  class BitReader {
    /** The bits of the buffer the reader was made over. */
    const bits: seq<bool>
    /** The index of the next bit to read. */
    var pos: nat

    /** The position never passes the end. */
    predicate Valid()
      reads this
    {
      pos <= |bits|
    }

    /** `BitReader::new(data)`: positioned at the first bit. */
    constructor (data: seq<u8>)
      ensures bits == BytesBits(data) && pos == 0 && Valid()
    {
      bits := BytesBits(data);
      pos := 0;
    }

    /** `read_bits(n)`: the next `n` bits as a number, or `None` when fewer than `n` remain. */
    method ReadBits(n: nat) returns (v: Option<nat>)
      requires Valid()
      modifies this
      ensures Valid()
      ensures v.Some? <==> old(pos) + n <= |bits|
      ensures v.Some? ==> pos == old(pos) + n && v.value == BitsValue(bits[old(pos)..old(pos) + n])
      ensures v.Some? ==> v.value < Pow2(n)
      ensures v.None? ==> pos == old(pos)
    {
      if pos + n > |bits| {
        return None;
      }
      v := Some(BitsValue(bits[pos..pos + n]));
      pos := pos + n;
    }
  }
}
