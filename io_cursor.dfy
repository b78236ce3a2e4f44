/**
 * An in-memory byte buffer with a position (src/io/cursor.rs): readable,
 * writable when it owns a growable vector, and seekable.
 */
module IoCursor {
  import opened Wrappers
  import opened Ints
  import opened Messages
  import IoReader

  datatype SeekFrom = Start(offset: u64) | End(delta: i64) | Current(delta: i64)

  /** `pos as i64` for a `u64` position: the two's-complement reading of its bits. */
  function AsI64(x: u64): i64
  {
    WrapI64(x)
  }

  /**
   * The position a seek asks for, computed in `i64` as the source does:
   * `Start(n)` reinterprets `n`, the others add with wrap-around.
   */
  function SeekTarget(target: SeekFrom, len: nat, pos: u64): i64
  {
    match target
    case Start(n) => AsI64(n)
    case End(n) => WrapI64(WrapI64(len) + n)
    case Current(n) => WrapI64(AsI64(pos) + n)
  }

  /** What the vector holds after `buf` is written at `pos`: zero-padded up to `pos`, then overwritten or extended. */
  function Overwritten(inner: seq<u8>, pos: nat, buf: seq<u8>): (out: seq<u8>)
    ensures |out| == Max(|inner|, pos + |buf|)
  {
    var padded := if pos > |inner| then inner + seq(pos - |inner|, _ => 0) else inner;
    if pos + |buf| <= |padded| then padded[..pos] + buf + padded[pos + |buf|..]
    else padded[..pos] + buf
  }

  /**
   * What a write does to the vector: `buf` sits at `pos`, every other byte
   * that was there is kept, and a gap between the old end and `pos` is zeros.
   */
  lemma OverwrittenMeaning(inner: seq<u8>, pos: nat, buf: seq<u8>)
    ensures var out := Overwritten(inner, pos, buf);
      && out[pos..pos + |buf|] == buf
      && (forall k :: 0 <= k < |inner| && !(pos <= k < pos + |buf|) ==> out[k] == inner[k])
      && (forall k :: |inner| <= k < pos ==> out[k] == 0)
  {
    var padded := if pos > |inner| then inner + seq(pos - |inner|, _ => 0) else inner;
    assert forall k :: 0 <= k < |inner| ==> padded[k] == inner[k];
  }

  class Cursor {
    var inner: seq<u8>
    var pos: u64

    /** `Cursor::new`: starts at position 0. */
    constructor (inner: seq<u8>)
      ensures this.inner == inner && pos == 0
    {
      this.inner := inner;
      pos := 0;
    }

    function Position(): u64
      reads this
    {
      pos
    }

    method SetPosition(p: u64)
      modifies this
      ensures pos == p && inner == old(inner)
    {
      pos := p;
    }

    /**
     * `read`: copies bytes from the position on into `buf[from..]`; at or past
     * the end it copies nothing.  The vector is not changed.
     */
    method Read(buf: array<u8>, from: nat) returns (r: MsgResult<nat>)
      requires from <= buf.Length
      requires |inner| < U64_LIMIT
      modifies this, buf
      ensures inner == old(inner) && r.Ok?
      ensures old(pos) >= |inner| ==> r.value == 0 && pos == old(pos) && buf[..] == old(buf[..])
      ensures old(pos) < |inner| ==>
        r.value == Min(|inner| - old(pos), buf.Length - from)
        && buf[..] == old(buf[..from]) + inner[old(pos)..old(pos) + r.value] + old(buf[from + r.value..])
        && pos == old(pos) + r.value
    {
      if pos >= |inner| {
        return Ok(0);
      }
      var remaining := inner[pos..];
      var amt := Min(|remaining|, buf.Length - from);
      IoReader.CopyInto(buf, from, remaining[..amt]);
      pos := pos + amt;
      r := Ok(amt);
    }

    /**
     * `write` on a vector-backed cursor: pads with zeros up to the position,
     * overwrites what is there, appends the rest, and moves past it.
     * It always accepts the whole of `buf`.
     */
    method Write(buf: seq<u8>) returns (r: MsgResult<nat>)
      requires pos + |buf| < U64_LIMIT
      modifies this
      ensures r == Ok(|buf|)
      ensures inner == Overwritten(old(inner), old(pos), buf)
      ensures pos == old(pos) + |buf|
    {
      var p := pos;
      var len := |inner|;
      if p > len {
        inner := inner + seq(p - len, _ => 0);
      }
      var space := SaturatingSub(|inner|, p);
      var overwrite := Min(space, |buf|);
      inner := inner[..p] + buf[..overwrite] + inner[p + overwrite..];
      if |buf| > overwrite {
        inner := inner + buf[overwrite..];
      }
      WriteSteps(old(inner), p, buf);
      pos := pos + |buf|;
      r := Ok(|buf|);
    }

    /** `flush` does nothing. */
    method Flush() returns (r: MsgResult<()>)
      ensures r == Ok(())
    {
      r := Ok(());
    }

    /**
     * `seek`: moves to the requested position and returns it; a negative
     * target is refused and leaves the position where it was.
     */
    method Seek(target: SeekFrom) returns (r: MsgResult<u64>)
      modifies this
      ensures inner == old(inner)
      ensures SeekTarget(target, |inner|, old(pos)) < 0 ==>
        r == Err(ErrorMessage("seek to negative position")) && pos == old(pos)
      ensures SeekTarget(target, |inner|, old(pos)) >= 0 ==>
        pos == SeekTarget(target, |inner|, old(pos)) && r == Ok(pos)
    {
      var newPos := SeekTarget(target, |inner|, pos);
      if newPos < 0 {
        return Err(ErrorMessage("seek to negative position"));
      }
      pos := newPos;
      r := Ok(pos);
    }
  }

  /** A seek from the start to any offset below 2^63 lands exactly there. */
  lemma SeekStartExact(n: u64, len: nat, pos: u64)
    requires n < I64_LIMIT
    ensures SeekTarget(Start(n), len, pos) == n
  {
  }

  /** `Start(n)` with the top bit of `n` set reads as a negative `i64`, so that seek is refused. */
  lemma SeekStartHighBitRefused(n: u64, len: nat, pos: u64)
    requires n >= I64_LIMIT
    ensures SeekTarget(Start(n), len, pos) < 0
  {
  }

  /** Seeking by `Current(0)` reports the current position (below 2^63). */
  lemma SeekCurrentZeroIsPosition(len: nat, pos: u64)
    requires pos < I64_LIMIT
    ensures SeekTarget(Current(0), len, pos) == pos
  {
  }

  /** Seeking by `End(0)` on a vector shorter than 2^63 goes to its end. */
  lemma SeekEndZeroIsLength(len: nat, pos: u64)
    requires len < I64_LIMIT
    ensures SeekTarget(End(0), len, pos) == len
  {
  }

  /** Writing the bytes already stored at the position leaves the vector unchanged. */
  lemma {:induction false} RewriteSameBytesIsIdentity(inner: seq<u8>, pos: nat, n: nat)
    requires pos + n <= |inner|
    ensures Overwritten(inner, pos, inner[pos..pos + n]) == inner
  {
    var out := Overwritten(inner, pos, inner[pos..pos + n]);
    OverwrittenMeaning(inner, pos, inner[pos..pos + n]);
    assert |out| == |inner|;
    forall k | 0 <= k < |inner|
      ensures out[k] == inner[k]
    {
      if pos <= k < pos + n {
        assert out[k] == out[pos..pos + n][k - pos];
      }
    }
  }

  /** A later write over the same range wins: writing `a` then `b` at `pos`, with `|a| == |b|`, equals writing `b`. */
  lemma {:induction false} LastWriteWins(inner: seq<u8>, pos: nat, a: seq<u8>, b: seq<u8>)
    requires |a| == |b|
    ensures Overwritten(Overwritten(inner, pos, a), pos, b) == Overwritten(inner, pos, b)
  {
    var x := Overwritten(Overwritten(inner, pos, a), pos, b);
    var y := Overwritten(inner, pos, b);
    OverwrittenMeaning(inner, pos, a);
    OverwrittenMeaning(Overwritten(inner, pos, a), pos, b);
    OverwrittenMeaning(inner, pos, b);
    assert |x| == |y|;
    forall k | 0 <= k < |x|
      ensures x[k] == y[k]
    {
      if pos <= k < pos + |b| {
        assert x[k] == x[pos..pos + |b|][k - pos];
        assert y[k] == y[pos..pos + |b|][k - pos];
      }
    }
  }

  /** The steps of `write` (pad, overwrite in place, append the rest) produce `Overwritten`. */
  lemma WriteSteps(inner: seq<u8>, p: nat, buf: seq<u8>)
    ensures var padded := if p > |inner| then inner + seq(p - |inner|, _ => 0) else inner;
      var overwrite := Min(SaturatingSub(|padded|, p), |buf|);
      var placed := padded[..p] + buf[..overwrite] + padded[p + overwrite..];
      (if |buf| > overwrite then placed + buf[overwrite..] else placed) == Overwritten(inner, p, buf)
  {
    var padded := if p > |inner| then inner + seq(p - |inner|, _ => 0) else inner;
    var overwrite := Min(SaturatingSub(|padded|, p), |buf|);
    if |buf| > overwrite {
      assert padded[p + overwrite..] == [];
      assert buf[..overwrite] + buf[overwrite..] == buf;
    } else {
      assert buf[..overwrite] == buf;
    }
  }

  /** Two writes in a row, the second where the first stopped, are one write of both. */
  lemma {:induction false} ConsecutiveWrites(inner: seq<u8>, pos: nat, a: seq<u8>, b: seq<u8>)
    ensures Overwritten(Overwritten(inner, pos, a), pos + |a|, b) == Overwritten(inner, pos, a + b)
  {
    var mid := Overwritten(inner, pos, a);
    var x := Overwritten(mid, pos + |a|, b);
    var y := Overwritten(inner, pos, a + b);
    OverwrittenMeaning(inner, pos, a);
    OverwrittenMeaning(mid, pos + |a|, b);
    OverwrittenMeaning(inner, pos, a + b);
    assert |x| == |y|;
    forall k | 0 <= k < |x|
      ensures x[k] == y[k]
    {
      if pos <= k < pos + |a| {
        assert mid[k] == mid[pos..pos + |a|][k - pos];
        assert y[k] == y[pos..pos + |a| + |b|][k - pos];
      } else if pos + |a| <= k < pos + |a| + |b| {
        assert x[k] == x[pos + |a|..pos + |a| + |b|][k - pos - |a|];
        assert y[k] == y[pos..pos + |a| + |b|][k - pos];
      }
    }
  }

  /** A write at the end of the vector appends. */
  lemma AppendingWrite(inner: seq<u8>, buf: seq<u8>)
    ensures Overwritten(inner, |inner|, buf) == inner + buf
  {
  }

  /** Overwriting bytes in the middle of the vector with as many new ones replaces just those. */
  lemma OverwriteInside(x: seq<u8>, was: seq<u8>, y: seq<u8>, now: seq<u8>)
    requires |was| == |now|
    ensures Overwritten(x + was + y, |x|, now) == x + now + y
  {
    var out := Overwritten(x + was + y, |x|, now);
    OverwrittenMeaning(x + was + y, |x|, now);
    assert |out| == |x + now + y|;
    forall k | 0 <= k < |out|
      ensures out[k] == (x + now + y)[k]
    {
      if |x| <= k < |x| + |now| {
        assert out[k] == out[|x|..|x| + |now|][k - |x|];
      }
    }
  }

  /**
   * What a run of `write` calls delivering `buf` leaves in the vector: no
   * call at all for an empty `buf`, otherwise `buf` written at `pos`.
   */
  function Written(inner: seq<u8>, pos: nat, buf: seq<u8>): seq<u8>
  {
    if |buf| == 0 then inner else Overwritten(inner, pos, buf)
  }

  /** Writes that follow on from each other compose into one. */
  lemma WrittenConsecutive(inner: seq<u8>, pos: nat, a: seq<u8>, b: seq<u8>)
    ensures Written(Written(inner, pos, a), pos + |a|, b) == Written(inner, pos, a + b)
  {
    if |a| == 0 {
      assert a + b == b;
    } else if |b| == 0 {
      assert a + b == a;
    } else {
      ConsecutiveWrites(inner, pos, a, b);
    }
  }

  /**
   * `write_all` on a vector-backed cursor: the loop of src/io/writer.rs:11-21,
   * which here ends after one call since the cursor takes the whole buffer.
   * An empty buffer makes no call, so it does not pad a cursor placed past the end.
   */
  method WriteAll(c: Cursor, buf: seq<u8>) returns (r: MsgResult<()>)
    requires c.pos + |buf| < U64_LIMIT
    modifies c
    ensures r == Ok(())
    ensures c.inner == Written(old(c.inner), old(c.pos), buf)
    ensures c.pos == old(c.pos) + |buf|
  {
    if buf != [] {
      var n := c.Write(buf);
    }
    r := Ok(());
  }
}
