/**
 * Byte sources, the primitives read on top of them, and the buffered reader
 * and writer (src/io/reader.rs).
 *
 * `MediaRead` is a trait whose implementations may deliver fewer bytes than
 * asked for, or fail.  `Source` stands for any of them: `data` holds the bytes
 * it has not delivered yet and a script says how each call answers.  With an
 * empty script it delivers as much as fits, which is exactly the `&[u8]`
 * reader.  A read into `(buf, from)` fills the Rust sub-slice `buf[from..]`.
 */
module IoReader {
  import opened Wrappers
  import opened Ints
  import opened Messages
  import opened IoWriter

  const DEFAULT_BUFFER_SIZE: nat := 8192

  /** How a source answers one call of `read`. */
  datatype ReadStep = Deliver(max: nat) | Fail(err: Message)

  class Source {
    var data: seq<u8>
    var script: seq<ReadStep>

    constructor (data: seq<u8>, script: seq<ReadStep>)
      ensures this.data == data && this.script == script
    {
      this.data := data;
      this.script := script;
    }

    /**
     * `read`: copies the next bytes into `buf[from..]` and returns how many.
     * Unscripted, it copies `min(remaining, room)` bytes: the `&[u8]` reader.
     */
    method Read(buf: array<u8>, from: nat) returns (r: MsgResult<nat>)
      requires from <= buf.Length
      modifies this, buf
      ensures script == Rest(old(script))
      ensures r.Ok? ==>
        r.value <= buf.Length - from && r.value <= |old(data)|
        && data == old(data)[r.value..]
        && buf[..] == old(buf[..from]) + old(data)[..r.value] + old(buf[from + r.value..])
      ensures old(script) == [] ==> r == Ok(Min(|old(data)|, buf.Length - from))
      ensures old(script) != [] && old(script)[0].Deliver? ==>
        r == Ok(Min(old(script)[0].max, Min(|old(data)|, buf.Length - from)))
      ensures old(script) != [] && old(script)[0].Fail? ==>
        r == Err(old(script)[0].err) && data == old(data) && buf[..] == old(buf[..])
    {
      var n := Min(|data|, buf.Length - from);
      if script != [] {
        match script[0] {
          case Fail(e) =>
            script := script[1..];
            return Err(e);
          case Deliver(max) =>
            n := Min(max, n);
        }
        script := script[1..];
      }
      forall i | 0 <= i < n {
        buf[from + i] := data[i];
      }
      assert buf[..] == old(buf[..from]) + data[..n] + old(buf[from + n..]);
      data := data[n..];
      r := Ok(n);
    }
  }

  /**
   * `read_exact`: reads until `buf` is full.  A read that delivers nothing is
   * "unexpected EOF"; a failing read ends it with that failure.
   */
  method ReadExact(src: Source, buf: array<u8>) returns (r: MsgResult<()>)
    modifies src, buf
    ensures r.Ok? ==>
      buf.Length <= |old(src.data)|
      && buf[..] == old(src.data)[..buf.Length]
      && src.data == old(src.data)[buf.Length..]
    ensures |old(src.data)| < buf.Length ==> r.Err?
    ensures old(src.script) == [] ==> (r.Ok? <==> buf.Length <= |old(src.data)|)
    ensures r.Err? ==> r.error == ErrorMessage("unexpected EOF") || Fail(r.error) in old(src.script)
    ensures old(src.script) == [] ==> src.script == []
  {
    var filled := 0;
    ghost var used := 0;
    while filled < buf.Length
      invariant filled <= buf.Length && filled <= |old(src.data)|
      invariant buf[..filled] == old(src.data)[..filled]
      invariant src.data == old(src.data)[filled..]
      invariant used <= |old(src.script)| && src.script == old(src.script)[used..]
      invariant old(src.script) == [] ==> src.script == []
      decreases buf.Length - filled
    {
      ghost var prefix := buf[..filled];
      var res := src.Read(buf, filled);
      if src.script != old(src.script)[used..] {
        used := used + 1;
      }
      match res
      case Err(e) =>
        assert Fail(e) == old(src.script)[used - 1];
        return Err(e);
      case Ok(n) =>
        if n == 0 {
          return Err(ErrorMessage("unexpected EOF"));
        }
        assert buf[..filled + n] == prefix + old(src.data)[filled..][..n];
        assert old(src.data)[..filled + n] == old(src.data)[..filled] + old(src.data)[filled..][..n];
        filled := filled + n;
    }
    return Ok(());
  }

  /** The number 256 to the power `n`: one more than the largest `n`-byte value. */
  function Pow256(n: nat): (p: nat)
    ensures p >= 1
  {
    if n == 0 then 1 else 256 * Pow256(n - 1)
  }

  /** `from_le_bytes` of an unsigned type. */
  function FromLe(bytes: seq<u8>): nat
  {
    if bytes == [] then 0 else bytes[0] + 256 * FromLe(bytes[1..])
  }

  /** `from_be_bytes` of an unsigned type. */
  function FromBe(bytes: seq<u8>): nat
  {
    if bytes == [] then 0 else 256 * FromBe(bytes[..|bytes| - 1]) + bytes[|bytes| - 1]
  }

  function Decode(bytes: seq<u8>, order: ByteOrder): nat
  {
    match order
    case LittleEndian => FromLe(bytes)
    case BigEndian => FromBe(bytes)
  }

  /** Half the range of `n` bytes: the bound of the signed `n`-byte values. */
  function Half(n: nat): int
  {
    Pow256(n) / 2
  }

  /** Reinterprets an `n`-byte unsigned value as two's complement: `as i8`, `from_le_bytes` of a signed type. */
  function ToSigned(u: nat, n: nat): int
  {
    if u < Half(n) then u else u - Pow256(n)
  }

  lemma MulAtLeast(m: int, d: int)
    requires m > 0 && d >= 1
    ensures m * d >= m
  {
  }

  lemma DivModUnique(x: int, q: int, r: int, m: int)
    requires m > 0 && 0 <= r < m && x == m * q + r
    ensures x / m == q && x % m == r
  {
    var q0, r0 := x / m, x % m;
    assert m * q0 + r0 == x;
    assert m * (q - q0) == r0 - r;
    if q > q0 {
      MulAtLeast(m, q - q0);
    } else if q < q0 {
      MulAtLeast(m, q0 - q);
    }
  }

  /** Splitting off the lowest byte: the remainder modulo `256 * p` is rebuilt from the byte and the rest. */
  lemma ModOfShifted(v: int, p: nat)
    requires p >= 1
    ensures 256 * ((v / 256) % p) + v % 256 == v % (256 * p)
  {
    var q := (v / 256) / p;
    var low := (v / 256) % p;
    assert v / 256 == p * q + low;
    assert v == 256 * (v / 256) + v % 256;
    assert v == (256 * p) * q + (256 * low + v % 256);
    DivModUnique(v, q, 256 * low + v % 256, 256 * p);
  }

  /** An `n`-byte value is below 256 to the power `n`. */
  lemma {:induction false} DecodedBound(bytes: seq<u8>)
    ensures FromLe(bytes) < Pow256(|bytes|)
    ensures FromBe(bytes) < Pow256(|bytes|)
    decreases |bytes|
  {
    if bytes != [] {
      DecodedBound(bytes[1..]);
      DecodedBound(bytes[..|bytes| - 1]);
    }
  }

  /** Decoding what `to_le_bytes` wrote gives back the value modulo 256 to the power `n`. */
  lemma {:induction false} LeRoundTrip(v: int, n: nat)
    ensures FromLe(LeBytes(v, n)) == v % Pow256(n)
    decreases n
  {
    if n > 0 {
      LeRoundTrip(v / 256, n - 1);
      var bytes := LeBytes(v, n);
      assert bytes[1..] == LeBytes(v / 256, n - 1);
      ModOfShifted(v, Pow256(n - 1));
    }
  }

  /** Decoding what `to_be_bytes` wrote gives back the value modulo 256 to the power `n`. */
  lemma {:induction false} BeRoundTrip(v: int, n: nat)
    ensures FromBe(BeBytes(v, n)) == v % Pow256(n)
    decreases n
  {
    if n > 0 {
      BeRoundTrip(v / 256, n - 1);
      var bytes := BeBytes(v, n);
      assert bytes[..n - 1] == BeBytes(v / 256, n - 1);
      assert bytes[n - 1] == v % 256;
      ModOfShifted(v, Pow256(n - 1));
    }
  }

  /** Encoding a decoded little-endian value gives back the same bytes. */
  lemma {:induction false} LeBytesOfDecoded(bytes: seq<u8>)
    ensures LeBytes(FromLe(bytes), |bytes|) == bytes
    decreases |bytes|
  {
    if bytes != [] {
      var v := FromLe(bytes);
      DivModUnique(v, FromLe(bytes[1..]), bytes[0], 256);
      LeBytesOfDecoded(bytes[1..]);
      assert bytes == [bytes[0]] + bytes[1..];
    }
  }

  /** Encoding a decoded big-endian value gives back the same bytes. */
  lemma {:induction false} BeBytesOfDecoded(bytes: seq<u8>)
    ensures BeBytes(FromBe(bytes), |bytes|) == bytes
    decreases |bytes|
  {
    if bytes != [] {
      var k := |bytes| - 1;
      var v := FromBe(bytes);
      DivModUnique(v, FromBe(bytes[..k]), bytes[k], 256);
      BeBytesOfDecoded(bytes[..k]);
      assert bytes == bytes[..k] + [bytes[k]];
    }
  }

  /** Signed values written by `write_iN_*` read back unchanged with `read_iN_*`. */
  lemma SignedRoundTrip(v: int, n: nat, order: ByteOrder)
    requires n > 0 && -Half(n) <= v < Half(n)
    ensures ToSigned(Decode(Encode(v, n, order), order), n) == v
  {
    LeRoundTrip(v, n);
    BeRoundTrip(v, n);
    var p := Pow256(n);
    assert p == 256 * Pow256(n - 1);
    if v < 0 {
      DivModUnique(v, -1, v + p, p);
    } else {
      DivModUnique(v, 0, v, p);
    }
  }

  /** Unsigned values in range read back unchanged. */
  lemma UnsignedRoundTrip(v: nat, n: nat, order: ByteOrder)
    requires v < Pow256(n)
    ensures Decode(Encode(v, n, order), order) == v
  {
    LeRoundTrip(v, n);
    BeRoundTrip(v, n);
    DivModUnique(v, 0, v, Pow256(n));
  }

  /**
   * `read_u8` … `read_u64_le` (src/io/reader.rs:22-68): `size` bytes read
   * exactly, decoded in the requested order.
   */
  method ReadUInt(src: Source, size: nat, order: ByteOrder) returns (r: MsgResult<nat>)
    modifies src
    ensures r.Ok? ==>
      size <= |old(src.data)| && r.value == Decode(old(src.data)[..size], order)
      && src.data == old(src.data)[size..] && r.value < Pow256(size)
    ensures old(src.script) == [] ==> (r.Ok? <==> size <= |old(src.data)|)
    ensures r.Err? ==> r.error == ErrorMessage("unexpected EOF") || Fail(r.error) in old(src.script)
    ensures old(src.script) == [] ==> src.script == []
  {
    var buf := new u8[size](_ => 0);
    var res := ReadExact(src, buf);
    if res.Err? {
      return Err(res.error);
    }
    DecodedBound(buf[..]);
    r := Ok(Decode(buf[..], order));
  }

  /** `read_i8` … `read_i64_le` (src/io/reader.rs:70-117): the same bytes read as two's complement. */
  method ReadInt(src: Source, size: nat, order: ByteOrder) returns (r: MsgResult<int>)
    requires size > 0
    modifies src
    ensures r.Ok? ==>
      size <= |old(src.data)| && r.value == ToSigned(Decode(old(src.data)[..size], order), size)
      && src.data == old(src.data)[size..]
      && -Half(size) <= r.value < Half(size)
    ensures old(src.script) == [] ==> (r.Ok? <==> size <= |old(src.data)|)
    ensures r.Err? ==> r.error == ErrorMessage("unexpected EOF") || Fail(r.error) in old(src.script)
    ensures old(src.script) == [] ==> src.script == []
  {
    var u := ReadUInt(src, size, order);
    if u.Err? {
      return Err(u.error);
    }
    assert Pow256(size) == 256 * Pow256(size - 1);
    r := Ok(ToSigned(u.value, size));
  }

  /** `buf[from..from + |chunk|].copy_from_slice(chunk)`. */
  method CopyInto(buf: array<u8>, from: nat, chunk: seq<u8>)
    requires from + |chunk| <= buf.Length
    modifies buf
    ensures buf[..] == old(buf[..from]) + chunk + old(buf[from + |chunk|..])
  {
    forall i | 0 <= i < |chunk| {
      buf[from + i] := chunk[i];
    }
    assert buf[..] == old(buf[..from]) + chunk + old(buf[from + |chunk|..]);
  }

  /** Handing out `amt` bytes of the buffered part of a stream leaves the rest of both. */
  lemma HandOut(stream: seq<u8>, chunk: seq<u8>, rest: seq<u8>, amt: nat)
    requires stream == chunk + rest && amt <= |chunk|
    ensures stream[..amt] == chunk[..amt] && stream[amt..] == chunk[amt..] + rest
  {
  }

  /**
   * `BufferedReader`: a fixed buffer of `capacity` bytes in front of a source.
   * `pos..filled` is the part of the buffer not handed out yet.
   */
  class BufferedReader {
    const capacity: nat
    const inner: Source
    const buffer: array<u8>
    var pos: nat
    var filled: nat

    ghost predicate Valid()
      reads this
    {
      buffer.Length == capacity && pos <= filled <= capacity
    }

    /** `buffer()`: the bytes read from the source and not handed out yet. */
    function Buffered(): seq<u8>
      reads this, buffer
      requires Valid()
    {
      buffer[pos..filled]
    }

    /** Everything the reader can still hand out, in order: the buffered bytes, then the source's. */
    ghost function Stream(): seq<u8>
      reads this, buffer, inner
      requires Valid()
    {
      Buffered() + inner.data
    }

    constructor (inner: Source, capacity: nat)
      ensures Valid() && this.inner == inner && this.capacity == capacity
      ensures Buffered() == [] && fresh(buffer)
    {
      this.inner := inner;
      this.capacity := capacity;
      buffer := new u8[capacity](_ => 0);
      pos, filled := 0, 0;
    }

    /** `consume`: hands out up to `amt` buffered bytes, never past `filled`. */
    method Consume(amt: nat)
      requires Valid()
      modifies this
      ensures Valid() && filled == old(filled)
      ensures pos == Min(old(pos) + amt, filled)
      ensures Buffered() == old(Buffered())[Min(amt, |old(Buffered())|)..]
    {
      pos := Min(pos + amt, filled);
    }

    /** `discard_buffer`: forgets the buffered bytes. */
    method DiscardBuffer()
      requires Valid()
      modifies this
      ensures Valid() && pos == 0 && filled == 0
    {
      pos, filled := 0, 0;
    }

    /**
     * `fill_buf`: when nothing is buffered, refills the buffer with one read
     * of the source; returns the buffered bytes.  The stream is unchanged.
     */
    method FillBuf() returns (r: MsgResult<seq<u8>>)
      requires Valid()
      modifies this, buffer, inner
      ensures Valid() && Stream() == old(Stream())
      ensures r.Ok? ==> r.value == Buffered()
      ensures old(pos) < old(filled) ==>
        r == Ok(old(Buffered())) && pos == old(pos) && filled == old(filled)
        && inner.data == old(inner.data) && inner.script == old(inner.script)
      ensures old(pos) >= old(filled) && old(inner.script) == [] ==>
        r.Ok? && |r.value| == Min(capacity, |old(inner.data)|)
    {
      if pos >= filled {
        DiscardBuffer();
        var n := inner.Read(buffer, 0);
        if n.Err? {
          return Err(n.error);
        }
        filled := n.value;
        assert buffer[..filled] == old(inner.data)[..filled];
        assert old(inner.data) == buffer[..filled] + inner.data;
      }
      r := Ok(buffer[pos..filled]);
    }

    /** The buffered path of `read`: refill when empty, then hand out what fits. */
    method ReadFromBuffer(buf: array<u8>, from: nat) returns (r: MsgResult<nat>)
      requires Valid() && from <= buf.Length && buf != buffer
      modifies this, buffer, inner, buf
      ensures Valid()
      ensures r.Ok? ==>
        r.value <= buf.Length - from && r.value <= |old(Stream())|
        && buf[..] == old(buf[..from]) + old(Stream())[..r.value] + old(buf[from + r.value..])
        && Stream() == old(Stream())[r.value..]
      ensures r.Err? ==> Stream() == old(Stream()) && buf[..] == old(buf[..])
      ensures old(pos) < old(filled) ==>
        r == Ok(Min(old(filled) - old(pos), buf.Length - from)) && inner.data == old(inner.data)
    {
      ghost var before := buf[..];
      var available := FillBuf();
      if available.Err? {
        return Err(available.error);
      }
      var chunk := available.value;
      var amt := Min(|chunk|, buf.Length - from);
      ghost var stream, rest := Stream(), inner.data;
      assert buf[..] == before;
      CopyInto(buf, from, chunk[..amt]);
      Consume(amt);
      HandOut(stream, chunk, rest, amt);
      assert Buffered() == chunk[amt..];
      r := Ok(amt);
    }

    /**
     * `read`: a request at least as large as the buffer, made while nothing
     * is buffered, goes straight to the source; otherwise it is served from
     * the buffer, refilled first when empty.  Either way the bytes come out
     * in stream order.
     */
    method Read(buf: array<u8>, from: nat) returns (r: MsgResult<nat>)
      requires Valid() && from <= buf.Length && buf != buffer
      modifies this, buffer, inner, buf
      ensures Valid()
      ensures r.Ok? ==>
        r.value <= buf.Length - from && r.value <= |old(Stream())|
        && buf[..] == old(buf[..from]) + old(Stream())[..r.value] + old(buf[from + r.value..])
        && Stream() == old(Stream())[r.value..]
      ensures r.Err? ==> Stream() == old(Stream()) && buf[..] == old(buf[..])
      ensures buf.Length - from >= capacity && old(pos) >= old(filled) ==> pos == 0 && filled == 0
      ensures old(pos) < old(filled) ==>
        r == Ok(Min(old(filled) - old(pos), buf.Length - from)) && inner.data == old(inner.data)
    {
      if buf.Length - from >= capacity && pos >= filled {
        DiscardBuffer();
        assert Stream() == inner.data;
        r := inner.Read(buf, from);
        assert Buffered() == [];
        return;
      }
      r := ReadFromBuffer(buf, from);
    }
  }

  /**
   * `BufferedWriter`: collects writes smaller than `capacity` in a buffer and
   * hands them to the sink in one piece; larger writes go straight through.
   */
  class BufferedWriter {
    const capacity: nat
    const inner: Sink
    var buffer: seq<u8>

    ghost predicate Valid()
      reads this
    {
      |buffer| <= capacity
    }

    /** Everything accepted so far, in order: what reached the sink, then the buffered bytes. */
    ghost function Accepted(): seq<u8>
      reads this, inner
    {
      inner.written + buffer
    }

    constructor (inner: Sink, capacity: nat)
      ensures Valid() && this.inner == inner && this.capacity == capacity && buffer == []
    {
      this.inner := inner;
      this.capacity := capacity;
      buffer := [];
    }

    /**
     * `flush_buf`: hands the whole buffer to the sink and empties it; on an
     * error the buffer is kept and a prefix of it may have reached the sink.
     */
    method FlushBuf() returns (r: MsgResult<()>)
      requires Valid()
      modifies this, inner
      ensures Valid()
      ensures r.Ok? ==> buffer == [] && inner.written == old(inner.written) + old(buffer)
      ensures r.Err? ==>
        buffer == old(buffer)
        && exists k :: 0 <= k < |buffer| && inner.written == old(inner.written) + buffer[..k]
      ensures old(inner.script) == [] ==> r.Ok? && inner.script == []
    {
      if buffer != [] {
        var res := WriteAll(inner, buffer);
        if res.Err? {
          return Err(res.error);
        }
        buffer := [];
      }
      r := Ok(());
    }

    /**
     * `write`: a write that would overflow the buffer flushes it first; one of
     * at least `capacity` bytes goes straight to the sink (which may accept
     * part of it); a smaller one is appended to the buffer.
     */
    method Write(buf: seq<u8>) returns (r: MsgResult<nat>)
      requires Valid()
      modifies this, inner
      ensures Valid()
      ensures r.Ok? && |buf| < capacity ==> r.value == |buf| && Accepted() == old(Accepted()) + buf
      ensures r.Ok? && |buf| >= capacity ==>
        r.value <= |buf| && buffer == [] && inner.written == old(Accepted()) + buf[..r.value]
      ensures |old(buffer)| + |buf| <= capacity && |buf| < capacity ==>
        r == Ok(|buf|) && inner.written == old(inner.written) && buffer == old(buffer) + buf
      ensures old(inner.script) == [] ==>
        r == Ok(|buf|) && Accepted() == old(Accepted()) + buf && inner.script == []
    {
      if |buffer| + |buf| > capacity {
        var flushed := FlushBuf();
        if flushed.Err? {
          return Err(flushed.error);
        }
      }
      if |buf| >= capacity {
        r := inner.Write(buf);
        return;
      }
      buffer := buffer + buf;
      r := Ok(|buf|);
    }

    /** `flush`: empties the buffer into the sink, then flushes the sink. */
    method Flush() returns (r: MsgResult<()>)
      requires Valid()
      modifies this, inner
      ensures Valid()
      ensures r.Ok? ==> buffer == [] && inner.written == old(Accepted())
      ensures old(inner.script) == [] ==> r.Ok?
    {
      var flushed := FlushBuf();
      if flushed.Err? {
        return Err(flushed.error);
      }
      r := inner.Flush();
    }
  }
}
