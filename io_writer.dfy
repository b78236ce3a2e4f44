/**
 * Byte sinks and the primitives written on top of them (src/io/writer.rs).
 *
 * `MediaWrite` is a trait; its implementations may accept fewer bytes than
 * offered, or fail.  `Sink` stands for any of them: it records the bytes it
 * accepted and follows a script saying how each call answers.  With an empty
 * script it accepts everything, which is exactly the `Vec<u8>` writer.
 */
module IoWriter {
  import opened Wrappers
  import opened Ints
  import opened Messages

  /** How a sink answers one call of `write`. */
  datatype WriteStep = Accept(max: nat) | Refuse(err: Message)

  /** A script after one call: its first step is used up, an empty script stays empty. */
  function Rest<T>(script: seq<T>): seq<T>
  {
    if script == [] then [] else script[1..]
  }

  class Sink {
    var written: seq<u8>
    var script: seq<WriteStep>

    constructor (initial: seq<u8>, script: seq<WriteStep>)
      ensures written == initial && this.script == script
    {
      written := initial;
      this.script := script;
    }

    /** `write`: accepts a prefix of `buf`, as the script allows (src/io/writer.rs:154-159 when unscripted). */
    method Write(buf: seq<u8>) returns (r: MsgResult<nat>)
      modifies this
      ensures script == Rest(old(script))
      ensures old(script) == [] ==> r == Ok(|buf|) && written == old(written) + buf
      ensures old(script) != [] && old(script)[0].Accept? ==>
        r == Ok(Min(old(script)[0].max, |buf|)) && written == old(written) + buf[..r.value]
      ensures old(script) != [] && old(script)[0].Refuse? ==>
        r == Err(old(script)[0].err) && written == old(written)
    {
      if script == [] {
        written := written + buf;
        r := Ok(|buf|);
      } else {
        match script[0] {
          case Accept(max) =>
            var n := Min(max, |buf|);
            written := written + buf[..n];
            r := Ok(n);
          case Refuse(e) =>
            r := Err(e);
        }
        script := script[1..];
      }
    }

    /** `flush` of the `Vec<u8>` writer does nothing and succeeds. */
    method Flush() returns (r: MsgResult<()>)
      ensures r == Ok(())
    {
      r := Ok(());
    }
  }

  /**
   * `write_all`: offers the rest of `buf` until all of it is accepted; a
   * call that accepts nothing is an error, a failing call ends it with that failure.
   */
  method WriteAll(sink: Sink, buf: seq<u8>) returns (r: MsgResult<()>)
    modifies sink
    ensures r.Ok? ==> sink.written == old(sink.written) + buf
    ensures r.Err? ==> exists k :: 0 <= k < |buf| && sink.written == old(sink.written) + buf[..k]
    ensures r.Err? ==> r.error == ErrorMessage("write returned zero") || Refuse(r.error) in old(sink.script)
    ensures old(sink.script) == [] ==> r.Ok? && sink.script == []
  {
    var written := 0;
    ghost var used := 0;
    while written < |buf|
      invariant written <= |buf|
      invariant sink.written == old(sink.written) + buf[..written]
      invariant used <= |old(sink.script)| && sink.script == old(sink.script)[used..]
      invariant old(sink.script) == [] ==> sink.script == []
      decreases |buf| - written
    {
      ghost var before := sink.written;
      var res := sink.Write(buf[written..]);
      if sink.script != old(sink.script)[used..] {
        used := used + 1;
      }
      match res
      case Err(e) =>
        assert Refuse(e) == old(sink.script)[used - 1];
        return Err(e);
      case Ok(n) =>
        if n == 0 {
          return Err(ErrorMessage("write returned zero"));
        }
        assert buf[..written] + buf[written..][..n] == buf[..written + n];
        written := written + n;
    }
    return Ok(());
  }

  /** Appending in two steps or in one gives the same bytes. */
  lemma ConcatAssoc(a: seq<u8>, b: seq<u8>, c: seq<u8>)
    ensures a + b + c == a + (b + c)
  {
  }

  /** The low `n` bytes of `v`, least significant first: `to_le_bytes`; negative values come out in two's complement. */
  function LeBytes(v: int, n: nat): (bytes: seq<u8>)
    ensures |bytes| == n
    decreases n
  {
    if n == 0 then [] else [v % 256] + LeBytes(v / 256, n - 1)
  }

  /** The low `n` bytes of `v`, most significant first: `to_be_bytes`. */
  function BeBytes(v: int, n: nat): (bytes: seq<u8>)
    ensures |bytes| == n
    decreases n
  {
    if n == 0 then [] else BeBytes(v / 256, n - 1) + [v % 256]
  }

  datatype ByteOrder = LittleEndian | BigEndian

  function Encode(v: int, n: nat, order: ByteOrder): seq<u8>
  {
    match order
    case LittleEndian => LeBytes(v, n)
    case BigEndian => BeBytes(v, n)
  }

  /** Big-endian bytes are the little-endian bytes in reverse order. */
  lemma {:induction false} BeIsReversedLe(v: int, n: nat)
    ensures forall i :: 0 <= i < n ==> BeBytes(v, n)[i] == LeBytes(v, n)[n - 1 - i]
    decreases n
  {
    if n > 0 {
      BeIsReversedLe(v / 256, n - 1);
      forall i | 0 <= i < n
        ensures BeBytes(v, n)[i] == LeBytes(v, n)[n - 1 - i]
      {
        if i < n - 1 {
          assert BeBytes(v, n)[i] == BeBytes(v / 256, n - 1)[i];
          assert LeBytes(v, n)[n - 1 - i] == LeBytes(v / 256, n - 1)[n - 2 - i];
        }
      }
    }
  }

  /**
   * `write_u8` … `write_i64_le` (src/io/writer.rs:24-91): the value's `size`
   * bytes in the requested order, through `write_all`.
   */
  method WriteInt(sink: Sink, value: int, size: nat, order: ByteOrder) returns (r: MsgResult<()>)
    modifies sink
    ensures r.Ok? ==> sink.written == old(sink.written) + Encode(value, size, order)
    ensures old(sink.script) == [] ==> r.Ok? && sink.script == []
  {
    r := WriteAll(sink, Encode(value, size, order));
  }
}
