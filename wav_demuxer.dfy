/**
 * Reading a RIFF/WAVE file (src/container/wav/demuxer.rs): the chunk walk
 * up to the first `data` chunk, then packets of whole blocks.
 *
 * The functions state what each step does to the bytes still to be read;
 * the methods read those bytes through a `Source` and are proved to return
 * what the functions give.  `WavMetadata`, whose definition is not part of
 * this model, is represented as its fields in iteration order.
 */
module WavDemuxers {
  import opened Wrappers
  import opened Ints
  import opened Messages
  import opened CoreTime
  import opened AudioFrames
  import opened Packets
  import opened CoreStream
  import opened IoWriter
  import opened IoReader
  import opened Riff
  import opened WavFormats
  import opened WavHeaders
  import RawDemuxers

  /** Metadata fields and their values (UTF-8 bytes), in iteration order, each field at most once. */
  type Metadata = seq<(string, seq<u8>)>

  /** The value of a field, if it is set. */
  function Lookup(m: Metadata, field: string): Option<seq<u8>>
  {
    if m == [] then None else if m[0].0 == field then Some(m[0].1) else Lookup(m[1..], field)
  }

  /** `WavMetadata::set`: the field gets the value, replacing an earlier one in place. */
  function SetField(m: Metadata, field: string, value: seq<u8>): (r: Metadata)
    ensures Lookup(r, field) == Some(value)
    ensures forall other :: other != field ==> Lookup(r, other) == Lookup(m, other)
    ensures |r| == |m| || |r| == |m| + 1
  {
    if m == [] then [(field, value)]
    else if m[0].0 == field then [(field, value)] + m[1..]
    else [m[0]] + SetField(m[1..], field, value)
  }

  /** `trim_end_matches('\0')` on the bytes of a value. */
  function TrimNul(bytes: seq<u8>): (r: seq<u8>)
    ensures r <= bytes && (r == [] || r[|r| - 1] != 0)
    ensures forall i :: |r| <= i < |bytes| ==> bytes[i] == 0
  {
    if bytes == [] || bytes[|bytes| - 1] != 0 then bytes else TrimNul(bytes[..|bytes| - 1])
  }

  const EOF: Message := ErrorMessage("unexpected EOF")

  /** `check_fourcc`'s complaint. */
  function Expected(name: string, actual: seq<u8>): Message
  {
    ErrorMessage("expected " + name + ", found " + TextOf(actual))
  }

  /** A parsed value and the bytes left after it. */
  datatype Parsed<T> = Parsed(value: T, rest: seq<u8>)

  /** The little-endian unsigned value of `d[at..at + n]`. */
  function Le(d: seq<u8>, at: nat, n: nat): (v: nat)
    requires at + n <= |d|
    ensures v < Pow256(n)
  {
    DecodedBound(d[at..at + n]);
    FromLe(d[at..at + n])
  }

  /** The header before any `fmt ` chunk is seen. */
  function InitialHeader(): WavHeader
  {
    WavHeader(Mono, 0, 0, 0, 0, 0)
  }

  /** The six fields of a `fmt ` chunk; the channel count is a `u16` truncated to `u8`. */
  function FmtFields(d: seq<u8>): (h: WavHeader)
    requires |d| >= 16
  {
    WavHeader(FromCount(Le(d, 2, 2) % U8_LIMIT), Le(d, 4, 4), Le(d, 8, 4), Le(d, 12, 2), Le(d, 14, 2), Le(d, 0, 2))
  }

  /** `read_fmt_chunk`: at least 16 bytes, of which the first 16 hold the fields and the rest are skipped. */
  function ParseFmt(d: seq<u8>, size: nat): (r: MsgResult<Parsed<WavHeader>>)
    ensures r.Ok? ==> 16 <= size <= |d| && r.value.rest == d[size..]
    ensures r.Err? ==> r.error == (if size < 16 then ErrorMessage("fmt chunk too small") else EOF)
  {
    if size < 16 then Err(ErrorMessage("fmt chunk too small"))
    else if |d| < size then Err(EOF)
    else Ok(Parsed(FmtFields(d), d[size..]))
  }

  /** One INFO sub-chunk's effect on the metadata: known ids set their field, others are ignored. */
  function Record(m: Metadata, id: seq<u8>, data: seq<u8>): Metadata
  {
    match InfoField(id)
    case Some(field) => SetField(m, field, TrimNul(data))
    case None => m
  }

  /**
   * The sub-chunk loop of an INFO list: while `position + 8 <= size`, an id,
   * a little-endian size, that many bytes and a pad byte after an odd size.
   */
  function ParseInfo(d: seq<u8>, size: nat, position: nat, m: Metadata): MsgResult<Parsed<Metadata>>
    decreases size - position
  {
    if position + 8 > size then Ok(Parsed(m, d))
    else if |d| < 8 || |d| < EntryLength(d) then Err(EOF)
    else
      var k, n := EntryLength(d), Le(d, 4, 4);
      ParseInfo(d[k..], size, position + k, Record(m, d[..4], d[8..8 + n]))
  }

  /** The INFO loop only fails at the end of the input. */
  lemma {:induction false} ParseInfoFailsAtEnd(d: seq<u8>, size: nat, position: nat, m: Metadata)
    ensures ParseInfo(d, size, position, m).Err? ==> ParseInfo(d, size, position, m).error == EOF
    decreases size - position
  {
    if position + 8 <= size && |d| >= 8 && |d| >= EntryLength(d) {
      var k := EntryLength(d);
      var m' := Record(m, d[..4], d[8..8 + Le(d, 4, 4)]);
      var r := ParseInfo(d[k..], size, position + k, m');
      assert ParseInfo(d, size, position, m) == r;
      ParseInfoFailsAtEnd(d[k..], size, position + k, m');
    }
  }

  /** The INFO loop leaves a suffix of its input unread. */
  lemma {:induction false} ParseInfoLeavesSuffix(d: seq<u8>, size: nat, position: nat, m: Metadata)
    ensures ParseInfo(d, size, position, m).Ok? ==> IsSuffix(ParseInfo(d, size, position, m).value.rest, d)
    decreases size - position
  {
    if position + 8 <= size && |d| >= 8 && |d| >= EntryLength(d) {
      var k := EntryLength(d);
      var m' := Record(m, d[..4], d[8..8 + Le(d, 4, 4)]);
      var r := ParseInfo(d[k..], size, position + k, m');
      assert ParseInfo(d, size, position, m) == r;
      ParseInfoLeavesSuffix(d[k..], size, position + k, m');
      if r.Ok? {
        SuffixOfDrop(r.value.rest, d, k);
      }
    }
  }

  /** The bytes one INFO sub-chunk takes: id, size, value and the pad byte after an odd size. */
  function EntryLength(d: seq<u8>): (k: nat)
    requires |d| >= 8
    ensures k >= 8
  {
    var n := Le(d, 4, 4);
    8 + n + n % 2
  }

  /** `rest` is what is left of `d` after some prefix of it has been read. */
  predicate IsSuffix(rest: seq<u8>, d: seq<u8>)
  {
    |rest| <= |d| && rest == d[|d| - |rest|..]
  }

  lemma DropIsSuffix(d: seq<u8>, k: nat)
    requires k <= |d|
    ensures IsSuffix(d[k..], d)
  {
  }

  /** A suffix of `d[k..]` is a suffix of `d`. */
  lemma SuffixOfDrop(rest: seq<u8>, d: seq<u8>, k: nat)
    requires k <= |d| && IsSuffix(rest, d[k..])
    ensures IsSuffix(rest, d)
  {
    assert d[k..][|d| - k - |rest|..] == d[|d| - |rest|..];
  }

  /** A parse of `d[k..]` read as a parse of `d`: the rest is still a suffix of `d`. */
  function ParseSuffix<T>(d: seq<u8>, k: nat, r: MsgResult<Parsed<T>>): (s: MsgResult<Parsed<T>>)
    requires k <= |d|
    requires r.Ok? ==> IsSuffix(r.value.rest, d[k..])
    ensures s == r
    ensures s.Ok? ==> IsSuffix(s.value.rest, d)
  {
    if r.Ok? then
      SuffixOfDrop(r.value.rest, d, k);
      r
    else r
  }

  /**
   * `read_list_chunk`: a list under 4 bytes is ignored without reading; a
   * list whose form type is not INFO is skipped; an INFO list is read
   * sub-chunk by sub-chunk.
   */
  function ParseList(d: seq<u8>, size: nat, m: Metadata): (r: MsgResult<Parsed<Metadata>>)
    ensures r.Ok? ==> IsSuffix(r.value.rest, d)
    ensures r.Err? ==> r.error == EOF
    ensures size < 4 ==> r == Ok(Parsed(m, d))
  {
    if size < 4 then Ok(Parsed(m, d))
    else if |d| < 4 then Err(EOF)
    else if d[..4] != INFO_ID then
      if |d| < size then Err(EOF) else DropIsSuffix(d, size); Ok(Parsed(m, d[size..]))
    else
      ParseInfoFailsAtEnd(d[4..], size, 4, m);
      ParseInfoLeavesSuffix(d[4..], size, 4, m);
      ParseSuffix(d, 4, ParseInfo(d[4..], size, 4, m))
  }

  /** What one chunk of the walk leads to. */
  datatype ChunkOutcome = Continue(header: WavHeader, metadata: Metadata) | DataFound(size: u32)

  /**
   * One turn of the chunk loop: an id and a little-endian size, then `fmt `
   * and `LIST` are parsed, `data` ends the walk and anything else is skipped
   * by exactly its size, with no pad byte.
   */
  function ChunkStep(d: seq<u8>, h: WavHeader, m: Metadata): (r: MsgResult<Parsed<ChunkOutcome>>)
    ensures r.Ok? ==> |r.value.rest| < |d| && IsSuffix(r.value.rest, d)
  {
    if |d| < 8 then Err(EOF)
    else
      var id, size, body := d[..4], Le(d, 4, 4), d[8..];
      if id == FMT_ID then
        match ParseFmt(body, size)
        case Err(e) => Err(e)
        case Ok(p) => Ok(Parsed(Continue(p.value, m), p.rest))
      else if id == LIST_ID then
        match ParseList(body, size, m)
        case Err(e) => Err(e)
        case Ok(p) => Ok(Parsed(Continue(h, p.value), p.rest))
      else if id == DATA_ID then Ok(Parsed(DataFound(size), body))
      else if |body| < size then Err(EOF)
      else Ok(Parsed(Continue(h, m), body[size..]))
  }

  /** What the walk finds: the header and metadata seen so far and the `data` chunk's size. */
  datatype Found = Found(header: WavHeader, metadata: Metadata, dataSize: u32)

  /** The chunk `loop` of `read_wav_and_find_data`: chunk steps until a `data` chunk or an error. */
  function Walk(d: seq<u8>, h: WavHeader, m: Metadata): (r: MsgResult<Parsed<Found>>)
    ensures r.Ok? ==> |r.value.rest| <= |d|
    decreases |d|
  {
    match ChunkStep(d, h, m)
    case Err(e) => Err(e)
    case Ok(Parsed(DataFound(size), rest)) => Ok(Parsed(Found(h, m, size), rest))
    case Ok(Parsed(Continue(h', m'), rest)) => Walk(rest, h', m')
  }

  /** `read_wav_and_find_data`: "RIFF", a file size that is ignored, "WAVE", then the walk. */
  function FindData(d: seq<u8>): (r: MsgResult<Parsed<Found>>)
    ensures r.Ok? ==> |r.value.rest| <= |d|
  {
    if |d| < 4 then Err(EOF)
    else if d[..4] != RIFF_ID then Err(Expected("RIFF", d[..4]))
    else if |d| < 12 then Err(EOF)
    else if d[8..12] != WAVE_ID then Err(Expected("WAVE", d[8..12]))
    else Walk(d[12..], InitialHeader(), [])
  }

  /** `WavDemuxer::new`: the walk, then the header's validation. */
  function OpenSpec(d: seq<u8>): (r: MsgResult<Parsed<Found>>)
    ensures r.Ok? ==> Validate(r.value.value.header).Ok? && FindData(d) == r
    ensures FindData(d).Err? ==> r == FindData(d)
  {
    match FindData(d)
    case Err(e) => Err(e)
    case Ok(p) =>
      match Validate(p.value.header)
      case Err(e) => Err(e)
      case Ok(_) => Ok(p)
  }

  /** `n` bytes taken from the front. */
  function Take(d: seq<u8>, n: nat): (r: MsgResult<Parsed<seq<u8>>>)
    ensures r.Ok? <==> n <= |d|
  {
    if |d| < n then Err(EOF) else Ok(Parsed(d[..n], d[n..]))
  }

  /** `n` bytes taken from the front and read as a little-endian unsigned value. */
  function TakeLe(d: seq<u8>, n: nat): (r: MsgResult<Parsed<nat>>)
    ensures r.Ok? <==> n <= |d|
  {
    if |d| < n then Err(EOF) else Ok(Parsed(Le(d, 0, n), d[n..]))
  }

  /** `check_fourcc`: four bytes that must be the expected code. */
  function CheckCode(d: seq<u8>, expected: seq<u8>, name: string): MsgResult<Parsed<()>>
  {
    if |d| < 4 then Err(EOF)
    else if d[..4] != expected then Err(Expected(name, d[..4]))
    else Ok(Parsed((), d[4..]))
  }

  /**
   * How a method reading through a source relates to the function that
   * specifies it: a success is the function's result with the source left at
   * its rest, and an unscripted source (the byte-slice reader) makes the two
   * agree on success and on the error.
   */
  predicate Follows<T(==)>(r: MsgResult<T>, spec: MsgResult<Parsed<T>>, rest: seq<u8>, unscripted: bool)
  {
    (r.Ok? ==> spec == Ok(Parsed(r.value, rest)))
    && (unscripted ==> (r.Ok? <==> spec.Ok?) && (r.Err? ==> spec.Err? && r.error == spec.error))
  }

  /** `read_fourcc` (the text conversion is left to the callers, which compare bytes). */
  method ReadFourcc(reader: Source) returns (r: MsgResult<seq<u8>>)
    modifies reader
    ensures Follows(r, Take(old(reader.data), 4), reader.data, old(reader.script) == [])
    ensures old(reader.script) == [] ==> reader.script == []
  {
    var buf := new u8[4](_ => 0);
    var res := ReadExact(reader, buf);
    if res.Err? {
      return Err(res.error);
    }
    r := Ok(buf[..]);
  }

  /** `read_u8`, `read_u16_le`, `read_u32_le`. */
  method ReadLe(reader: Source, n: nat) returns (r: MsgResult<nat>)
    modifies reader
    ensures Follows(r, TakeLe(old(reader.data), n), reader.data, old(reader.script) == [])
    ensures r.Ok? ==> r.value < Pow256(n)
    ensures old(reader.script) == [] ==> reader.script == []
  {
    r := ReadUInt(reader, n, LittleEndian);
    if r.Ok? {
      assert old(reader.data)[0..n] == old(reader.data)[..n];
    }
  }

  /** `check_fourcc`. */
  method CheckFourcc(reader: Source, expected: seq<u8>, name: string) returns (r: MsgResult<()>)
    modifies reader
    ensures Follows(r, CheckCode(old(reader.data), expected, name), reader.data, old(reader.script) == [])
    ensures old(reader.script) == [] ==> reader.script == []
  {
    var actual := ReadFourcc(reader);
    if actual.Err? {
      return Err(actual.error);
    }
    if actual.value != expected {
      return Err(Expected(name, actual.value));
    }
    return Ok(());
  }

  /** `read_bytes`. */
  method ReadBytes(reader: Source, size: nat) returns (r: MsgResult<seq<u8>>)
    modifies reader
    ensures Follows(r, Take(old(reader.data), size), reader.data, old(reader.script) == [])
    ensures old(reader.script) == [] ==> reader.script == []
  {
    var buf := new u8[size](_ => 0);
    var res := ReadExact(reader, buf);
    if res.Err? {
      return Err(res.error);
    }
    r := Ok(buf[..]);
  }

  /** `skip_bytes`: reads and drops `size` bytes. */
  method SkipBytes(reader: Source, size: nat) returns (r: MsgResult<()>)
    modifies reader
    ensures r.Ok? ==> size <= |old(reader.data)| && reader.data == old(reader.data)[size..]
    ensures old(reader.script) == [] ==>
              (r.Ok? <==> size <= |old(reader.data)|) && (r.Err? ==> r.error == EOF) && reader.script == []
  {
    var bytes := ReadBytes(reader, size);
    if bytes.Err? {
      return Err(bytes.error);
    }
    return Ok(());
  }

  /** Reading `n` bytes at offset `at` of `d[k..]` is reading them at offset `k + at` of `d`. */
  lemma LeShift(d: seq<u8>, k: nat, at: nat, n: nat)
    requires k + at + n <= |d|
    ensures Le(d[k..], at, n) == Le(d, k + at, n)
  {
    assert d[k..][at..at + n] == d[k + at..k + at + n];
  }

  /** The id and little-endian size that start a chunk or an INFO sub-chunk. */
  method ReadChunkHeader(reader: Source) returns (r: MsgResult<(seq<u8>, u32)>)
    modifies reader
    ensures r.Ok? ==> 8 <= |old(reader.data)| && reader.data == old(reader.data)[8..]
                      && r.value == (old(reader.data)[..4], Le(old(reader.data), 4, 4))
    ensures old(reader.script) == [] ==>
              reader.script == [] && (r.Ok? <==> 8 <= |old(reader.data)|) && (r.Err? ==> r.error == EOF)
  {
    ghost var d := reader.data;
    var id := ReadFourcc(reader);
    if id.Err? {
      return Err(id.error);
    }
    var size := ReadLe(reader, 4);
    if size.Err? {
      return Err(size.error);
    }
    assert d[4..][4..] == d[8..];
    LeShift(d, 4, 0, 4);
    return Ok((id.value, size.value));
  }

  /** The two fields that start a `fmt ` chunk, and also the two that end it. */
  method ReadTwoU16(reader: Source) returns (r: MsgResult<(u16, u16)>)
    modifies reader
    ensures r.Ok? ==> 4 <= |old(reader.data)| && reader.data == old(reader.data)[4..]
                      && r.value == (Le(old(reader.data), 0, 2), Le(old(reader.data), 2, 2))
    ensures old(reader.script) == [] ==>
              reader.script == [] && (r.Ok? <==> 4 <= |old(reader.data)|) && (r.Err? ==> r.error == EOF)
  {
    ghost var d := reader.data;
    var first := ReadLe(reader, 2);
    if first.Err? {
      return Err(first.error);
    }
    var second := ReadLe(reader, 2);
    if second.Err? {
      return Err(second.error);
    }
    assert d[2..][2..] == d[4..];
    LeShift(d, 2, 0, 2);
    return Ok((first.value, second.value));
  }

  /** The two 32-bit fields of a `fmt ` chunk: the sample rate and the byte rate. */
  method ReadRates(reader: Source) returns (r: MsgResult<(u32, u32)>)
    modifies reader
    ensures r.Ok? ==> 8 <= |old(reader.data)| && reader.data == old(reader.data)[8..]
                      && r.value == (Le(old(reader.data), 0, 4), Le(old(reader.data), 4, 4))
    ensures old(reader.script) == [] ==>
              reader.script == [] && (r.Ok? <==> 8 <= |old(reader.data)|) && (r.Err? ==> r.error == EOF)
  {
    ghost var d := reader.data;
    var rate := ReadLe(reader, 4);
    if rate.Err? {
      return Err(rate.error);
    }
    var byteRate := ReadLe(reader, 4);
    if byteRate.Err? {
      return Err(byteRate.error);
    }
    assert d[4..][4..] == d[8..];
    LeShift(d, 4, 0, 4);
    return Ok((rate.value, byteRate.value));
  }

  /** The six fields of a `fmt ` chunk, read in order. */
  method ReadFmtFields(reader: Source) returns (r: MsgResult<WavHeader>)
    modifies reader
    ensures r.Ok? ==> 16 <= |old(reader.data)| && reader.data == old(reader.data)[16..]
                      && r.value == FmtFields(old(reader.data))
    ensures old(reader.script) == [] ==>
              reader.script == [] && (r.Ok? <==> 16 <= |old(reader.data)|) && (r.Err? ==> r.error == EOF)
  {
    ghost var d := reader.data;
    var first := ReadTwoU16(reader);
    if first.Err? {
      return Err(first.error);
    }
    var rates := ReadRates(reader);
    if rates.Err? {
      return Err(rates.error);
    }
    assert d[4..][8..] == d[12..];
    var last := ReadTwoU16(reader);
    if last.Err? {
      return Err(last.error);
    }
    assert d[12..][4..] == d[16..];
    LeShift(d, 4, 0, 4);
    LeShift(d, 4, 4, 4);
    LeShift(d, 12, 0, 2);
    LeShift(d, 12, 2, 2);
    var (code, count) := first.value;
    var (rate, byteRate) := rates.value;
    var (align, bits) := last.value;
    r := Ok(WavHeader(FromCount(count % U8_LIMIT), rate, byteRate, align, bits, code));
  }

  /** `read_fmt_chunk`: the six fields, then the rest of the chunk skipped. */
  method ReadFmtChunk(reader: Source, size: nat) returns (r: MsgResult<WavHeader>)
    modifies reader
    ensures Follows(r, ParseFmt(old(reader.data), size), reader.data, old(reader.script) == [])
    ensures old(reader.script) == [] ==> reader.script == []
  {
    if size < 16 {
      return Err(ErrorMessage("fmt chunk too small"));
    }
    ghost var d := reader.data;
    var header := ReadFmtFields(reader);
    if header.Err? {
      return Err(header.error);
    }
    var remaining := size - 16;
    if remaining > 0 {
      var skipped := SkipBytes(reader, remaining);
      if skipped.Err? {
        return Err(skipped.error);
      }
      assert d[16..][remaining..] == d[size..];
    }
    return Ok(header.value);
  }

  /** A turn of the INFO loop that runs out of bytes. */
  lemma InfoTurnFails(d: seq<u8>, size: nat, position: nat, m: Metadata)
    requires position + 8 <= size
    requires |d| < 8 || |d| < EntryLength(d)
    ensures ParseInfo(d, size, position, m) == Err(EOF)
  {
  }

  /** A complete turn of the INFO loop: the parse goes on from the next sub-chunk. */
  lemma InfoTurnAdvances(d: seq<u8>, size: nat, position: nat, m: Metadata, d': seq<u8>, position': nat, m': Metadata)
    requires position + 8 <= size
    requires |d| >= 8 && |d| >= EntryLength(d) && d' == d[EntryLength(d)..]
    requires position' == position + EntryLength(d) && m' == Record(m, d[..4], d[8..8 + Le(d, 4, 4)])
    ensures ParseInfo(d, size, position, m) == ParseInfo(d', size, position', m')
  {
  }

  /**
   * One turn of the INFO loop of `read_list_chunk`: an id, a size, the value
   * and the pad byte after an odd size, recorded in the metadata.
   */
  method ReadInfoEntry(reader: Source, position: nat, metadata: Metadata) returns (r: MsgResult<(nat, Metadata)>)
    modifies reader
    ensures r.Ok? ==>
              var d := old(reader.data);
              8 <= |d| && EntryLength(d) <= |d| && reader.data == d[EntryLength(d)..]
              && r.value == (position + EntryLength(d), Record(metadata, d[..4], d[8..8 + Le(d, 4, 4)]))
    ensures old(reader.script) == [] ==>
              reader.script == [] && (r.Ok? <==> 8 <= |old(reader.data)| && EntryLength(old(reader.data)) <= |old(reader.data)|)
              && (r.Err? ==> r.error == EOF)
  {
    ghost var here := reader.data;
    var head := ReadChunkHeader(reader);
    if head.Err? {
      return Err(head.error);
    }
    var (id, n) := head.value;
    var data := ReadBytes(reader, n);
    if data.Err? {
      return Err(data.error);
    }
    assert here[8..][..n] == here[8..8 + n];
    assert here[8..][n..] == here[8 + n..];
    var next := position + 8 + n;
    var updated := Record(metadata, id, data.value);
    if n % 2 == 1 {
      var pad := ReadLe(reader, 1);
      if pad.Err? {
        return Err(pad.error);
      }
      assert here[8 + n..][1..] == here[9 + n..];
      next := next + 1;
    }
    return Ok((next, updated));
  }

  /** `read_list_chunk`: the form type, then either a skip or the INFO sub-chunk loop. */
  method ReadListChunk(reader: Source, size: nat, m: Metadata) returns (r: MsgResult<Metadata>)
    modifies reader
    ensures Follows(r, ParseList(old(reader.data), size, m), reader.data, old(reader.script) == [])
    ensures old(reader.script) == [] ==> reader.script == []
  {
    if size < 4 {
      return Ok(m);
    }
    ghost var d := reader.data;
    var form := ReadFourcc(reader);
    if form.Err? {
      return Err(form.error);
    }
    if form.value != INFO_ID {
      var skipped := SkipBytes(reader, size - 4);
      if skipped.Err? {
        return Err(skipped.error);
      }
      assert d[4..][size - 4..] == d[size..];
      return Ok(m);
    }
    var position := 4;
    var metadata := m;
    ghost var start := reader.data;
    assert ParseList(d, size, m) == ParseInfo(start, size, 4, m);
    while position + 8 <= size
      invariant ParseInfo(start, size, 4, m) == ParseInfo(reader.data, size, position, metadata)
      invariant old(reader.script) == [] ==> reader.script == []
      decreases size - position
    {
      ghost var here := reader.data;
      var entry := ReadInfoEntry(reader, position, metadata);
      if entry.Err? {
        if old(reader.script) == [] {
          InfoTurnFails(here, size, position, metadata);
        }
        return Err(entry.error);
      }
      InfoTurnAdvances(here, size, position, metadata, reader.data, entry.value.0, entry.value.1);
      position, metadata := entry.value.0, entry.value.1;
    }
    return Ok(metadata);
  }

  /** One turn of the chunk loop of `read_wav_and_find_data`. */
  method ReadChunk(reader: Source, h: WavHeader, m: Metadata) returns (r: MsgResult<ChunkOutcome>)
    modifies reader
    ensures Follows(r, ChunkStep(old(reader.data), h, m), reader.data, old(reader.script) == [])
    ensures old(reader.script) == [] ==> reader.script == []
  {
    ghost var d := reader.data;
    var head := ReadChunkHeader(reader);
    if head.Err? {
      return Err(head.error);
    }
    var (id, size) := head.value;
    if id == FMT_ID {
      var header := ReadFmtChunk(reader, size);
      if header.Err? {
        return Err(header.error);
      }
      return Ok(Continue(header.value, m));
    } else if id == LIST_ID {
      var metadata := ReadListChunk(reader, size, m);
      if metadata.Err? {
        return Err(metadata.error);
      }
      return Ok(Continue(h, metadata.value));
    } else if id == DATA_ID {
      return Ok(DataFound(size));
    } else {
      var skipped := SkipBytes(reader, size);
      if skipped.Err? {
        return Err(skipped.error);
      }
      return Ok(Continue(h, m));
    }
  }

  /** `read_wav_and_find_data`: the RIFF/WAVE preamble, then chunks until `data`. */
  method ReadWavAndFindData(reader: Source) returns (r: MsgResult<Found>)
    modifies reader
    ensures Follows(r, FindData(old(reader.data)), reader.data, old(reader.script) == [])
    ensures old(reader.script) == [] ==> reader.script == []
  {
    ghost var d := reader.data;
    var riff := CheckFourcc(reader, RIFF_ID, "RIFF");
    if riff.Err? {
      return Err(riff.error);
    }
    var fileSize := ReadLe(reader, 4);
    if fileSize.Err? {
      return Err(fileSize.error);
    }
    assert d[4..][4..] == d[8..];
    var wave := CheckFourcc(reader, WAVE_ID, "WAVE");
    if wave.Err? {
      assert |d| >= 12 ==> d[8..][..4] == d[8..12];
      return Err(wave.error);
    }
    assert d[8..][..4] == d[8..12] && d[8..][4..] == d[12..];
    var header := InitialHeader();
    var metadata: Metadata := [];
    while true
      invariant Walk(d[12..], InitialHeader(), []) == Walk(reader.data, header, metadata)
      invariant old(reader.script) == [] ==> reader.script == []
      decreases |reader.data|
    {
      var step := ReadChunk(reader, header, metadata);
      if step.Err? {
        return Err(step.error);
      }
      match step.value
      case DataFound(size) =>
        return Ok(Found(header, metadata, size));
      case Continue(h, m) =>
        header, metadata := h, m;
    }
  }

  /** A chunk laid out as its id, its size in four little-endian bytes and the bytes after them. */
  lemma ChunkLayout(id: seq<u8>, size: u32, body: seq<u8>)
    requires |id| == 4
    ensures var d := id + LeBytes(size, 4) + body;
            |d| >= 8 && d[..4] == id && Le(d, 4, 4) == size && d[8..] == body
  {
    var d := id + LeBytes(size, 4) + body;
    assert d[4..8] == LeBytes(size, 4);
    LeRoundTrip(size, 4);
    assert Pow256(4) == U32_LIMIT;
  }

  /**
   * A chunk that is neither `fmt `, `LIST` nor `data` is skipped by exactly
   * its declared size, with no pad byte even when the size is odd.
   */
  lemma UnknownChunkSkipped(id: seq<u8>, size: u32, body: seq<u8>, h: WavHeader, m: Metadata)
    requires |id| == 4 && id != FMT_ID && id != LIST_ID && id != DATA_ID && size <= |body|
    ensures ChunkStep(id + LeBytes(size, 4) + body, h, m) == Ok(Parsed(Continue(h, m), body[size..]))
  {
    ChunkLayout(id, size, body);
  }

  /** A `data` chunk ends the walk: its size is reported and its bytes are left unread. */
  lemma DataChunkEndsWalk(size: u32, body: seq<u8>, h: WavHeader, m: Metadata)
    ensures Walk(DATA_ID + LeBytes(size, 4) + body, h, m) == Ok(Parsed(Found(h, m, size), body))
  {
    ChunkLayout(DATA_ID, size, body);
  }

  /** A file is only opened when it starts with "RIFF", four bytes, then "WAVE". */
  lemma OpenNeedsRiffWave(d: seq<u8>)
    ensures OpenSpec(d).Ok? ==> |d| >= 12 && d[..4] == RIFF_ID && d[8..12] == WAVE_ID
    ensures |d| >= 4 && d[..4] != RIFF_ID ==> OpenSpec(d) == Err(Expected("RIFF", d[..4]))
  {
  }

  /** A `fmt ` chunk under 16 bytes stops the walk with an error, whatever follows. */
  lemma ShortFmtRefused(size: u32, body: seq<u8>, h: WavHeader, m: Metadata)
    requires size < 16
    ensures Walk(FMT_ID + LeBytes(size, 4) + body, h, m) == Err(ErrorMessage("fmt chunk too small"))
  {
    ChunkLayout(FMT_ID, size, body);
  }

  class WavDemuxer {
    const reader: Source
    const format: WavFormat
    const streams: Streams
    const metadata: Metadata
    var dataRemaining: u64
    var packetCount: u64
    var samplePosition: u64

    /** The state `new` builds from a found `data` chunk: one audio stream, nothing read from the chunk yet. */
    ghost predicate OpenedAt(found: Found)
      reads this, streams
    {
      format == ToFormat(found.header) && metadata == found.metadata
      && streams.inner == [RawDemuxers.AudioStream(ToCodecString(format), found.header.sampleRate)]
      && dataRemaining == found.dataSize && packetCount == 0 && samplePosition == 0
    }

    constructor FromFound(reader: Source, found: Found)
      ensures this.reader == reader && OpenedAt(found) && fresh(streams)
    {
      this.reader := reader;
      format := ToFormat(found.header);
      metadata := found.metadata;
      streams := new Streams([RawDemuxers.AudioStream(ToCodecString(ToFormat(found.header)), found.header.sampleRate)]);
      dataRemaining := found.dataSize;
      packetCount := 0;
      samplePosition := 0;
    }

    /**
     * `WavDemuxer::new`: the chunk walk, then the header's validation; the
     * reader is left at the start of the `data` chunk's bytes.
     */
    static method Open(reader: Source) returns (r: MsgResult<WavDemuxer>)
      modifies reader
      ensures r.Ok? ==>
                OpenSpec(old(reader.data)).Ok? && reader.data == OpenSpec(old(reader.data)).value.rest
                && r.value.reader == reader && fresh(r.value) && fresh(r.value.streams)
                && r.value.OpenedAt(OpenSpec(old(reader.data)).value.value)
      ensures old(reader.script) == [] ==>
                reader.script == [] && (r.Ok? <==> OpenSpec(old(reader.data)).Ok?)
                && (r.Err? ==> r.error == OpenSpec(old(reader.data)).error)
    {
      var found := ReadWavAndFindData(reader);
      if found.Err? {
        return Err(found.error);
      }
      var valid := Validate(found.value.header);
      if valid.Err? {
        return Err(valid.error);
      }
      var demuxer := new WavDemuxer.FromFound(reader, found.value);
      return Ok(demuxer);
    }

    /**
     * `read_packet` past the division, with data left: one read of at most a
     * chunk of whole blocks, never past the chunk's end.  The packet is
     * stamped with the sample position before the read, which then advances
     * by the whole frames read.
     */
    method ReadDataChunk() returns (r: MsgResult<Option<Packet>>)
      requires dataRemaining > 0 && WavFormats.BlockAlign(format) > 0
      modifies this, reader
      ensures WavFormats.BytesPerFrame(format) > 0
      ensures r.Err? ==> Fail(r.error) in old(reader.script)
      ensures r.Err? || r.value.None? ==>
                dataRemaining == old(dataRemaining) && samplePosition == old(samplePosition)
                && packetCount == old(packetCount) && reader.data == old(reader.data)
      ensures r.Ok? && r.value.Some? ==>
                var p := r.value.value;
                0 < |p.data| <= old(dataRemaining)
                && |p.data| <= RawDemuxers.MaxChunk(WavFormats.BlockAlign(format)) && |p.data| <= |old(reader.data)|
                && p.data == old(reader.data)[..|p.data|] && reader.data == old(reader.data)[|p.data|..]
                && p == WithPts(NewPacket(p.data, 0, Time(1, format.sampleRate)), RawDemuxers.AsI64(old(samplePosition)))
                && dataRemaining == old(dataRemaining) - |p.data|
                && samplePosition == (old(samplePosition) + |p.data| / WavFormats.BytesPerFrame(format)) % U64_LIMIT
                && packetCount == (old(packetCount) + 1) % U64_LIMIT
      ensures old(reader.script) == [] ==>
                r.Ok? && (r.value.None? <==> old(reader.data) == [])
                && (r.value.Some? ==>
                      |r.value.value.data| == Min(|old(reader.data)|, Min(old(dataRemaining), RawDemuxers.MaxChunk(WavFormats.BlockAlign(format)))))
    {
      var chunk := Min(dataRemaining, RawDemuxers.MaxChunk(WavFormats.BlockAlign(format)));
      var data := new u8[chunk](_ => 0);
      var res := reader.Read(data, 0);
      if res.Err? {
        return Err(res.error);
      }
      var n := res.value;
      if n == 0 {
        return Ok(None);
      }
      var bytes := data[..n];
      dataRemaining := dataRemaining - n;
      var packet := WithPts(NewPacket(bytes, 0, Time(1, format.sampleRate)), RawDemuxers.AsI64(samplePosition));
      samplePosition := (samplePosition + n / WavFormats.BytesPerFrame(format)) % U64_LIMIT;
      packetCount := (packetCount + 1) % U64_LIMIT;
      return Ok(Some(packet));
    }

    /**
     * `read_packet`: nothing once the `data` chunk is used up.  With data
     * left, a zero `block_align` (IMA ADPCM's 4-bit samples, or a frame of
     * 65536 bytes) panics in the division before any read; otherwise one
     * chunk is read as `ReadDataChunk` says.
     */
    method ReadPacket() returns (r: RawDemuxers.ReadOutcome)
      modifies this, reader
      ensures r.DividedByZero? <==> old(dataRemaining) > 0 && WavFormats.BlockAlign(format) == 0
      ensures r.DividedByZero? ==> reader.data == old(reader.data) && reader.script == old(reader.script)
      ensures r.Returned? && old(dataRemaining) > 0 ==> WavFormats.BytesPerFrame(format) > 0
      ensures r.Returned? && r.result.Err? ==> Fail(r.result.error) in old(reader.script)
      ensures r.Returned? && (r.result.Err? || r.result.value.None?) ==>
                dataRemaining == old(dataRemaining) && samplePosition == old(samplePosition)
                && packetCount == old(packetCount) && reader.data == old(reader.data)
      ensures old(dataRemaining) == 0 ==> r == RawDemuxers.Returned(Ok(None)) && reader.script == old(reader.script)
      ensures r.Returned? && r.result.Ok? && r.result.value.Some? ==>
                var p := r.result.value.value;
                0 < |p.data| <= old(dataRemaining) && WavFormats.BlockAlign(format) > 0
                && |p.data| <= RawDemuxers.MaxChunk(WavFormats.BlockAlign(format)) && |p.data| <= |old(reader.data)|
                && p.data == old(reader.data)[..|p.data|] && reader.data == old(reader.data)[|p.data|..]
                && p == WithPts(NewPacket(p.data, 0, Time(1, format.sampleRate)), RawDemuxers.AsI64(old(samplePosition)))
                && dataRemaining == old(dataRemaining) - |p.data|
                && samplePosition == (old(samplePosition) + |p.data| / WavFormats.BytesPerFrame(format)) % U64_LIMIT
                && packetCount == (old(packetCount) + 1) % U64_LIMIT
      ensures old(reader.script) == [] && old(dataRemaining) > 0 && WavFormats.BlockAlign(format) > 0 ==>
                r.Returned? && r.result.Ok? && (r.result.value.None? <==> old(reader.data) == [])
                && (r.result.value.Some? ==>
                      |r.result.value.value.data|
                      == Min(|old(reader.data)|, Min(old(dataRemaining), RawDemuxers.MaxChunk(WavFormats.BlockAlign(format)))))
    {
      if dataRemaining == 0 {
        return RawDemuxers.Returned(Ok(None));
      }
      if WavFormats.BlockAlign(format) == 0 {
        return RawDemuxers.DividedByZero;
      }
      var res := ReadDataChunk();
      return RawDemuxers.Returned(res);
    }

    /** `read_audio_packet` is `read_packet`. */
    method ReadAudioPacket() returns (r: RawDemuxers.ReadOutcome)
      modifies this, reader
      ensures r.DividedByZero? <==> old(dataRemaining) > 0 && WavFormats.BlockAlign(format) == 0
      ensures r.Returned? && r.result.Err? ==> Fail(r.result.error) in old(reader.script)
      ensures r.Returned? && r.result.Ok? && r.result.value.Some? ==>
                var p := r.result.value.value;
                0 < |p.data| <= old(dataRemaining) && |p.data| <= |old(reader.data)|
                && p.data == old(reader.data)[..|p.data|] && reader.data == old(reader.data)[|p.data|..]
                && p.pts == RawDemuxers.AsI64(old(samplePosition))
    {
      r := ReadPacket();
    }

    function Format(): WavFormat
    {
      format
    }

    function GetMetadata(): Metadata
    {
      metadata
    }
  }
}
