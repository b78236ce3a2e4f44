/** Streams of a container and the list a demuxer exposes (src/core/stream.rs). */
module CoreStream {
  import opened Wrappers
  import opened Ints
  import opened CoreTime

  datatype StreamKind = Audio | Video | Subtitle

  datatype Stream = Stream(id: u32, index: nat, kind: StreamKind, codec: string, time: Time, codecPrivate: seq<u8>)

  /** `Stream::new`: no codec-private data. */
  function NewStream(id: u32, index: nat, kind: StreamKind, codec: string, time: Time): (s: Stream)
    ensures s.codecPrivate == []
    ensures s.id == id && s.index == index && s.kind == kind && s.codec == codec && s.time == time
  {
    Stream(id, index, kind, codec, time, [])
  }

  function WithCodecPrivate(s: Stream, codecPrivate: seq<u8>): (t: Stream)
    ensures t.codecPrivate == codecPrivate && t == s.(codecPrivate := codecPrivate)
  {
    s.(codecPrivate := codecPrivate)
  }

  predicate AudioKind(s: Stream) { s.kind == Audio }

  predicate VideoKind(s: Stream) { s.kind == Video }

  predicate SubtitleKind(s: Stream) { s.kind == Subtitle }

  /** Every stream is of exactly one kind. */
  lemma ExactlyOneKind(s: Stream)
    ensures AudioKind(s) || VideoKind(s) || SubtitleKind(s)
    ensures !(AudioKind(s) && VideoKind(s)) && !(AudioKind(s) && SubtitleKind(s)) && !(VideoKind(s) && SubtitleKind(s))
  {
  }

  function KindDebugName(kind: StreamKind): string
  {
    match kind
    case Audio => "Audio"
    case Video => "Video"
    case Subtitle => "Subtitle"
  }

  /** The `Display` line of a stream: `stream <index> (<kind>) [<codec>]`. */
  function Describe(s: Stream): (line: string)
    ensures |line| >= 8 + |s.codec|
    ensures line[..7] == "stream "
    ensures line[|line| - |s.codec| - 1..|line| - 1] == s.codec && line[|line| - 1] == ']'
  {
    var line := "stream " + Decimal(s.index) + " (" + KindDebugName(s.kind) + ") [" + s.codec + "]";
    assert line == ("stream " + Decimal(s.index) + " (" + KindDebugName(s.kind) + ") [") + s.codec + "]";
    line
  }

  /** The `Display` text of a stream list: each stream's line followed by a newline. */
  function DescribeAll(streams: seq<Stream>): (text: string)
    ensures streams == [] ==> text == []
    ensures |text| >= 9 * |streams|
    ensures streams != [] ==>
      |Describe(streams[0])| < |text| && text[..|Describe(streams[0])| + 1] == Describe(streams[0]) + "\n"
    decreases |streams|
  {
    if streams == [] then [] else Describe(streams[0]) + "\n" + DescribeAll(streams[1..])
  }

  /** Describing two lists one after the other gives the description of the joined list. */
  lemma {:induction false} DescribeAllAppend(a: seq<Stream>, b: seq<Stream>)
    ensures DescribeAll(a + b) == DescribeAll(a) + DescribeAll(b)
    decreases |a|
  {
    if a != [] {
      assert (a + b)[1..] == a[1..] + b;
      DescribeAllAppend(a[1..], b);
    } else {
      assert a + b == b;
    }
  }

  /** The streams of `streams` of the given kind, in their original order. */
  function OfKind(streams: seq<Stream>, kind: StreamKind): (picked: seq<Stream>)
    ensures |picked| <= |streams|
    ensures forall s :: s in picked <==> s in streams && s.kind == kind
    decreases |streams|
  {
    if streams == [] then []
    else if streams[0].kind == kind then [streams[0]] + OfKind(streams[1..], kind)
    else OfKind(streams[1..], kind)
  }

  /** The three kind filters split the list: their sizes add up to its length. */
  lemma {:induction false} KindsPartition(streams: seq<Stream>)
    ensures |OfKind(streams, Audio)| + |OfKind(streams, Video)| + |OfKind(streams, Subtitle)| == |streams|
    decreases |streams|
  {
    if streams != [] {
      KindsPartition(streams[1..]);
    }
  }

  /** Filtering distributes over concatenation: adding a stream extends exactly its kind's list. */
  lemma {:induction false} OfKindAppend(streams: seq<Stream>, s: Stream, kind: StreamKind)
    ensures OfKind(streams + [s], kind) == OfKind(streams, kind) + (if s.kind == kind then [s] else [])
    decreases |streams|
  {
    if streams == [] {
      assert streams + [s] == [s];
    } else {
      assert (streams + [s])[1..] == streams[1..] + [s];
      OfKindAppend(streams[1..], s, kind);
    }
  }

  /** `Streams`: the list of streams a demuxer exposes, which `add` appends to. */
  class Streams {
    var inner: seq<Stream>

    /** `Streams::new`. */
    constructor (inner: seq<Stream>)
      ensures this.inner == inner
    {
      this.inner := inner;
    }

    /** `Streams::new_empty`. */
    constructor Empty()
      ensures inner == []
    {
      inner := [];
    }

    /** `add`: appends one stream; the audio count grows by one exactly when it is audio. */
    method Add(stream: Stream)
      modifies this
      ensures inner == old(inner) + [stream]
      ensures CountAudio() == old(CountAudio()) + (if stream.kind == Audio then 1 else 0)
    {
      OfKindAppend(inner, stream, Audio);
      inner := inner + [stream];
    }

    function All(): seq<Stream>
      reads this
    {
      inner
    }

    /** `get`: the stream at a position, if there is one. */
    function Get(index: u32): (s: Option<Stream>)
      reads this
      ensures s.Some? <==> index < |inner|
      ensures s.Some? ==> s.value == inner[index]
    {
      if index < |inner| then Some(inner[index]) else None
    }

    function AudioStreams(): seq<Stream>
      reads this
    {
      OfKind(inner, Audio)
    }

    function VideoStreams(): seq<Stream>
      reads this
    {
      OfKind(inner, Video)
    }

    function SubtitleStreams(): seq<Stream>
      reads this
    {
      OfKind(inner, Subtitle)
    }

    /** `count_audio`: the number of audio streams. */
    function CountAudio(): (n: nat)
      reads this
      ensures n <= |inner|
      ensures n == |inner| - |OfKind(inner, Video)| - |OfKind(inner, Subtitle)|
    {
      KindsPartition(inner);
      |OfKind(inner, Audio)|
    }
  }
}
