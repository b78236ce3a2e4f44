/**
 * Frame transforms (`src/transform/mod.rs`): parsing a `name=value`
 * transform option, and a chain that runs transforms one after another.
 */
module Transforms {
  import opened Wrappers
  import opened IoError
  import opened Frames

  /** A transform object: its name and what its `apply` does to a frame. */
  datatype Transform = Transform(name: string, apply: Frame -> IoResult<Frame>)

  /** The transform `parse_transform` builds, with its parameter. */
  datatype TransformSpec = Gain(factor: real) | Normalize(peak: real)

  /** The peak `normalize` uses when its value is missing or is not a number. */
  const DEFAULT_PEAK: real := 0.95

  const GAIN_NEEDS_VALUE: string := "gain requires a value (e.g., gain=2.0)"
  const GAIN_NOT_A_NUMBER: string := "gain value must be a number"
  const UNKNOWN_TRANSFORM: string := "unknown transform"

  /** The index of the first `c` in `s`, if any. */
  function FirstIndex(s: string, c: char): (k: Option<nat>)
    ensures k.Some? ==> k.value < |s| && s[k.value] == c && forall i :: 0 <= i < k.value ==> s[i] != c
    ensures k.None? ==> forall i :: 0 <= i < |s| ==> s[i] != c
  {
    if s == [] then None
    else if s[0] == c then Some(0)
    else
      match FirstIndex(s[1..], c)
      case None => None
      case Some(k) => Some(k + 1)
  }

  /** `spec.splitn(2, '=')`: the text before the first `=` and, when there is one, the text after it. */
  function SplitAtFirstEquals(spec: string): (parts: (string, Option<string>))
  {
    match FirstIndex(spec, '=')
    case None => (spec, None)
    case Some(k) => (spec[..k], Some(spec[k + 1..]))
  }

  /** Only the first `=` splits: a name without `=` keeps everything after it as the value, `=` included. */
  lemma SplitAtFirstEqualsOf(name: string, value: string)
    requires forall i :: 0 <= i < |name| ==> name[i] != '='
    ensures SplitAtFirstEquals(name + "=" + value) == (name, Some(value))
  {
    var spec := name + "=" + value;
    FirstEqualsAfterName(name, value);
    assert spec[..|name|] == name && spec[|name| + 1..] == value;
  }

  /** The first `=` of `name=value` is the one after `name`. */
  lemma FirstEqualsAfterName(name: string, value: string)
    requires forall i :: 0 <= i < |name| ==> name[i] != '='
    ensures FirstIndex(name + "=" + value, '=') == Some(|name|)
  {
    var spec := name + "=" + value;
    assert spec[|name|] == '=';
    assert forall i :: 0 <= i < |name| ==> spec[i] == name[i];
  }

  /** Without `=` the whole text is the name and there is no value. */
  lemma SplitWithoutEquals(spec: string)
    requires forall i :: 0 <= i < |spec| ==> spec[i] != '='
    ensures SplitAtFirstEquals(spec) == (spec, None)
  {
  }

  /**
   * `parse_transform`: `gain` needs a value that parses as a number;
   * `normalize` falls back to the default peak; any other name is refused.
   * `str::parse::<f32>` is the parameter `parseF32`.
   */
  function ParseTransform(spec: string, parseF32: string -> Option<real>): (r: IoResult<TransformSpec>)
    ensures var (name, value) := SplitAtFirstEquals(spec);
      && (name != "gain" && name != "normalize" ==> r == Err(InvalidDataError(UNKNOWN_TRANSFORM)))
      && (name == "gain" && value.None? ==> r == Err(InvalidDataError(GAIN_NEEDS_VALUE)))
      && (name == "gain" && value.Some? && parseF32(value.value).None? ==> r == Err(InvalidDataError(GAIN_NOT_A_NUMBER)))
      && (name == "gain" && value.Some? && parseF32(value.value).Some? ==> r == Ok(Gain(parseF32(value.value).value)))
      && (name == "normalize" && (value.None? || parseF32(value.value).None?) ==> r == Ok(Normalize(DEFAULT_PEAK)))
      && (name == "normalize" && value.Some? && parseF32(value.value).Some? ==> r == Ok(Normalize(parseF32(value.value).value)))
  {
    var (name, value) := SplitAtFirstEquals(spec);
    if name == "gain" then
      match value
      case None => Err(InvalidDataError(GAIN_NEEDS_VALUE))
      case Some(v) =>
        match parseF32(v)
        case None => Err(InvalidDataError(GAIN_NOT_A_NUMBER))
        case Some(factor) => Ok(Gain(factor))
    else if name == "normalize" then
      var peak := match value
        case None => DEFAULT_PEAK
        case Some(v) => match parseF32(v) case None => DEFAULT_PEAK case Some(p) => p;
      Ok(Normalize(peak))
    else Err(InvalidDataError(UNKNOWN_TRANSFORM))
  }

  /** Parsing fails exactly for an unknown name, or for `gain` without a numeric value; every failure is `InvalidData`. */
  lemma ParseTransformFails(spec: string, parseF32: string -> Option<real>)
    ensures var (name, value) := SplitAtFirstEquals(spec);
      ParseTransform(spec, parseF32).Err? <==>
        (name != "gain" && name != "normalize") || (name == "gain" && (value.None? || parseF32(value.value).None?))
    ensures ParseTransform(spec, parseF32).Err? ==> ParseTransform(spec, parseF32).error.kind == InvalidData
  {
  }

  /** `gain=<v>` builds a gain with the parsed factor, even when `<v>` holds another `=`. */
  lemma ParseGain(value: string, parseF32: string -> Option<real>)
    requires parseF32(value).Some?
    ensures ParseTransform("gain=" + value, parseF32) == Ok(Gain(parseF32(value).value))
  {
    SplitAtFirstEqualsOf("gain", value);
    assert "gain" + "=" + value == "gain=" + value;
  }

  /** A bare `normalize` uses the default peak, and a bare `gain` is refused. */
  lemma ParseBareNames(parseF32: string -> Option<real>)
    ensures ParseTransform("normalize", parseF32) == Ok(Normalize(DEFAULT_PEAK))
    ensures ParseTransform("gain", parseF32) == Err(InvalidDataError(GAIN_NEEDS_VALUE))
  {
    SplitWithoutEquals("normalize");
    SplitWithoutEquals("gain");
  }

  /**
   * Applying `ts` in order, each to the previous output; the first error
   * stops the chain and is the result.
   */
  function RunChain(ts: seq<Transform>, frame: Frame): IoResult<Frame>
  {
    if ts == [] then Ok(frame)
    else
      match ts[0].apply(frame)
      case Err(e) => Err(e)
      case Ok(next) => RunChain(ts[1..], next)
  }

  /** Running `a + b` is running `a`, then `b` on its output, unless `a` fails. */
  lemma {:induction false} RunChainAppend(a: seq<Transform>, b: seq<Transform>, frame: Frame)
    ensures RunChain(a + b, frame) == match RunChain(a, frame) case Err(e) => Err(e) case Ok(g) => RunChain(b, g)
  {
    if a == [] {
      assert a + b == b;
    } else {
      assert (a + b)[1..] == a[1..] + b;
      match a[0].apply(frame)
      case Err(e) =>
      case Ok(next) => RunChainAppend(a[1..], b, next);
    }
  }

  /** When the first `k` transforms succeed and transform `k` fails, the chain returns that error. */
  lemma FirstErrorAborts(ts: seq<Transform>, k: nat, frame: Frame, g: Frame)
    requires k < |ts| && RunChain(ts[..k], frame) == Ok(g) && ts[k].apply(g).Err?
    ensures RunChain(ts, frame) == Err(ts[k].apply(g).error)
  {
    assert ts == ts[..k] + ts[k..];
    RunChainAppend(ts[..k], ts[k..], frame);
  }

  /** `TransformChain`: the transforms in the order they were added. */
  class TransformChain {
    var transforms: seq<Transform>

    /** `new` and `default`: an empty chain. */
    constructor ()
      ensures transforms == []
    {
      transforms := [];
    }

    /** `add`: the transform goes last. */
    method Add(t: Transform)
      modifies this
      ensures transforms == old(transforms) + [t]
    {
      transforms := transforms + [t];
    }

    /** `is_empty`: nothing has been added. */
    predicate IsEmpty()
      reads this
    {
      |transforms| == 0
    }

    /** `name`. */
    function Name(): string
    {
      "chain"
    }

    /** `apply`: every transform in insertion order, each on the previous output; the first error aborts. */
    method Apply(frame: Frame) returns (r: IoResult<Frame>)
      ensures r == RunChain(transforms, frame)
      ensures IsEmpty() ==> r == Ok(frame)
    {
      var current := frame;
      for i := 0 to |transforms|
        invariant RunChain(transforms, frame) == RunChain(transforms[i..], current)
      {
        assert transforms[i..][1..] == transforms[i + 1..];
        var next := transforms[i].apply(current);
        if next.Err? {
          return Err(next.error);
        }
        current := next.value;
      }
      return Ok(current);
    }
  }
}
