/**
 * Track selection on the command line (`src/cli/config/track.rs`): one
 * stream index or every stream, resolved against the number of streams,
 * and the `track` flag that names it.
 */
module Tracks {
  import opened Wrappers
  import opened Ints
  import opened Messages

  /** `Track::One(idx)` or the default `Track::All`; `usize` is 64 bits wide. */
  datatype Track = One(idx: u64) | All

  /** `Track::default()`. */
  function DefaultTrack(): Track { All }

  /**
   * `resolve`: the stream indices the selection stands for when there are
   * `maxTrack` streams. The out-of-bounds message prints `maxTrack - 1` with
   * `usize` wrap-around.
   */
  function Resolve(t: Track, maxTrack: u64): (r: MsgResult<seq<u64>>)
  {
    match t
    case One(idx) =>
      if idx >= maxTrack then
        Err(ErrorMessage("track " + Decimal(idx) + " out of bounds (max " + Decimal(WrapU64(maxTrack - 1)) + ")"))
      else Ok([idx])
    case All =>
      if maxTrack == 0 then Err(ErrorMessage("no streams"))
      else Ok(seq(maxTrack, k requires 0 <= k < maxTrack => k as u64))
  }

  /**
   * Resolution succeeds exactly when the selection names an existing stream
   * (or, for `All`, when there is one); then every index is below
   * `maxTrack`, `One(i)` gives `[i]` and `All` gives every index once in
   * ascending order.
   */
  lemma ResolveMeaning(t: Track, maxTrack: u64)
    ensures Resolve(t, maxTrack).Ok? <==> (t.One? ==> t.idx < maxTrack) && (t.All? ==> maxTrack > 0)
    ensures Resolve(t, maxTrack).Err? ==> Resolve(t, maxTrack).error.kind == MessageKind.Error
    ensures Resolve(t, maxTrack).Ok? ==>
      var v := Resolve(t, maxTrack).value;
      (forall k :: 0 <= k < |v| ==> v[k] < maxTrack)
      && (t.One? ==> v == [t.idx])
      && (t.All? ==> |v| == maxTrack && forall k :: 0 <= k < |v| ==> v[k] == k)
  {
  }

  /** The resolved indices are strictly increasing, so no stream is selected twice. */
  lemma ResolveAscending(t: Track, maxTrack: u64, i: nat, j: nat)
    requires Resolve(t, maxTrack).Ok?
    requires i < j < |Resolve(t, maxTrack).value|
    ensures Resolve(t, maxTrack).value[i] < Resolve(t, maxTrack).value[j]
  {
  }

  /** With no streams every `One` is out of bounds, and the message prints `usize::MAX` (`m`) as the maximum. */
  lemma OutOfBoundsMessageWraps(idx: u64, m: nat)
    requires m == U64_LIMIT - 1
    ensures Resolve(One(idx), 0) == Err(ErrorMessage("track " + Decimal(idx) + " out of bounds (max " + Decimal(m) + ")"))
  {
    assert WrapU64(0 - 1) == m;
  }

  /** `uncheck_resolve`: the index itself, or 0 for `All`. */
  function UncheckResolve(t: Track): (i: u64)
    ensures t.One? ==> i == t.idx
    ensures t.All? ==> i == 0
  {
    match t
    case One(idx) => idx
    case All => 0
  }

  /** Whenever resolution succeeds, the unchecked index is the first resolved one. */
  lemma UncheckResolveIsFirst(t: Track, maxTrack: u64)
    requires Resolve(t, maxTrack).Ok?
    ensures |Resolve(t, maxTrack).value| > 0 && UncheckResolve(t) == Resolve(t, maxTrack).value[0]
  {
  }

  predicate AllDigits(s: string)
  {
    forall i :: 0 <= i < |s| ==> '0' <= s[i] <= '9'
  }

  /** The value of a string of decimal digits. */
  function DigitsValue(s: string): nat
    requires AllDigits(s)
  {
    if s == [] then 0 else DigitsValue(s[..|s| - 1]) * 10 + (s[|s| - 1] - '0') as nat
  }

  /**
   * `str::parse::<usize>()`: an optional `+` and at least one ASCII digit,
   * with a value that fits in 64 bits.
   */
  function ParseUsize(s: string): (r: Option<u64>)
  {
    var digits := if |s| > 0 && s[0] == '+' then s[1..] else s;
    if digits != [] && AllDigits(digits) && DigitsValue(digits) < U64_LIMIT then Some(DigitsValue(digits) as u64)
    else None
  }

  /** A digit character stands for its digit. */
  lemma DigitCharValue(d: nat)
    requires d < 10
    ensures '0' <= DigitChar(d) <= '9' && (DigitChar(d) - '0') as nat == d
  {
  }

  /** Reading back the digits `Decimal` writes gives the number. */
  lemma {:induction false} DecimalValue(n: nat)
    ensures AllDigits(Decimal(n)) && DigitsValue(Decimal(n)) == n
  {
    var s := Decimal(n);
    if n < 10 {
      DigitCharValue(n);
      assert s[..0] == [];
    } else {
      DecimalValue(n / 10);
      DigitCharValue(n % 10);
      assert s[..|s| - 1] == Decimal(n / 10);
      assert DigitsValue(s) == DigitsValue(Decimal(n / 10)) * 10 + (DigitChar(n % 10) - '0') as nat;
    }
  }

  /** Every `usize` printed in decimal parses back to itself. */
  lemma ParseUsizeOfDecimal(n: u64)
    ensures ParseUsize(Decimal(n)) == Some(n)
  {
    DecimalValue(n);
  }

  /** An empty string, a lone sign, a minus sign or any non-digit is not a `usize`. */
  lemma ParseUsizeRejects(s: string)
    ensures s == "" || s == "+" || (|s| > 0 && s[0] == '-') ==> ParseUsize(s) == None
    ensures (exists i :: 0 < i < |s| && !('0' <= s[i] <= '9')) ==> ParseUsize(s) == None
  {
    if i :| 0 < i < |s| && !('0' <= s[i] <= '9') {
      if s[0] == '+' {
        assert !('0' <= s[1..][i - 1] <= '9');
      }
    }
  }

  /** `map.get("track")`. */
  function Flag(m: map<string, string>, key: string): Option<string>
  {
    if key in m then Some(m[key]) else None
  }

  /**
   * `parse_track_id`: no `track` flag, `all` or `*` select every track; a
   * `usize` selects that one; anything else is an error naming the text.
   */
  function ParseTrackId(m: map<string, string>): (r: MsgResult<Option<u64>>)
    ensures "track" !in m ==> r == Ok(None)
    ensures "track" in m && (m["track"] == "all" || m["track"] == "*") ==> r == Ok(None)
    ensures r.Err? <==> "track" in m && m["track"] != "all" && m["track"] != "*" && ParseUsize(m["track"]).None?
    ensures r.Err? ==> r.error == ErrorMessage("invalid track: " + m["track"])
    ensures r.Ok? && r.value.Some? ==> "track" in m && ParseUsize(m["track"]) == r.value
  {
    match Flag(m, "track")
    case None => Ok(None)
    case Some(s) =>
      if s == "all" || s == "*" then Ok(None)
      else
        match ParseUsize(s)
        case Some(n) => Ok(Some(n))
        case None => Err(ErrorMessage("invalid track: " + s))
  }

  /** A track index written in decimal comes back as that index. */
  lemma ParseTrackIdRoundTrip(m: map<string, string>, n: u64)
    ensures ParseTrackId(m["track" := Decimal(n)]) == Ok(Some(n))
  {
    ParseUsizeOfDecimal(n);
    assert Decimal(n) != "all" && Decimal(n) != "*" by {
      assert '0' <= Decimal(n)[0] <= '9';
    }
  }
}
