/**
 * The subtitle options of the command line (`src/cli/config/subtitle.rs`):
 * a record of optional flag values, filled from the flag map and refused
 * when styling flags come without a track or a language to apply them to.
 */
module Subtitles {
  import opened Wrappers
  import opened Ints
  import opened Messages
  import opened Tracks

  /** The eleven option values, in declaration order, as one value. */
  datatype SubtitleFlags = SubtitleFlags(
    track: Option<u64>, language: Option<string>, codec: Option<string>, defaultFlag: Option<string>,
    shift: Option<string>, fontSize: Option<string>, color: Option<string>, position: Option<string>,
    fps: Option<string>, encoding: Option<string>, translate: Option<string>)

  /** Whether any of the nine flags other than `track` and `language` is present. */
  predicate HasStyleFlag(m: map<string, string>)
  {
    "codec" in m || "default" in m || "shift" in m || "font_size" in m || "color" in m
    || "position" in m || "fps" in m || "encoding" in m || "translate" in m
  }

  class SubtitleConfig {
    var track: Option<u64>
    var language: Option<string>
    var codec: Option<string>
    var defaultFlag: Option<string>
    var shift: Option<string>
    var fontSize: Option<string>
    var color: Option<string>
    var position: Option<string>
    var fps: Option<string>
    var encoding: Option<string>
    var translate: Option<string>

    /** The struct literal: every field as given. */
    constructor (flags: SubtitleFlags)
      ensures Flags() == flags
    {
      track, language, codec, defaultFlag := flags.track, flags.language, flags.codec, flags.defaultFlag;
      shift, fontSize, color, position := flags.shift, flags.fontSize, flags.color, flags.position;
      fps, encoding, translate := flags.fps, flags.encoding, flags.translate;
    }

    /** The current field values. */
    function Flags(): SubtitleFlags
      reads this
    {
      SubtitleFlags(track, language, codec, defaultFlag, shift, fontSize, color, position, fps, encoding, translate)
    }

    /** `set_track`: only the track changes. */
    method SetTrack(t: Option<u64>)
      modifies this
      ensures Flags() == old(Flags()).(track := t)
    {
      track := t;
    }

    /** `set_language`: only the language changes. */
    method SetLanguage(l: Option<string>)
      modifies this
      ensures Flags() == old(Flags()).(language := l)
    {
      language := l;
    }

    /** `is_empty`: no option is set. */
    predicate IsEmpty()
      reads this
    {
      track.None? && language.None? && codec.None? && defaultFlag.None? && shift.None? && fontSize.None?
      && color.None? && position.None? && fps.None? && encoding.None? && translate.None?
    }
  }

  /** `SubtitleConfig::default()`: every option unset. */
  method DefaultConfig() returns (c: SubtitleConfig)
    ensures fresh(c) && c.IsEmpty()
  {
    c := new SubtitleConfig(SubtitleFlags(None, None, None, None, None, None, None, None, None, None, None));
  }

  /**
   * `parse_subtitle`, given the flag map `parse_flags` built: an invalid
   * `track` is refused first; then styling flags with neither a track nor a
   * language are refused; otherwise every option is copied from its flag.
   */
  method ParseSubtitle(m: map<string, string>) returns (r: MsgResult<SubtitleConfig>)
    ensures ParseTrackId(m).Err? ==> r == Err(ParseTrackId(m).error)
    ensures r.Err? <==> ParseTrackId(m).Err? || (ParseTrackId(m) == Ok(None) && "language" !in m && HasStyleFlag(m))
    ensures r.Err? && ParseTrackId(m).Ok? ==> r.error == ErrorMessage("subtitle needs track or language")
    ensures r.Ok? ==> fresh(r.value) && r.value.Flags() == SubtitleFlags(
      ParseTrackId(m).value, Flag(m, "language"), Flag(m, "codec"), Flag(m, "default"),
      Flag(m, "shift"), Flag(m, "font_size"), Flag(m, "color"), Flag(m, "position"),
      Flag(m, "fps"), Flag(m, "encoding"), Flag(m, "translate"))
    ensures r.Ok? ==> (r.value.IsEmpty() <==> ParseTrackId(m) == Ok(None) && "language" !in m && !HasStyleFlag(m))
  {
    var config := new SubtitleConfig(SubtitleFlags(
      None, None, Flag(m, "codec"), Flag(m, "default"), Flag(m, "shift"), Flag(m, "font_size"),
      Flag(m, "color"), Flag(m, "position"), Flag(m, "fps"), Flag(m, "encoding"), Flag(m, "translate")));
    var parsed := ParseTrackId(m);
    if parsed.Err? {
      return Err(parsed.error);
    }
    var t := parsed.value;
    var language := Flag(m, "language");
    if t.None? && language.None? && !config.IsEmpty() {
      return Err(ErrorMessage("subtitle needs track or language"));
    }
    config.SetLanguage(language);
    config.SetTrack(t);
    r := Ok(config);
  }
}
