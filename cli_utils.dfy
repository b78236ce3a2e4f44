/**
 * `get_extension` (`src/cli/utils.rs`): the lower-cased extension of the
 * final component of a Unix path, with the rules of `Path::file_name` and
 * `Path::extension`.
 */
module CliUtils {
  import opened Wrappers
  import opened Messages

  /** `'/'` does not occur in `s`. */
  predicate NoSlash(s: string)
  {
    forall i :: 0 <= i < |s| ==> s[i] != '/'
  }

  /** `'.'` does not occur in `s`. */
  predicate NoDot(s: string)
  {
    forall i :: 0 <= i < |s| ==> s[i] != '.'
  }

  /** The index just past the last `'/'` of `s`, or 0 when there is none. */
  function AfterLastSlash(s: string): (k: nat)
    ensures k <= |s| && NoSlash(s[k..])
    ensures k > 0 ==> s[k - 1] == '/'
  {
    if s == [] then 0
    else if s[|s| - 1] == '/' then |s|
    else AfterLastSlash(s[..|s| - 1])
  }

  /**
   * `Path::file_name`: the last normal component. Trailing `/` and `.`
   * components are skipped; a path ending in `..`, the root and the empty
   * path have none.
   */
  function FileName(path: string): (name: Option<string>)
    ensures name.Some? ==> name.value != "" && name.value != "." && name.value != ".." && NoSlash(name.value)
    decreases |path|
  {
    if path == [] then None
    else if path[|path| - 1] == '/' then FileName(path[..|path| - 1])
    else
      var last := path[AfterLastSlash(path)..];
      if last == "." then FileName(path[..|path| - 1])
      else if last == ".." then None
      else Some(last)
  }

  /** The index of the last `'.'` of `s`, if any. */
  function LastDot(s: string): (k: Option<nat>)
    ensures k.Some? ==> k.value < |s| && s[k.value] == '.' && NoDot(s[k.value + 1..])
    ensures k.None? ==> NoDot(s)
  {
    if s == [] then None
    else if s[|s| - 1] == '.' then Some(|s| - 1)
    else
      var k := LastDot(s[..|s| - 1]);
      assert k.Some? ==> s[k.value + 1..] == s[..|s| - 1][k.value + 1..] + [s[|s| - 1]];
      k
  }

  /** `Path::extension` of a file name: what follows its last `.`, unless that dot is the first character. */
  function Extension(name: string): (ext: Option<string>)
    ensures ext.Some? ==> NoDot(ext.value)
  {
    match LastDot(name)
    case None => None
    case Some(k) => if k == 0 then None else Some(name[k + 1..])
  }

  /** ASCII lower-casing of one character. */
  function LowerChar(c: char): char
  {
    if 'A' <= c <= 'Z' then (c as int + 32) as char else c
  }

  /** `str::to_lowercase`, for ASCII letters. */
  function Lower(s: string): (t: string)
    ensures |t| == |s| && forall i :: 0 <= i < |s| ==> t[i] == LowerChar(s[i])
  {
    seq(|s|, i requires 0 <= i < |s| => LowerChar(s[i]))
  }

  const NO_EXTENSION: string := "no file extension"

  /** `get_extension`. */
  function GetExtension(path: string): (r: MsgResult<string>)
    ensures r.Err? ==> r.error == ErrorMessage(NO_EXTENSION)
    ensures r.Ok? ==> NoDot(r.value) && NoSlash(r.value)
    ensures r.Ok? ==> forall i :: 0 <= i < |r.value| ==> !('A' <= r.value[i] <= 'Z')
  {
    match FileName(path)
    case None => Err(ErrorMessage(NO_EXTENSION))
    case Some(name) =>
      match Extension(name)
      case None => Err(ErrorMessage(NO_EXTENSION))
      case Some(ext) =>
        assert NoSlash(ext) by {
          var k := LastDot(name).value;
          assert ext == name[k + 1..];
          forall i | 0 <= i < |ext| ensures ext[i] != '/' {
            assert ext[i] == name[k + 1 + i];
          }
        }
        Ok(Lower(ext))
  }

  /**
   * A final component `stem.ext` with a non-empty stem has the extension
   * `ext`, lower-cased, whatever directory precedes it.
   */
  lemma ExtensionOfFileName(dir: string, stem: string, ext: string)
    requires stem != [] && NoSlash(stem) && NoSlash(ext) && NoDot(ext) && ext != []
    ensures GetExtension(dir + "/" + stem + "." + ext) == Ok(Lower(ext))
  {
    var path := dir + "/" + stem + "." + ext;
    var name := stem + "." + ext;
    assert path == (dir + "/") + name;
    SlashThenName(dir + "/", name);
    assert FileName(path) == Some(name) by {
      assert path[AfterLastSlash(path)..] == name;
      assert |name| >= 3;
    }
    DotBeforeExtension(stem, ext);
  }

  /** The last slash of `prefix + name` is the one ending `prefix` when `name` has none. */
  lemma {:induction false} SlashThenName(prefix: string, name: string)
    requires prefix != [] && prefix[|prefix| - 1] == '/' && NoSlash(name) && name != []
    ensures AfterLastSlash(prefix + name) == |prefix|
    decreases |name|
  {
    var s := prefix + name;
    assert s[|s| - 1] == name[|name| - 1];
    if |name| == 1 {
      assert s[..|s| - 1] == prefix;
    } else {
      assert s[..|s| - 1] == prefix + name[..|name| - 1];
      SlashThenName(prefix, name[..|name| - 1]);
    }
  }

  /** The last dot of `stem.ext` is the one before `ext`. */
  lemma DotBeforeExtension(stem: string, ext: string)
    requires stem != [] && NoDot(ext)
    ensures LastDot(stem + "." + ext) == Some(|stem|)
    ensures Extension(stem + "." + ext) == Some(ext)
  {
    var name := stem + "." + ext;
    DotThenNoDot(stem + ".", ext);
    assert name[|stem| + 1..] == ext;
  }

  /** Appending text without dots after a dot keeps that dot the last one. */
  lemma {:induction false} DotThenNoDot(prefix: string, tail: string)
    requires prefix != [] && prefix[|prefix| - 1] == '.' && NoDot(tail)
    ensures LastDot(prefix + tail) == Some(|prefix| - 1)
    decreases |tail|
  {
    var s := prefix + tail;
    if tail == [] {
      assert s == prefix;
    } else {
      assert s[|s| - 1] == tail[|tail| - 1];
      assert s[..|s| - 1] == prefix + tail[..|tail| - 1];
      DotThenNoDot(prefix, tail[..|tail| - 1]);
    }
  }

  /** A name whose only dot is its first character, such as `.wav`, has no extension. */
  lemma HiddenFileHasNoExtension(rest: string)
    requires NoDot(rest)
    ensures Extension("." + rest) == None
  {
    DotThenNoDot(".", rest);
  }

  /** Lower-casing the path does not change the result: the extension is case-insensitive. */
  lemma GetExtensionIgnoresCase(path: string)
    ensures GetExtension(Lower(path)) == GetExtension(path)
  {
    FileNameLower(path);
    var name := FileName(path);
    if name.Some? {
      ExtensionLower(name.value);
      var ext := Extension(name.value);
      if ext.Some? {
        LowerTwice(ext.value);
      }
    }
  }

  /** Lower-casing works character by character, so it commutes with taking a suffix. */
  lemma LowerSuffix(s: string, k: nat)
    requires k <= |s|
    ensures Lower(s)[k..] == Lower(s[k..])
  {
  }

  /** Lower-casing twice is lower-casing once. */
  lemma LowerTwice(s: string)
    ensures Lower(Lower(s)) == Lower(s)
  {
  }

  /** `FileName` commutes with lower-casing: case never turns a character into `/` or `.`. */
  lemma {:induction false} FileNameLower(path: string)
    ensures FileName(Lower(path)) == (match FileName(path) case None => None case Some(n) => Some(Lower(n)))
    decreases |path|
  {
    var low := Lower(path);
    if path != [] {
      assert Lower(path[..|path| - 1]) == low[..|low| - 1];
      if path[|path| - 1] == '/' {
        FileNameLower(path[..|path| - 1]);
      } else {
        AfterLastSlashLower(path);
        var k := AfterLastSlash(path);
        LowerSuffix(path, k);
        LowerKeepsDots(path[k..]);
        if path[k..] == "." {
          FileNameLower(path[..|path| - 1]);
        }
      }
    }
  }

  /** Lower-casing keeps `/` positions. */
  lemma {:induction false} AfterLastSlashLower(s: string)
    ensures AfterLastSlash(Lower(s)) == AfterLastSlash(s)
    decreases |s|
  {
    if s != [] {
      assert Lower(s[..|s| - 1]) == Lower(s)[..|s| - 1];
      AfterLastSlashLower(s[..|s| - 1]);
    }
  }

  /** A string is `.` or `..` exactly when its lower-cased form is. */
  lemma LowerKeepsDots(s: string)
    ensures (Lower(s) == ".") == (s == ".") && (Lower(s) == "..") == (s == "..")
  {
    if |s| == 1 { assert Lower(s)[0] == LowerChar(s[0]); }
    if |s| == 2 { assert Lower(s)[0] == LowerChar(s[0]) && Lower(s)[1] == LowerChar(s[1]); }
  }

  /** `Extension` commutes with lower-casing. */
  lemma ExtensionLower(name: string)
    ensures Extension(Lower(name)) == (match Extension(name) case None => None case Some(e) => Some(Lower(e)))
  {
    LastDotLower(name);
    match LastDot(name)
    case None =>
    case Some(k) =>
      LowerSuffix(name, k + 1);
  }

  /** Lower-casing keeps `.` positions. */
  lemma {:induction false} LastDotLower(s: string)
    ensures LastDot(Lower(s)) == LastDot(s)
    decreases |s|
  {
    if s != [] {
      assert Lower(s[..|s| - 1]) == Lower(s)[..|s| - 1];
      LastDotLower(s[..|s| - 1]);
    }
  }
}
