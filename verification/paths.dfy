/**
 * Path Resolver: stripping a project or solution directory off a path, the
 * separator conventions of the emitted scripts, the directory part of a
 * relative path and Path.Combine, all for a Windows host.
 */
module Paths {
  import opened Results
  import opened Text

  /** Path.DirectorySeparatorChar on the Windows host. */
  const Separator: char := '\\'
  /** Path.AltDirectorySeparatorChar. */
  const AltSeparator: char := '/'
  /** Path.VolumeSeparatorChar. */
  const VolumeSeparator: char := ':'

  /** The prefix every path enumerated under `dir` starts with: `dir` followed by one separator. */
  function Anchor(dir: string): string
  {
    if EndsWith(dir, [Separator]) then dir else dir + [Separator]
  }

  /**
   * The number of characters stripped off a path under `dir` (iDirLen,
   * iSlnDirLength): the directory's length, plus one when it does not
   * already end in the separator.
   */
  function AnchorLength(dir: string): (n: nat)
    ensures n == |Anchor(dir)|
  {
    var n := |dir|;
    if EndsWith(dir, [Separator]) then n else n + 1
  }

  /** string.Substring(start): the rest of `s` from `start` on; it throws when `start` lies past the end. */
  function Substring(s: string, start: nat): Result<string>
  {
    if |s| < start then Failure(SubstringOutOfRange(s, start)) else Success(s[start..])
  }

  /** A path relative to `dir`: path.Substring(AnchorLength(dir)). */
  function Relativise(dir: string, path: string): (r: Result<string>)
    ensures r.Success? <==> AnchorLength(dir) <= |path|
    ensures r.Success? ==> |r.value| == |path| - AnchorLength(dir) && EndsWith(path, r.value)
    ensures r.Failure? ==> r.error == SubstringOutOfRange(path, AnchorLength(dir))
  {
    Substring(path, AnchorLength(dir))
  }

  /** A directory without a trailing separator: dir + "\" + rel relativises back to rel. */
  lemma RelativiseUnterminated(dir: string, rel: string)
    requires !EndsWith(dir, [Separator])
    ensures Relativise(dir, dir + [Separator] + rel) == Success(rel)
  {
    assert (dir + [Separator] + rel)[|dir| + 1..] == rel;
  }

  /** A directory with a trailing separator: dir + rel relativises back to rel. */
  lemma RelativiseTerminated(dir: string, rel: string)
    requires EndsWith(dir, [Separator])
    ensures Relativise(dir, dir + rel) == Success(rel)
  {
    assert (dir + rel)[|dir|..] == rel;
  }

  /** Every path under the anchor relativises, and the anchor plus the result is the path again. */
  lemma RelativiseRestores(dir: string, path: string)
    requires StartsWith(path, Anchor(dir))
    ensures Relativise(dir, path).Success?
    ensures Anchor(dir) + Relativise(dir, path).value == path
  {
    var a := Anchor(dir);
    assert path == path[..|a|] + path[|a|..];
  }

  /** linPath: the path with every backslash turned into a forward slash (the CMake convention). */
  function ToForwardSlashes(s: string): string
  {
    Replace(s, '\\', '/')
  }

  /** No backslash survives the conversion, and a path that had no forward slash can be converted back. */
  lemma ForwardSlashesRoundTrip(s: string)
    ensures '\\' !in ToForwardSlashes(s)
    ensures '/' !in s ==> Replace(ToForwardSlashes(s), '/', '\\') == s
  {
  }

  /**
   * Path.GetDirectoryName of a relative path: everything before the last
   * separator, or the empty string when there is no separator.
   */
  function DirectoryName(p: string): (d: string)
    ensures Separator !in p ==> d == []
    ensures Separator in p ==> |d| < |p| && p[..|d|] == d && p[|d|] == Separator && Separator !in p[|d| + 1..]
  {
    if p == [] then []
    else if p[|p| - 1] == Separator then p[..|p| - 1]
    else DirectoryName(p[..|p| - 1])
  }

  /** The directory part, the separator and the file part make up the path again. */
  lemma DirectoryNameSplits(p: string)
    requires Separator in p
    ensures var d := DirectoryName(p); p == d + [Separator] + p[|d| + 1..]
  {
    var d := DirectoryName(p);
    SplitAround(p, |d|);
  }

  lemma SplitAround(p: string, i: nat)
    requires i < |p|
    ensures p == p[..i] + [p[i]] + p[i + 1..]
  {
    assert p[..i] + [p[i]] == p[..i + 1];
  }

  /** grpPath: every backslash doubled, as a quoted CMake argument requires. */
  function DoubleBackslashes(s: string): string
  {
    if s == [] then []
    else (if s[0] == '\\' then "\\\\" else [s[0]]) + DoubleBackslashes(s[1..])
  }

  /** Reads a doubled-backslash string back: every "\\\\" pair becomes one backslash. */
  function UndoubleBackslashes(s: string): string
  {
    if |s| >= 2 && s[0] == '\\' && s[1] == '\\' then "\\" + UndoubleBackslashes(s[2..])
    else if s == [] then []
    else [s[0]] + UndoubleBackslashes(s[1..])
  }

  /** Doubling grows the string by its number of backslashes, and undoubling restores it. */
  lemma {:induction false} DoubleBackslashesRoundTrip(s: string)
    ensures |DoubleBackslashes(s)| == |s| + Count(s, '\\')
    ensures UndoubleBackslashes(DoubleBackslashes(s)) == s
  {
    if s != [] {
      DoubleBackslashesRoundTrip(s[1..]);
      var rest := DoubleBackslashes(s[1..]);
      if s[0] == '\\' {
        assert ("\\\\" + rest)[2..] == rest;
      } else {
        assert ([s[0]] + rest)[1..] == rest;
      }
      assert s == [s[0]] + s[1..];
    }
  }

  /**
   * Path.Combine(dir, name) for a relative `name`: a separator is inserted
   * unless `dir` is empty or already ends in a separator or a volume colon.
   */
  function Combine(dir: string, name: string): string
  {
    if dir == [] then name
    else if dir[|dir| - 1] in {Separator, AltSeparator, VolumeSeparator} then dir + name
    else dir + [Separator] + name
  }

  /** A file combined into a directory relativises back to its bare name under that directory. */
  lemma CombineRelativises(dir: string, name: string)
    requires dir != [] && dir[|dir| - 1] != AltSeparator && dir[|dir| - 1] != VolumeSeparator
    ensures Relativise(dir, Combine(dir, name)) == Success(name)
  {
    if EndsWith(dir, [Separator]) {
      RelativiseTerminated(dir, name);
    } else {
      RelativiseUnterminated(dir, name);
    }
  }
}
