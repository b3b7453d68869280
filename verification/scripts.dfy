/**
 * Root Script Emitter and Project Script Emitter: the lines of the
 * solution's CMakeLists.txt and of each project's CMakeLists.txt. A
 * StreamWriter is modelled as the sequence of lines it receives; a Write
 * followed by a WriteLine makes one line.
 */
module Scripts {
  import opened Results
  import opened Text
  import opened Paths
  import opened Keys
  import opened Projects
  import opened Sources

  /** CMFILE: the name of every generated script. */
  const CMakeListsFile: string := "CMakeLists.txt"

  const MinimumVersionLine: string := "cmake_minimum_required (VERSION 3.0)"
  const IncludeComment: string := "# Properties->C/C++->General->Additional Include Directories"
  const LinkComment: string := "# Properties->Linker->Input->Additional Dependencie"

  const OwnIncludeLine: string := "include_directories (.)"
  /** What a dependency's include line puts before and after its solution-relative directory. */
  const DependencyIncludeOpen: string := "include_directories (\"${PROJECT_SOURCE_DIR}/"
  const DependencyIncludeClose: string := "\")"
  const IfWin32Line: string := "if(WIN32)"
  const Win32FlagsLine: string := "set (CMAKE_CXX_FLAGS \"${CMAKE_CXX_FLAGS} /W4\")"
  const EndIfWin32Line: string := "endif(WIN32)"
  const IfUnixLine: string := "if(UNIX)"
  const UnixFlagsLine: string := "set (CMAKE_CXX_FLAGS \"${CMAKE_CXX_FLAGS} -std=c++11\")"
  const EndIfUnixLine: string := "endif(UNIX)"

  /** A generated file: where it is written and the lines written to it. */
  datatype ScriptFile = ScriptFile(path: string, lines: seq<string>)

  // ---------------------------------------------------------------- solution script

  function SolutionHeader(slnName: string): seq<string>
  {
    [MinimumVersionLine, "project (" + slnName + ")", "set_property(GLOBAL PROPERTY USE_FOLDERS ON)", ""]
  }

  function SubdirectoryLine(projName: string): string
  {
    "add_subdirectory (" + projName + ")"
  }

  function SubdirectoryLines(projNames: seq<string>): seq<string>
  {
    if projNames == [] then []
    else SubdirectoryLines(projNames[..|projNames| - 1]) + [SubdirectoryLine(projNames[|projNames| - 1])]
  }

  /** The lines of the solution's CMakeLists.txt. */
  function SolutionScript(slnName: string, projNames: seq<string>): seq<string>
  {
    SolutionHeader(slnName) + SubdirectoryLines(projNames)
  }

  /**
   * The solution script is the three header lines, one blank line, then one
   * add_subdirectory line per project, in input order: 4 + |projNames| lines.
   */
  lemma {:induction false} SolutionScriptLayout(slnName: string, projNames: seq<string>)
    ensures |SolutionScript(slnName, projNames)| == 4 + |projNames|
    ensures SolutionScript(slnName, projNames)[..4] ==
      [MinimumVersionLine, "project (" + slnName + ")", "set_property(GLOBAL PROPERTY USE_FOLDERS ON)", ""]
    ensures forall i :: 0 <= i < |projNames| ==>
      SolutionScript(slnName, projNames)[4 + i] == "add_subdirectory (" + projNames[i] + ")"
  {
    if projNames != [] {
      var init := projNames[..|projNames| - 1];
      SolutionScriptLayout(slnName, init);
      assert SolutionScript(slnName, projNames) == SolutionScript(slnName, init) + [SubdirectoryLine(projNames[|projNames| - 1])];
      assert forall i :: 0 <= i < |init| ==> init[i] == projNames[i];
    }
  }

  /** CreateSolutionCMakeList: writes the header, then one add_subdirectory line per project name. */
  method CreateSolutionCMakeList(slnName: string, slnDir: string, projNames: seq<string>) returns (file: ScriptFile)
    ensures file == ScriptFile(Combine(slnDir, CMakeListsFile), SolutionScript(slnName, projNames))
  {
    var lines: seq<string> := [];
    lines := lines + ["cmake_minimum_required (VERSION 3.0)"];
    lines := lines + ["project (" + slnName + ")"];
    lines := lines + ["set_property(GLOBAL PROPERTY USE_FOLDERS ON)"];
    lines := lines + [""];
    for i := 0 to |projNames|
      invariant lines == SolutionScript(slnName, projNames[..i])
    {
      lines := lines + ["add_subdirectory (" + projNames[i] + ")"];
      assert projNames[..i + 1][..i] == projNames[..i];
    }
    assert projNames[..|projNames|] == projNames;
    file := ScriptFile(Combine(slnDir, CMakeListsFile), lines);
  }

  // ---------------------------------------------------------------- include directories

  /** The include_directories line for a dependency: its directory relative to the solution, with forward slashes. */
  function IncludeLine(slnDir: string, dep: ProjInfo): Result<string>
  {
    var rel :- Relativise(slnDir, dep.directory);
    Success(DependencyIncludeOpen + ToForwardSlashes(rel) + DependencyIncludeClose)
  }

  /** One include line per dependency name that resolves, using the first matching project; others are skipped. */
  function IncludeLines(slnDir: string, names: seq<string>, projs: seq<ProjInfo>): Result<seq<string>>
  {
    if names == [] then Success([])
    else
      var init :- IncludeLines(slnDir, names[..|names| - 1], projs);
      var i := FirstMatch(projs, names[|names| - 1]);
      if i == |projs| then Success(init)
      else
        var line :- IncludeLine(slnDir, projs[i]);
        Success(init + [line])
  }

  /** The include section: nothing without dependencies, otherwise the comment header and the include lines. */
  function IncludeSection(slnDir: string, names: seq<string>, projs: seq<ProjInfo>): Result<seq<string>>
  {
    if names == [] then Success([])
    else
      var lines :- IncludeLines(slnDir, names, projs);
      Success([IncludeComment] + lines)
  }

  /** For every dependency name, whether it resolves to a project. */
  function ResolvedMask(names: seq<string>, projs: seq<ProjInfo>): (mask: seq<bool>)
    ensures |mask| == |names|
    ensures forall j :: 0 <= j < |names| ==> mask[j] == Resolves(projs, names[j])
  {
    seq(|names|, j requires 0 <= j < |names| => Resolves(projs, names[j]))
  }

  /** Positions, in increasing order, of the true entries of a mask: all of them and no other. */
  function TrueIndexes(mask: seq<bool>): (ix: seq<nat>)
    ensures forall k :: 0 <= k < |ix| ==> ix[k] < |mask| && mask[ix[k]]
    ensures forall k, l :: 0 <= k < l < |ix| ==> ix[k] < ix[l]
    ensures forall j :: 0 <= j < |mask| && mask[j] ==> j in ix
  {
    if mask == [] then []
    else
      var n := |mask| - 1;
      var ix := TrueIndexes(mask[..n]);
      ix + (if mask[n] then [n] else [])
  }

  /** Positions, in increasing order, of the dependency names that resolve. */
  function ResolvedIndexes(names: seq<string>, projs: seq<ProjInfo>): seq<nat>
  {
    TrueIndexes(ResolvedMask(names, projs))
  }

  lemma ResolvedIndexesStep(init: seq<string>, name: string, projs: seq<ProjInfo>)
    ensures ResolvedIndexes(init + [name], projs) ==
      ResolvedIndexes(init, projs) + (if Resolves(projs, name) then [|init|] else [])
  {
    var mask := ResolvedMask(init + [name], projs);
    assert mask[..|init|] == ResolvedMask(init, projs);
  }

  lemma IncludeLinesStep(slnDir: string, init: seq<string>, name: string, projs: seq<ProjInfo>)
    ensures IncludeLines(slnDir, init + [name], projs) ==
      var i := FirstMatch(projs, name);
      if IncludeLines(slnDir, init, projs).Failure? || i == |projs| then IncludeLines(slnDir, init, projs)
      else if IncludeLine(slnDir, projs[i]).Failure? then Failure(IncludeLine(slnDir, projs[i]).error)
      else Success(IncludeLines(slnDir, init, projs).value + [IncludeLine(slnDir, projs[i]).value])
  {
    assert (init + [name])[..|init|] == init;
  }

  /** Once the lines for a prefix of the names throw, the whole section throws the same exception. */
  lemma {:induction false} IncludeLinesPrefixFailure(slnDir: string, names: seq<string>, projs: seq<ProjInfo>, i: nat)
    requires i <= |names|
    requires IncludeLines(slnDir, names[..i], projs).Failure?
    ensures IncludeLines(slnDir, names, projs) == IncludeLines(slnDir, names[..i], projs)
    decreases |names|
  {
    if i < |names| {
      var n := |names| - 1;
      var init := names[..n];
      assert names == init + [names[n]];
      assert init[..i] == names[..i];
      IncludeLinesPrefixFailure(slnDir, init, projs, i);
      IncludeLinesStep(slnDir, init, names[n], projs);
    } else {
      assert names[..i] == names;
    }
  }

  /** The directory of the project a resolved name picks is long enough to strip the solution directory off. */
  predicate IncludeRelativises(slnDir: string, projs: seq<ProjInfo>, name: string)
  {
    Resolves(projs, name) ==> AnchorLength(slnDir) <= |projs[FirstMatch(projs, name)].directory|
  }

  /**
   * Writing the include lines throws exactly when some resolved dependency's
   * directory is shorter than the stripped solution-directory prefix.
   */
  lemma {:induction false} IncludeLinesSucceeds(slnDir: string, names: seq<string>, projs: seq<ProjInfo>)
    ensures IncludeLines(slnDir, names, projs).Success? <==>
      forall j :: 0 <= j < |names| ==> IncludeRelativises(slnDir, projs, names[j])
  {
    if names != [] {
      var n := |names| - 1;
      var init, last := names[..n], names[n];
      SplitLast(names);
      IncludeLinesStep(slnDir, init, last, projs);
      IncludeLinesSucceeds(slnDir, init, projs);
      assert forall j :: 0 <= j < n ==> names[j] == init[j];
    }
  }

  /** The lines each resolved dependency name gives, in order. */
  predicate LinesOfResolved(slnDir: string, names: seq<string>, projs: seq<ProjInfo>, ls: seq<string>, ix: seq<nat>)
  {
    |ls| == |ix| &&
    forall k :: 0 <= k < |ls| ==>
      ix[k] < |names| && Resolves(projs, names[ix[k]]) && IncludeLine(slnDir, projs[FirstMatch(projs, names[ix[k]])]) == Success(ls[k])
  }

  /** Extending the names keeps what was established for the shorter list. */
  lemma LinesOfResolvedExtend(slnDir: string, init: seq<string>, last: string, projs: seq<ProjInfo>, ls: seq<string>, ix: seq<nat>)
    requires LinesOfResolved(slnDir, init, projs, ls, ix)
    ensures LinesOfResolved(slnDir, init + [last], projs, ls, ix)
  {
    var names := init + [last];
    forall k | 0 <= k < |ls|
      ensures names[ix[k]] == init[ix[k]]
    {
    }
  }

  /** Appending the line of one more resolved name. */
  lemma LinesOfResolvedAppend(slnDir: string, names: seq<string>, projs: seq<ProjInfo>, ls: seq<string>, ix: seq<nat>, n: nat, line: string)
    requires LinesOfResolved(slnDir, names, projs, ls, ix)
    requires n < |names| && Resolves(projs, names[n])
    requires IncludeLine(slnDir, projs[FirstMatch(projs, names[n])]) == Success(line)
    ensures LinesOfResolved(slnDir, names, projs, ls + [line], ix + [n])
  {
    var ls', ix' := ls + [line], ix + [n];
    forall k | 0 <= k < |ls'|
      ensures ix'[k] < |names| && Resolves(projs, names[ix'[k]])
      ensures IncludeLine(slnDir, projs[FirstMatch(projs, names[ix'[k]])]) == Success(ls'[k])
    {
      if k < |ls| {
        assert ls'[k] == ls[k] && ix'[k] == ix[k];
      }
    }
  }

  /**
   * The include lines are, in order, one per dependency name that resolves,
   * each built from the directory of the first project whose name matches
   * case-insensitively; names that resolve nowhere produce no line.
   */
  lemma {:induction false} IncludeLinesResolved(slnDir: string, names: seq<string>, projs: seq<ProjInfo>)
    requires IncludeLines(slnDir, names, projs).Success?
    ensures LinesOfResolved(slnDir, names, projs, IncludeLines(slnDir, names, projs).value, ResolvedIndexes(names, projs))
  {
    if names != [] {
      var n := |names| - 1;
      var init, last := names[..n], names[n];
      SplitLast(names);
      IncludeLinesStep(slnDir, init, last, projs);
      IncludeLinesResolved(slnDir, init, projs);
      ResolvedIndexesStep(init, last, projs);
      var ls0, ix0 := IncludeLines(slnDir, init, projs).value, ResolvedIndexes(init, projs);
      LinesOfResolvedExtend(slnDir, init, last, projs, ls0, ix0);
      var i := FirstMatch(projs, last);
      if i < |projs| {
        LinesOfResolvedAppend(slnDir, names, projs, ls0, ix0, n, IncludeLine(slnDir, projs[i]).value);
      }
    }
  }

  /**
   * The comment header is written exactly when the dependency list is
   * non-empty, whether or not any name resolves, and the include lines follow it.
   */
  lemma IncludeSectionHeader(slnDir: string, names: seq<string>, projs: seq<ProjInfo>)
    requires IncludeSection(slnDir, names, projs).Success?
    ensures var sec := IncludeSection(slnDir, names, projs).value;
      && (sec == [] <==> names == [])
      && (names != [] ==> sec[0] == IncludeComment && sec[1..] == IncludeLines(slnDir, names, projs).value)
  {
    if names != [] {
      var sec := IncludeSection(slnDir, names, projs).value;
      assert sec[1..] == IncludeLines(slnDir, names, projs).value;
    }
  }

  /** The foreach over ProjDependencyNames with `continue` for names that resolve nowhere. */
  method EmitIncludeSection(slnDir: string, names: seq<string>, projs: seq<ProjInfo>) returns (r: Result<seq<string>>)
    ensures r == IncludeSection(slnDir, names, projs)
  {
    if |names| == 0 {
      return Success([]);
    }
    var lines: seq<string> := [IncludeComment];
    var written: seq<string> := [];
    assert names[..0] == [];
    for i := 0 to |names|
      invariant lines == [IncludeComment] + written
      invariant IncludeLines(slnDir, names[..i], projs) == Success(written)
    {
      var sDepProjName := names[i];
      IncludeLinesStep(slnDir, names[..i], sDepProjName, projs);
      PrefixSnoc(names, i);
      var j := FirstMatch(projs, sDepProjName);
      if j == |projs| {
        continue;
      }
      var pDep := projs[j];
      var iSlnDirLength := |slnDir|;
      if !EndsWith(slnDir, [Separator]) {
        iSlnDirLength := iSlnDirLength + 1;
      }
      assert iSlnDirLength == AnchorLength(slnDir);
      if |pDep.directory| < iSlnDirLength {
        IncludeLinesPrefixFailure(slnDir, names, projs, i + 1);
        return Failure(SubstringOutOfRange(pDep.directory, iSlnDirLength));
      }
      var sRelDepProjPath := ToForwardSlashes(pDep.directory[iSlnDirLength..]);
      var line := DependencyIncludeOpen + sRelDepProjPath + DependencyIncludeClose;
      assert IncludeLine(slnDir, pDep) == Success(line);
      AppendAssoc([IncludeComment], written, [line]);
      lines := lines + [line];
      written := written + [line];
    }
    assert names[..|names|] == names;
    return Success(lines);
  }

  // ---------------------------------------------------------------- target and settings

  /** What sw.Write puts before the source list: the target declaration chosen by the configuration type. */
  function TargetPrefix(p: ProjInfo): string
  {
    if p.projType == Application then "add_executable (" + p.name
    else if p.projType == DynamicLibrary then "add_library(" + p.name + " DYNAMIC"
    else if p.projType == StaticLibrary then "add_library(" + p.name + " STATIC"
    else ""
  }

  /** The target line: the prefix, then " ", the space-joined keys and ")". */
  function TargetLine(p: ProjInfo, keys: seq<string>): string
  {
    TargetPrefix(p) + " " + Join(keys, ' ') + ")"
  }

  function FolderLine(p: ProjInfo): string
  {
    "set_property(TARGET " + p.name + " PROPERTY FOLDER \"" + (if p.projType == Application then "apps" else "libs") + "\")"
  }

  function LinkLine(p: ProjInfo): string
  {
    "target_link_libraries (" + p.name + " " + Join(p.dependencyNames, ' ') + ")"
  }

  /** Everything from the own-directory include to the C++ standard property. */
  function SettingsLines(p: ProjInfo, keys: seq<string>): seq<string>
  {
    OwnIncludeLines() + TargetLines(p, keys) + FlagLines() + FolderLines(p)
  }

  function OwnIncludeLines(): seq<string>
  {
    ["", IncludeComment, OwnIncludeLine]
  }

  function TargetLines(p: ProjInfo, keys: seq<string>): seq<string>
  {
    ["", ConfigComment(p), TargetLine(p, keys)]
  }

  function ConfigComment(p: ProjInfo): string
  {
    "# Set Properties->General->Configuration Type to " + ConfTypeName(p.projType)
  }

  function FlagLines(): seq<string>
  {
    [ "", IfWin32Line, Win32FlagsLine, EndIfWin32Line, "", IfUnixLine, UnixFlagsLine, EndIfUnixLine ]
  }

  function FolderLines(p: ProjInfo): seq<string>
  {
    ["", FolderLine(p), StandardLine(p)]
  }

  /** The C++ standard the target is built with (CMake 3.1.3 and later). */
  function StandardLine(p: ProjInfo): string
  {
    "set_property(TARGET " + p.name + " PROPERTY CXX_STANDARD 11)"
  }

  /** The link section: nothing without dependencies, otherwise a blank line, a comment and the link line. */
  function LinkSection(p: ProjInfo): seq<string>
  {
    if p.dependencyNames == [] then [] else ["", LinkComment, LinkLine(p)]
  }

  /** A target prefix is written exactly for the three known configuration types. */
  lemma TargetPrefixKnown(p: ProjInfo)
    ensures TargetPrefix(p) == [] <==> p.projType != Application && p.projType != DynamicLibrary && p.projType != StaticLibrary
  {
  }

  /**
   * Whatever the prefix, the target line ends with " ", the key references
   * separated by single spaces, and ")"; splitting that list on spaces gives
   * back every key reference, in order.
   */
  lemma TargetSourceList(p: ProjInfo, es: seq<SourceFile>)
    requires |es| > 0
    requires forall k :: 0 <= k < |es| ==> ' ' !in es[k].key
    ensures var line, n := TargetLine(p, SourceKeys(es)), |TargetPrefix(p)|;
      && |line| >= n + 2
      && line[..n + 1] == TargetPrefix(p) + " "
      && line[|line| - 1] == ')'
      && Split(line[n + 1..|line| - 1], ' ') == SourceKeys(es)
  {
    var keys := SourceKeys(es);
    SourceLinesAt(es);
    forall k | 0 <= k < |keys|
      ensures ' ' !in keys[k]
    {
      assert keys[k] == "${" + es[k].key + "}";
    }
    Bracketed(TargetPrefix(p), Join(keys, ' '));
    SplitJoin(keys, ' ');
  }

  /** Where the parts of `head + " " + list + ")"` sit. */
  lemma Bracketed(head: string, list: string)
    ensures var line := head + " " + list + ")";
      && |line| == |head| + |list| + 2
      && line[..|head| + 1] == head + " "
      && line[|line| - 1] == ')'
      && line[|head| + 1..|line| - 1] == list
  {
    var line := head + " " + list + ")";
    assert line[..|head| + 1] == head + " ";
    assert line[|head| + 1..|line| - 1] == list;
  }

  /** The FOLDER bucket is "apps" exactly for an application, "libs" for every other type. */
  lemma FolderBucket(p: ProjInfo)
    ensures EndsWith(FolderLine(p), "\"apps\")") <==> p.projType == Application
    ensures EndsWith(FolderLine(p), "\"libs\")") <==> p.projType != Application
  {
    var line := FolderLine(p);
    var tail := line[|line| - 7..];
    if p.projType == Application {
      assert tail == "\"apps\")";
    } else {
      assert tail == "\"libs\")";
    }
  }

  /**
   * The link line names every raw dependency, resolvable or not, in the
   * original order: splitting its list on spaces gives the names back.
   */
  lemma LinkedNames(p: ProjInfo)
    requires p.dependencyNames != []
    requires forall k :: 0 <= k < |p.dependencyNames| ==> ' ' !in p.dependencyNames[k]
    ensures var line, n := LinkLine(p), |"target_link_libraries (" + p.name + " "|;
      && |line| >= n + 1
      && line[..n] == "target_link_libraries (" + p.name + " "
      && line[|line| - 1] == ')'
      && Split(line[n..|line| - 1], ' ') == p.dependencyNames
  {
    var line := LinkLine(p);
    var n := |"target_link_libraries (" + p.name + " "|;
    assert line[n..|line| - 1] == Join(p.dependencyNames, ' ');
    SplitJoin(p.dependencyNames, ' ');
  }

  /**
   * Without the no-space condition the link line is ambiguous: a project
   * named "My Lib" is written as two words, which read back as two names.
   */
  lemma LinkedNamesAmbiguous()
    ensures var p := ProjInfo("A", "C:\\A", Application, ["My Lib"]);
      && Join(p.dependencyNames, ' ') == "My Lib"
      && Split(Join(p.dependencyNames, ' '), ' ') == ["My", "Lib"]
      && |Split(Join(p.dependencyNames, ' '), ' ')| != |p.dependencyNames|
  {
    SplitTwoWords();
  }

  lemma SplitTwoWords()
    ensures Split("My Lib", ' ') == ["My", "Lib"]
  {
    var s := "My Lib";
    assert IndexOf(s, ' ') == 2 by {
      IndexOfAfter("My", ' ', "Lib");
      assert "My" + [' '] + "Lib" == s;
    }
    assert s[..2] == "My" && s[3..] == "Lib";
    assert IndexOf("Lib", ' ') == 3;
  }

  // ---------------------------------------------------------------- project script

  /** The lines of a project's CMakeLists.txt, or the exception that aborts writing it. */
  function ProjectScript(slnDir: string, p: ProjInfo, projs: seq<ProjInfo>, fs: map<string, seq<string>>): Result<seq<string>>
  {
    if p.directory !in fs then Failure(DirectoryNotFound(p.directory))
    else
      var es :- SelectSources(AnchorLength(p.directory), fs[p.directory]);
      var inc :- IncludeSection(slnDir, p.dependencyNames, projs);
      Success(AssembleScript(p, es, inc))
  }

  /** The first two lines of every project script. */
  function HeaderLines(): seq<string>
  {
    [MinimumVersionLine, ""]
  }

  /** The sections of a project script in the order they are written. */
  function AssembleScript(p: ProjInfo, es: seq<SourceFile>, inc: seq<string>): seq<string>
  {
    HeaderLines() + SourceLines(es) + [""] + inc + SettingsLines(p, SourceKeys(es)) + LinkSection(p)
  }

  /** The entries selected from a project's directory listing. */
  function ProjectSources(p: ProjInfo, fs: map<string, seq<string>>): Result<seq<SourceFile>>
    requires p.directory in fs
  {
    SelectSources(AnchorLength(p.directory), fs[p.directory])
  }

  /**
   * A project script fails exactly when the directory is missing, a source
   * path is too short to relativise, or a resolved dependency's directory is
   * too short to relativise against the solution directory.
   */
  lemma ProjectScriptFails(slnDir: string, p: ProjInfo, projs: seq<ProjInfo>, fs: map<string, seq<string>>)
    ensures ProjectScript(slnDir, p, projs, fs).Success? <==>
      && p.directory in fs
      && AllLongEnough(AnchorLength(p.directory), fs[p.directory])
      && forall j :: 0 <= j < |p.dependencyNames| ==> IncludeRelativises(slnDir, projs, p.dependencyNames[j])
    ensures p.directory !in fs ==> ProjectScript(slnDir, p, projs, fs) == Failure(DirectoryNotFound(p.directory))
    ensures ProjectScript(slnDir, p, projs, fs).Success? ==>
      ProjectScript(slnDir, p, projs, fs).value ==
        AssembleScript(p, ProjectSources(p, fs).value, IncludeSection(slnDir, p.dependencyNames, projs).value)
  {
    if p.directory in fs {
      SelectSourcesSucceeds(AnchorLength(p.directory), fs[p.directory]);
      IncludeLinesSucceeds(slnDir, p.dependencyNames, projs);
    }
  }

  /**
   * The layout of a project script: the version line and a blank line, two
   * lines per selected source, a blank line, the include section, the 17
   * fixed settings lines, then the link section.
   */
  lemma AssembleSections(p: ProjInfo, es: seq<SourceFile>, inc: seq<string>)
    ensures var lines, b := AssembleScript(p, es, inc), 3 + 2 * |es| + |inc|;
      && |lines| == b + 17 + |LinkSection(p)|
      && lines[..2] == HeaderLines()
      && lines[2 + 2 * |es|] == ""
      && lines[3 + 2 * |es|..b] == inc
      && lines[b + 17..] == LinkSection(p)
  {
    var src, settings := SourceLines(es), SettingsLines(p, SourceKeys(es));
    assert |settings| == 17 by { SettingsLinesAt(p, SourceKeys(es)); }
    assert |src| == 2 * |es| by { SourceLinesAt(es); }
    SectionsAt(HeaderLines(), src, inc, settings, LinkSection(p));
  }

  /** Source k's set line and source_group line sit at lines 2 + 2k and 3 + 2k of the project script. */
  lemma AssembleSources(p: ProjInfo, es: seq<SourceFile>, inc: seq<string>, k: int)
    requires 0 <= k < |es|
    ensures |AssembleScript(p, es, inc)| > 3 + 2 * k
    ensures AssembleScript(p, es, inc)[2 + 2 * k] == SetLine(es[k])
    ensures AssembleScript(p, es, inc)[3 + 2 * k] == GroupLine(es[k])
  {
    var src, settings := SourceLines(es), SettingsLines(p, SourceKeys(es));
    assert |settings| == 17 by { SettingsLinesAt(p, SourceKeys(es)); }
    assert src[2 * k] == SetLine(es[k]) && src[2 * k + 1] == GroupLine(es[k]) by { SourceLinesAt(es); }
    SectionsAt(HeaderLines(), src, inc, settings, LinkSection(p));
  }

  /** The configuration-type comment, the target line and the FOLDER line sit at offsets 4, 5 and 15 of the settings. */
  lemma AssembleSettings(p: ProjInfo, es: seq<SourceFile>, inc: seq<string>)
    ensures var lines, b := AssembleScript(p, es, inc), 3 + 2 * |es| + |inc|;
      && |lines| >= b + 17
      && lines[b + 4] == ConfigComment(p)
      && lines[b + 5] == TargetLine(p, SourceKeys(es))
      && lines[b + 15] == FolderLine(p)
  {
    var src, settings := SourceLines(es), SettingsLines(p, SourceKeys(es));
    SettingsLinesAt(p, SourceKeys(es));
    assert |src| == 2 * |es| by { SourceLinesAt(es); }
    SectionsAt(HeaderLines(), src, inc, settings, LinkSection(p));
  }

  /** The settings block is 17 lines; the comment, target and FOLDER lines sit at offsets 4, 5 and 15. */
  lemma SettingsLinesAt(p: ProjInfo, keys: seq<string>)
    ensures |SettingsLines(p, keys)| == 17
    ensures SettingsLines(p, keys)[4] == ConfigComment(p)
    ensures SettingsLines(p, keys)[5] == TargetLine(p, keys)
    ensures SettingsLines(p, keys)[15] == FolderLine(p)
  {
    BlocksAt(OwnIncludeLines(), TargetLines(p, keys), FlagLines(), FolderLines(p));
  }

  lemma BlocksAt(a: seq<string>, b: seq<string>, c: seq<string>, d: seq<string>)
    requires |a| == 3 && |b| == 3 && |c| == 8 && |d| == 3
    ensures |a + b + c + d| == 17
    ensures (a + b + c + d)[4] == b[1] && (a + b + c + d)[5] == b[2] && (a + b + c + d)[15] == d[1]
  {
  }

  /** Where each section of a concatenation of five sections, with one blank line after the second, ends up. */
  lemma SectionsAt(top: seq<string>, src: seq<string>, inc: seq<string>, settings: seq<string>, link: seq<string>)
    requires |top| == 2 && |settings| == 17
    ensures var lines, b := top + src + [""] + inc + settings + link, 3 + |src| + |inc|;
      && |lines| == b + 17 + |link|
      && lines[..2] == top
      && (forall k :: 0 <= k < |src| ==> lines[2 + k] == src[k])
      && lines[2 + |src|] == ""
      && lines[3 + |src|..b] == inc
      && (forall k :: 0 <= k < 17 ==> lines[b + k] == settings[k])
      && lines[b + 17..] == link
  {
  }

  /**
   * Every variable the target line lists is defined by a set line of the same
   * script: splitting the target's source list on spaces gives one ${KEY} per
   * selected source, in order, and source k's set line (placed by
   * AssembleSources) defines that KEY.
   */
  lemma TargetListsEverySource(p: ProjInfo, fs: map<string, seq<string>>)
    requires p.directory in fs
    requires ProjectSources(p, fs).Success? && |ProjectSources(p, fs).value| > 0
    ensures var es := ProjectSources(p, fs).value;
      var target, n := TargetLine(p, SourceKeys(es)), |TargetPrefix(p)|;
      var refs := Split(target[n + 1..|target| - 1], ' ');
      && |refs| == |es|
      && forall k :: 0 <= k < |es| ==> refs[k] == "${" + es[k].key + "}" && StartsWith(SetLine(es[k]), "set (" + es[k].key + " ")
  {
    var es := ProjectSources(p, fs).value;
    forall k | 0 <= k < |es|
      ensures ' ' !in es[k].key
    {
      SelectedEntry(AnchorLength(p.directory), fs[p.directory], k);
    }
    TargetSourceList(p, es);
    SourceLinesAt(es);
    forall k | 0 <= k < |es|
      ensures StartsWith(SetLine(es[k]), "set (" + es[k].key + " ")
    {
      SetLineDefines(es[k]);
    }
  }

  /** The lines written after the include section, target line and FOLDER bucket included. */
  method EmitSettings(p: ProjInfo, sKeys: seq<string>) returns (lines: seq<string>)
    ensures lines == SettingsLines(p, sKeys)
  {
    lines := ["", IncludeComment, OwnIncludeLine];
    lines := lines + ["", ConfigComment(p)];
    var target := "";
    if p.projType == Application {
      target := "add_executable (" + p.name;
    } else if p.projType == DynamicLibrary {
      target := "add_library(" + p.name + " DYNAMIC";
    } else if p.projType == StaticLibrary {
      target := "add_library(" + p.name + " STATIC";
    }
    assert target == TargetPrefix(p);
    lines := lines + [target + " " + Join(sKeys, ' ') + ")"];
    assert lines == OwnIncludeLines() + TargetLines(p, sKeys);
    lines := lines + ["", IfWin32Line, Win32FlagsLine, EndIfWin32Line, "", IfUnixLine, UnixFlagsLine, EndIfUnixLine];
    lines := lines + ["", FolderLine(p), StandardLine(p)];
  }

  /** The link section, written only when the project has dependencies. */
  method EmitLinkSection(p: ProjInfo) returns (lines: seq<string>)
    ensures lines == LinkSection(p)
  {
    lines := [];
    if |p.dependencyNames| > 0 {
      lines := lines + [""];
      lines := lines + ["# Properties->Linker->Input->Additional Dependencie"];
      lines := lines + ["target_link_libraries (" + p.name + " " + Join(p.dependencyNames, ' ') + ")"];
    }
  }

  /** The body of CreateProjectsCMakeLists for one project. */
  method EmitProjectScript(slnDir: string, p: ProjInfo, projs: seq<ProjInfo>, fs: map<string, seq<string>>) returns (r: Result<seq<string>>)
    ensures r == ProjectScript(slnDir, p, projs, fs)
  {
    var lines: seq<string> := [MinimumVersionLine, ""];

    var iDirLen := |p.directory|;
    if !EndsWith(p.directory, [Separator]) {
      iDirLen := iDirLen + 1;
    }

    assert iDirLen == AnchorLength(p.directory);
    if p.directory !in fs {
      return Failure(DirectoryNotFound(p.directory));
    }
    var selected := SelectSources(iDirLen, fs[p.directory]);
    if selected.Failure? {
      return Failure(selected.error);
    }
    var fileLines, sKeys := EmitSourceLines(selected.value);
    lines := lines + fileLines;

    lines := lines + [""];

    var includes := EmitIncludeSection(slnDir, p.dependencyNames, projs);
    if includes.Failure? {
      return Failure(includes.error);
    }
    lines := lines + includes.value;

    var settings := EmitSettings(p, sKeys);
    lines := lines + settings;
    var link := EmitLinkSection(p);
    lines := lines + link;
    assert lines == HeaderLines() + SourceLines(selected.value) + [""] + includes.value
      + SettingsLines(p, SourceKeys(selected.value)) + LinkSection(p);
    return Success(lines);
  }

  // ---------------------------------------------------------------- all projects

  /** The file written for one project: its script, at CMakeLists.txt in the project's directory. */
  function ScriptFileFor(slnDir: string, projs: seq<ProjInfo>, fs: map<string, seq<string>>, p: ProjInfo): Result<ScriptFile>
  {
    var lines :- ProjectScript(slnDir, p, projs, fs);
    Success(ScriptFile(Combine(p.directory, CMakeListsFile), lines))
  }

  /** The body of the foreach over the projects, as a function of the project. */
  function ScriptStep(slnDir: string, projs: seq<ProjInfo>, fs: map<string, seq<string>>): ProjInfo -> Result<ScriptFile>
  {
    p => ScriptFileFor(slnDir, projs, fs, p)
  }

  /** One script per project, in order; the first exception aborts the run. */
  function ProjectScripts(slnDir: string, todo: seq<ProjInfo>, projs: seq<ProjInfo>, fs: map<string, seq<string>>): Result<seq<ScriptFile>>
  {
    MapAll(ScriptStep(slnDir, projs, fs), todo)
  }

  /**
   * CreateProjectsCMakeLists: the foreach over the project list. `written` is
   * every file completed before the run ended: all of them, or, when project i
   * throws, the files of projects 0 .. i-1, which stay on disk.
   */
  method CreateProjectsCMakeLists(slnDir: string, projs: seq<ProjInfo>, fs: map<string, seq<string>>)
    returns (written: seq<ScriptFile>, r: Result<seq<ScriptFile>>)
    ensures r == ProjectScripts(slnDir, projs, projs, fs)
    ensures r.Success? ==> written == r.value
    ensures r.Failure? ==>
      && |written| < |projs|
      && ProjectScripts(slnDir, projs[..|written|], projs, fs) == Success(written)
      && ProjectScript(slnDir, projs[|written|], projs, fs) == Failure(r.error)
  {
    ghost var step := ScriptStep(slnDir, projs, fs);
    written := [];
    for i := 0 to |projs|
      invariant |written| == i
      invariant MapAll(step, projs[..i]) == Success(written)
    {
      var p := projs[i];
      MapAllPrefixStep(step, projs, i);
      var script := EmitProjectScript(slnDir, p, projs, fs);
      if script.Failure? {
        MapAllPrefixFailure(step, projs, i + 1);
        return written, Failure(script.error);
      }
      written := written + [ScriptFile(Combine(p.directory, CMakeListsFile), script.value)];
    }
    assert projs[..|projs|] == projs;
    return written, Success(written);
  }

  /**
   * The run writes one file per project exactly when every project's script
   * can be produced; then file i is project i's script, written to
   * CMakeLists.txt in that project's directory. Otherwise the first failing
   * project's exception aborts the run.
   */
  lemma ProjectScriptsAll(slnDir: string, todo: seq<ProjInfo>, projs: seq<ProjInfo>, fs: map<string, seq<string>>)
    ensures ProjectScripts(slnDir, todo, projs, fs).Success? <==>
      forall i :: 0 <= i < |todo| ==> ProjectScript(slnDir, todo[i], projs, fs).Success?
    ensures ProjectScripts(slnDir, todo, projs, fs).Success? ==>
      var files := ProjectScripts(slnDir, todo, projs, fs).value;
      |files| == |todo| &&
      forall i :: 0 <= i < |todo| ==>
        files[i] == ScriptFile(Combine(todo[i].directory, CMakeListsFile), ProjectScript(slnDir, todo[i], projs, fs).value)
  {
    var step := ScriptStep(slnDir, projs, fs);
    MapAllSucceeds(step, todo);
    forall i | 0 <= i < |todo|
      ensures step(todo[i]).Success? <==> ProjectScript(slnDir, todo[i], projs, fs).Success?
    {
    }
  }

  /** When some project's script throws, the run throws the exception of the first such project. */
  lemma ProjectScriptsFirstFailure(slnDir: string, todo: seq<ProjInfo>, projs: seq<ProjInfo>, fs: map<string, seq<string>>, i: nat)
    requires i < |todo| && ProjectScript(slnDir, todo[i], projs, fs).Failure?
    requires forall j :: 0 <= j < i ==> ProjectScript(slnDir, todo[j], projs, fs).Success?
    ensures ProjectScripts(slnDir, todo, projs, fs) == Failure(ProjectScript(slnDir, todo[i], projs, fs).error)
  {
    var step := ScriptStep(slnDir, projs, fs);
    ProjectScriptsAll(slnDir, todo[..i], projs, fs);
    assert forall j :: 0 <= j < i ==> todo[..i][j] == todo[j];
    MapAllPrefixStep(step, todo, i);
    MapAllPrefixFailure(step, todo, i + 1);
  }

  // ---------------------------------------------------------------- the whole run

  /**
   * The generation run after the project graph is read: the project list
   * without CMPROJS targets, the solution script, then every project script;
   * `written` holds the project files completed before any exception.
   */
  method Generate(slnName: string, slnDir: string, bds: seq<BuildDependency>, fs: map<string, seq<string>>)
    returns (solution: ScriptFile, written: seq<ScriptFile>, projects: Result<seq<ScriptFile>>)
    ensures solution == ScriptFile(Combine(slnDir, CMakeListsFile), SolutionScript(slnName, Names(CollectProjects(bds))))
    ensures projects == ProjectScripts(slnDir, CollectProjects(bds), CollectProjects(bds), fs)
    ensures projects.Success? ==> written == projects.value
    ensures projects.Failure? ==>
      |written| < |CollectProjects(bds)| &&
      ProjectScripts(slnDir, CollectProjects(bds)[..|written|], CollectProjects(bds), fs) == Success(written)
  {
    var projs := CollectProjects(bds);
    solution := CreateSolutionCMakeList(slnName, slnDir, Names(projs));
    written, projects := CreateProjectsCMakeLists(slnDir, projs, fs);
  }

  /** No add_subdirectory line of the solution script names a CMPROJS target. */
  lemma SolutionSkipsReserved(slnName: string, bds: seq<BuildDependency>, i: int)
    requires 0 <= i < |CollectProjects(bds)|
    ensures |SolutionScript(slnName, Names(CollectProjects(bds)))| == 4 + |CollectProjects(bds)|
    ensures exists name :: !IsReserved(name) && SolutionScript(slnName, Names(CollectProjects(bds)))[4 + i] == SubdirectoryLine(name)
  {
    var projs := CollectProjects(bds);
    SolutionScriptLayout(slnName, Names(projs));
    assert SolutionScript(slnName, Names(projs))[4 + i] == SubdirectoryLine(projs[i].name);
  }
}
