/**
 * Source Enumerator: the selection of a project's source and header files
 * from the recursive listing of its directory, and the two lines each
 * selected file contributes to the project's CMakeLists.txt.
 */
module Sources {
  import opened Results
  import opened Text
  import opened Paths
  import opened Keys

  /** CMDIR: the directory CMake writes its own build files into. */
  const CMakeFilesDir: string := "CMakeFiles"

  /** The extension filter: a file ending in ".cpp" or ".h". */
  predicate IsSourceOrHeader(path: string)
  {
    EndsWith(path, ".cpp") || EndsWith(path, ".h")
  }

  /** The key/value pair built per selected file: its CMake variable name and its relative path. */
  datatype SourceFile = SourceFile(key: string, relPath: string)

  /** First stage: the listed paths that end in ".cpp" or ".h". */
  function SourceCandidates(listing: seq<string>): seq<string>
  {
    if listing == [] then []
    else
      var last := listing[|listing| - 1];
      SourceCandidates(listing[..|listing| - 1]) + (if IsSourceOrHeader(last) then [last] else [])
  }

  /** Second stage: Substring(iDirLen) of every candidate; the first candidate that is too short throws. */
  function RelativiseAll(dirLen: nat, paths: seq<string>): Result<seq<string>>
  {
    if paths == [] then Success([])
    else
      var init :- RelativiseAll(dirLen, paths[..|paths| - 1]);
      var rel :- Substring(paths[|paths| - 1], dirLen);
      Success(init + [rel])
  }

  /** Third stage: the relative paths that do not start with CMakeFiles. */
  function DropGenerated(rels: seq<string>): seq<string>
  {
    if rels == [] then []
    else
      var last := rels[|rels| - 1];
      DropGenerated(rels[..|rels| - 1]) + (if StartsWith(last, CMakeFilesDir) then [] else [last])
  }

  /** Fourth stage: each relative path paired with its key. */
  function ToEntries(rels: seq<string>): seq<SourceFile>
  {
    if rels == [] then []
    else ToEntries(rels[..|rels| - 1]) + [SourceFile(ToKey(rels[|rels| - 1]), rels[|rels| - 1])]
  }

  /** The whole Where/Select/Where/Select pipeline over the directory listing, forced by ToList. */
  function SelectSources(dirLen: nat, listing: seq<string>): Result<seq<SourceFile>>
  {
    var rels :- RelativiseAll(dirLen, SourceCandidates(listing));
    Success(ToEntries(DropGenerated(rels)))
  }

  /** A listed path survives the pipeline: right extension, long enough, not under CMakeFiles. */
  predicate Survives(dirLen: nat, path: string)
  {
    IsSourceOrHeader(path) && dirLen <= |path| && !StartsWith(path[dirLen..], CMakeFilesDir)
  }

  /** The entry a surviving path becomes. */
  function EntryFor(dirLen: nat, path: string): SourceFile
    requires dirLen <= |path|
  {
    var rel := path[dirLen..];
    SourceFile(ToKey(rel), rel)
  }

  lemma CandidatesStep(init: seq<string>, path: string)
    ensures SourceCandidates(init + [path]) == SourceCandidates(init) + (if IsSourceOrHeader(path) then [path] else [])
  {
    assert (init + [path])[..|init|] == init;
  }

  lemma RelativiseAllStep(dirLen: nat, paths: seq<string>, path: string)
    ensures RelativiseAll(dirLen, paths + [path]) ==
      if RelativiseAll(dirLen, paths).Failure? then RelativiseAll(dirLen, paths)
      else if Substring(path, dirLen).Failure? then Failure(Substring(path, dirLen).error)
      else Success(RelativiseAll(dirLen, paths).value + [Substring(path, dirLen).value])
  {
    assert (paths + [path])[..|paths|] == paths;
  }

  lemma DropGeneratedStep(rels: seq<string>, rel: string)
    ensures DropGenerated(rels + [rel]) == DropGenerated(rels) + (if StartsWith(rel, CMakeFilesDir) then [] else [rel])
  {
    assert (rels + [rel])[..|rels|] == rels;
  }

  lemma ToEntriesStep(rels: seq<string>, rel: string)
    ensures ToEntries(rels + [rel]) == ToEntries(rels) + [SourceFile(ToKey(rel), rel)]
  {
    assert (rels + [rel])[..|rels|] == rels;
  }

  lemma StepSkipped(dirLen: nat, init: seq<string>, path: string)
    requires !IsSourceOrHeader(path)
    ensures SelectSources(dirLen, init + [path]) == SelectSources(dirLen, init)
  {
    CandidatesStep(init, path);
    assert SourceCandidates(init + [path]) == SourceCandidates(init);
  }

  lemma StepCandidate(dirLen: nat, init: seq<string>, path: string)
    requires IsSourceOrHeader(path)
    ensures SelectSources(dirLen, init + [path]) ==
      var rels :- RelativiseAll(dirLen, SourceCandidates(init) + [path]);
      Success(ToEntries(DropGenerated(rels)))
  {
    CandidatesStep(init, path);
  }

  lemma StepRelativised(dirLen: nat, init: seq<string>, path: string)
    requires IsSourceOrHeader(path) && SelectSources(dirLen, init).Success? && dirLen <= |path|
    ensures SelectSources(dirLen, init + [path]) ==
      Success(SelectSources(dirLen, init).value + (if Survives(dirLen, path) then [EntryFor(dirLen, path)] else []))
  {
    var cands := SourceCandidates(init);
    StepCandidate(dirLen, init, path);
    RelativiseAllStep(dirLen, cands, path);
    var rels := RelativiseAll(dirLen, cands).value;
    var rel := path[dirLen..];
    assert Substring(path, dirLen) == Success(rel);
    assert RelativiseAll(dirLen, cands + [path]) == Success(rels + [rel]);
    assert Survives(dirLen, path) == !StartsWith(rel, CMakeFilesDir);
    DropGeneratedStep(rels, rel);
    var kept := DropGenerated(rels);
    assert SelectSources(dirLen, init).value == ToEntries(kept);
    if !StartsWith(rel, CMakeFilesDir) {
      ToEntriesStep(kept, rel);
      assert EntryFor(dirLen, path) == SourceFile(ToKey(rel), rel);
    } else {
      assert DropGenerated(rels + [rel]) == kept;
      assert ToEntries(kept) + [] == ToEntries(kept);
    }
  }

  /**
   * The pipeline one path at a time, as the lazy LINQ chain runs it: a path
   * without the extension is skipped, a short one throws, any other one adds
   * its entry when it survives.
   */
  lemma SelectSourcesStep(dirLen: nat, init: seq<string>, path: string)
    ensures SelectSources(dirLen, init + [path]) ==
      if !IsSourceOrHeader(path) || SelectSources(dirLen, init).Failure? then SelectSources(dirLen, init)
      else if |path| < dirLen then Failure(SubstringOutOfRange(path, dirLen))
      else Success(SelectSources(dirLen, init).value + (if Survives(dirLen, path) then [EntryFor(dirLen, path)] else []))
  {
    if !IsSourceOrHeader(path) {
      StepSkipped(dirLen, init, path);
    } else if dirLen <= |path| && SelectSources(dirLen, init).Success? {
      StepRelativised(dirLen, init, path);
    } else {
      StepCandidate(dirLen, init, path);
      RelativiseAllStep(dirLen, SourceCandidates(init), path);
    }
  }

  /**
   * Positions, in increasing order, of the listed paths that survive the
   * pipeline: every surviving position and no other.
   */
  function SurvivorIndexes(dirLen: nat, listing: seq<string>): (ix: seq<nat>)
    ensures forall k :: 0 <= k < |ix| ==> ix[k] < |listing| && Survives(dirLen, listing[ix[k]])
    ensures forall k, l :: 0 <= k < l < |ix| ==> ix[k] < ix[l]
    ensures forall j :: 0 <= j < |listing| && Survives(dirLen, listing[j]) ==> j in ix
  {
    if listing == [] then []
    else
      var n := |listing| - 1;
      var init := listing[..n];
      var ix := SurvivorIndexes(dirLen, init);
      assert forall k :: 0 <= k < |ix| ==> listing[ix[k]] == init[ix[k]];
      assert forall j :: 0 <= j < n ==> listing[j] == init[j];
      ix + (if Survives(dirLen, listing[n]) then [n] else [])
  }

  lemma SurvivorIndexesStep(dirLen: nat, init: seq<string>, path: string)
    ensures SurvivorIndexes(dirLen, init + [path]) == SurvivorIndexes(dirLen, init) + (if Survives(dirLen, path) then [|init|] else [])
  {
    assert (init + [path])[..|init|] == init;
  }

  /** Every ".cpp"/".h" path of the listing is at least iDirLen long. */
  predicate AllLongEnough(dirLen: nat, listing: seq<string>)
  {
    forall j :: 0 <= j < |listing| && IsSourceOrHeader(listing[j]) ==> dirLen <= |listing[j]|
  }

  /** The pipeline succeeds exactly when every ".cpp"/".h" path is at least iDirLen long. */
  lemma {:induction false} SelectSourcesSucceeds(dirLen: nat, listing: seq<string>)
    ensures SelectSources(dirLen, listing).Success? <==> AllLongEnough(dirLen, listing)
  {
    if listing != [] {
      var n := |listing| - 1;
      var init, last := listing[..n], listing[n];
      SplitLast(listing);
      SelectSourcesSucceeds(dirLen, init);
      SelectSourcesStep(dirLen, init, last);
      if AllLongEnough(dirLen, listing) {
        forall j | 0 <= j < n && IsSourceOrHeader(init[j])
          ensures dirLen <= |init[j]|
        {
          assert init[j] == listing[j];
        }
      } else {
        var j :| 0 <= j < |listing| && IsSourceOrHeader(listing[j]) && |listing[j]| < dirLen;
        if j < n {
          assert init[j] == listing[j];
          assert !AllLongEnough(dirLen, init);
        }
      }
      if SelectSources(dirLen, listing).Success? {
        forall j | 0 <= j < |listing| && IsSourceOrHeader(listing[j])
          ensures dirLen <= |listing[j]|
        {
          if j < n {
            assert init[j] == listing[j];
          }
        }
      }
    }
  }

  /** Entry k is the entry of the listed path at position ix[k], for every k. */
  predicate EntriesAt(dirLen: nat, listing: seq<string>, es: seq<SourceFile>, ix: seq<nat>)
  {
    |es| == |ix| && forall k :: 0 <= k < |es| ==> ix[k] < |listing| && Survives(dirLen, listing[ix[k]]) && es[k] == EntryFor(dirLen, listing[ix[k]])
  }

  /** Appending a path keeps the positions valid, and a surviving path's entry sits at its own position. */
  lemma EntriesAtExtend(dirLen: nat, init: seq<string>, path: string, es: seq<SourceFile>, ix: seq<nat>)
    requires EntriesAt(dirLen, init, es, ix)
    ensures Survives(dirLen, path) ==> EntriesAt(dirLen, init + [path], es + [EntryFor(dirLen, path)], ix + [|init|])
    ensures EntriesAt(dirLen, init + [path], es, ix)
  {
    var listing := init + [path];
    forall k | 0 <= k < |ix|
      ensures listing[ix[k]] == init[ix[k]]
    {
    }
  }

  /**
   * What the pipeline yields: one entry per surviving path, in listing order,
   * each the path's remainder after the directory paired with its key.
   */
  lemma {:induction false} SelectSourcesSurvivors(dirLen: nat, listing: seq<string>)
    requires SelectSources(dirLen, listing).Success?
    ensures EntriesAt(dirLen, listing, SelectSources(dirLen, listing).value, SurvivorIndexes(dirLen, listing))
  {
    if listing != [] {
      var n := |listing| - 1;
      var init, last := listing[..n], listing[n];
      SplitLast(listing);
      SelectSourcesStep(dirLen, init, last);
      SurvivorIndexesStep(dirLen, init, last);
      SelectSourcesSurvivors(dirLen, init);
      EntriesAtExtend(dirLen, init, last, SelectSources(dirLen, init).value, SurvivorIndexes(dirLen, init));
    }
  }

  /**
   * Every selected entry comes from a listed ".cpp"/".h" path, its relative
   * path does not start with CMakeFiles, and its key is the sanitised
   * relative path, free of separators, spaces and dots.
   */
  lemma SelectedEntry(dirLen: nat, listing: seq<string>, k: int)
    requires SelectSources(dirLen, listing).Success?
    requires 0 <= k < |SelectSources(dirLen, listing).value|
    ensures var e := SelectSources(dirLen, listing).value[k];
      && (exists j :: 0 <= j < |listing| && IsSourceOrHeader(listing[j]) && Substring(listing[j], dirLen) == Success(e.relPath))
      && !StartsWith(e.relPath, CMakeFilesDir)
      && e.key == ToKey(e.relPath)
      && forall i :: 0 <= i < |e.key| ==> !IsReplaced(e.key[i])
  {
    SelectSourcesSurvivors(dirLen, listing);
    var e := SelectSources(dirLen, listing).value[k];
    var j := SurvivorIndexes(dirLen, listing)[k];
    assert Substring(listing[j], dirLen) == Success(e.relPath);
    ToKeyClean(e.relPath);
  }

  /** linPath: the relative path with forward slashes. */
  function LinuxPath(e: SourceFile): string
  {
    ToForwardSlashes(e.relPath)
  }

  /** grpPath: the directory part of the relative path with every backslash doubled. */
  function GroupLabel(e: SourceFile): string
  {
    DoubleBackslashes(DirectoryName(e.relPath))
  }

  /** The variable reference ${KEY} collected into sKeys. */
  function KeyRef(e: SourceFile): string
  {
    "${" + e.key + "}"
  }

  function SetLine(e: SourceFile): string
  {
    "set (" + e.key + " \"" + LinuxPath(e) + "\")"
  }

  /** A set line defines the entry's key: it starts with "set (", the key and a space. */
  lemma SetLineDefines(e: SourceFile)
    ensures StartsWith(SetLine(e), "set (" + e.key + " ")
  {
    assert SetLine(e) == ("set (" + e.key + " ") + ("\"" + LinuxPath(e) + "\")");
  }

  function GroupLine(e: SourceFile): string
  {
    "source_group(\"" + GroupLabel(e) + "\" FILES ${" + e.key + "})"
  }

  /**
   * The two path forms a file's lines carry: the set path has no backslash,
   * and the group label is the directory part escaped, longer by its number
   * of backslashes and undoubled back into the directory part.
   */
  lemma FileLinePaths(e: SourceFile)
    ensures '\\' !in LinuxPath(e)
    ensures |GroupLabel(e)| == |DirectoryName(e.relPath)| + Count(DirectoryName(e.relPath), '\\')
    ensures UndoubleBackslashes(GroupLabel(e)) == DirectoryName(e.relPath)
  {
    ForwardSlashesRoundTrip(e.relPath);
    DoubleBackslashesRoundTrip(DirectoryName(e.relPath));
  }

  /** The lines the ForEach writes: a set line then a source_group line per entry. */
  function SourceLines(es: seq<SourceFile>): seq<string>
  {
    if es == [] then []
    else
      var last := es[|es| - 1];
      SourceLines(es[..|es| - 1]) + [SetLine(last), GroupLine(last)]
  }

  /** sKeys: the variable reference of every entry. */
  function SourceKeys(es: seq<SourceFile>): seq<string>
  {
    if es == [] then [] else SourceKeys(es[..|es| - 1]) + [KeyRef(es[|es| - 1])]
  }

  /**
   * Per entry, in order: exactly one set line immediately followed by its
   * source_group line, and exactly one key reference.
   */
  lemma {:induction false} SourceLinesAt(es: seq<SourceFile>)
    ensures |SourceLines(es)| == 2 * |es| && |SourceKeys(es)| == |es|
    ensures forall k :: 0 <= k < |es| ==>
      SourceLines(es)[2 * k] == SetLine(es[k]) && SourceLines(es)[2 * k + 1] == GroupLine(es[k]) && SourceKeys(es)[k] == KeyRef(es[k])
  {
    if es != [] {
      var n := |es| - 1;
      var init, last := es[..n], es[n];
      SourceLinesAt(init);
      var lines, keys := SourceLines(es), SourceKeys(es);
      var lines0, keys0 := SourceLines(init), SourceKeys(init);
      assert es == init + [last];
      SourceLinesStep(init, last);
      forall k | 0 <= k < |es|
        ensures lines[2 * k] == SetLine(es[k]) && lines[2 * k + 1] == GroupLine(es[k]) && keys[k] == KeyRef(es[k])
      {
        if k < n {
          assert es[k] == init[k];
          assert lines[2 * k] == lines0[2 * k] && lines[2 * k + 1] == lines0[2 * k + 1] && keys[k] == keys0[k];
        }
      }
    }
  }

  lemma SourceLinesStep(init: seq<SourceFile>, e: SourceFile)
    ensures SourceLines(init + [e]) == SourceLines(init) + [SetLine(e), GroupLine(e)]
    ensures SourceKeys(init + [e]) == SourceKeys(init) + [KeyRef(e)]
  {
    assert (init + [e])[..|init|] == init;
  }

  /** The ForEach over the selected entries, writing to the script and collecting sKeys. */
  method EmitSourceLines(es: seq<SourceFile>) returns (lines: seq<string>, keys: seq<string>)
    ensures lines == SourceLines(es)
    ensures keys == SourceKeys(es)
  {
    lines, keys := [], [];
    for i := 0 to |es|
      invariant lines == SourceLines(es[..i])
      invariant keys == SourceKeys(es[..i])
    {
      var f := es[i];
      var linPath := ToForwardSlashes(f.relPath);
      var grpPath := DoubleBackslashes(DirectoryName(f.relPath));
      lines := lines + ["set (" + f.key + " \"" + linPath + "\")"];
      lines := lines + ["source_group(\"" + grpPath + "\" FILES ${" + f.key + "})"];
      keys := keys + ["${" + f.key + "}"];
      assert es[..i + 1][..i] == es[..i];
      assert lines == SourceLines(es[..i]) + [SetLine(f), GroupLine(f)];
    }
    assert es[..|es|] == es;
  }
}
