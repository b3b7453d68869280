# CMakeLists generator — text-generation core in Dafny

This project models the text-generation logic of the CMakeLists generator, a Visual Studio
extension command. The command reads a solution's projects and writes CMake build scripts:

- one `CMakeLists.txt` in the solution directory, with one `add_subdirectory` line per project;
- one `CMakeLists.txt` per project directory. Each holds:
  - a `set`/`source_group` pair for every `.cpp`/`.h` file under the project, excluding the `CMakeFiles` output directory;
  - `include_directories` lines for the dependencies that resolve to projects;
  - a target declaration chosen by the project's configuration type;
  - fixed compiler-flag lines;
  - the `FOLDER` property;
  - `target_link_libraries` over the raw dependency names.

Modules:

- `Results`: the `Result` type. It stands for the two exceptions modelled:
  - `string.Substring` past the end;
  - a project directory that does not exist.

  `MapAll` is a `foreach` whose body may throw: it stops at the first exception.
- `Text`: ASCII upper-casing, character replacement, `string.Join`, the decimal form of an integer, and `Split`. `Split` is used only to state properties.
- `Paths`: the Windows separator and the stripped-prefix length (`iDirLen`, `iSlnDirLength`). Also the relativiser, the forward-slash and doubled-backslash conversions, `Path.GetDirectoryName` of a relative path, and `Path.Combine`.
- `Keys`: `ToKey`, the CMake variable name of a source file.
- `Projects`:
  - `EConfType` as an integer newtype;
  - `ProjInfo`;
  - the `CMPROJS` filter over the build dependencies the host reports;
  - the case-insensitive `FirstOrDefault` lookup of a project by name.
- `Sources`: the `Where`/`Select` pipeline over a directory listing and the per-file `set`/`source_group` lines with the `sKeys` list.
- `Scripts`:
  - specification functions for the solution script and the project scripts;
  - the imperative emitters `CreateSolutionCMakeList`, `EmitIncludeSection`, `EmitSettings`, `EmitLinkSection`, `EmitProjectScript` and `CreateProjectsCMakeLists`;
  - `Generate`, which ties them to the project list.

A `StreamWriter` is modelled as the sequence of lines written to it. A `Write` followed by a `WriteLine` is one line. The file system is a map from a directory to its recursive file listing, in enumeration order. A directory missing from the map raises `DirectoryNotFound`.

The model follows the code in these places:

- A dynamic library gets the keyword `DYNAMIC`, not a shared-library target.
- A configuration type other than the three known ones still gets a target line. The line has no `add_*` prefix, only the `" <keys>)"` tail. This also covers the value `0` of a project without a `ConfigurationType` property.
- The relativiser does not check that the path starts with the directory. It strips `iDirLen` characters and throws only when the path is shorter than that.
- Project names are not assumed unique. A dependency name resolves to the first project whose name matches ignoring case.

## Model

| member | source | states |
|---|---|---|
| Keys.ToKeyAt | CMakeListsTxtCommand.cs:62-71 | the key has the path's length; separator, space and dot become `_`, and every other character is only upper-cased |
| Keys.ToKeyClean | CMakeListsTxtCommand.cs:62-71 | a key contains no separator, space or dot |
| Keys.ToKeyIdempotent | CMakeListsTxtCommand.cs:62-71 | sanitising a key again changes nothing |
| Keys.ToKeyCollides | CMakeListsTxtCommand.cs:62-71 | `a.b` and `a_b` get the same key (keys are not injective) |
| Paths.AnchorLength | CMakeListsTxtCommand.cs:226-228 | `iDirLen` is the length of the directory followed by exactly one separator |
| Paths.Relativise | CMakeListsTxtCommand.cs:238 | `Substring(iDirLen)` succeeds iff the path is at least `iDirLen` long; the result is the path's suffix of that length, otherwise the out-of-range error |
| Paths.RelativiseUnterminated | CMakeListsTxtCommand.cs:226-238 | for a directory without a trailing separator, `dir + "\" + rel` relativises to `rel` |
| Paths.RelativiseTerminated | CMakeListsTxtCommand.cs:226-238 | for a directory with a trailing separator, `dir + rel` relativises to `rel` |
| Paths.RelativiseRestores | CMakeListsTxtCommand.cs:226-238 | every path under the anchor relativises, and the anchor plus the result gives the path back |
| Paths.ForwardSlashesRoundTrip | CMakeListsTxtCommand.cs:244 | `linPath` has no backslash, and it converts back when the path had no forward slash |
| Paths.DirectoryName | CMakeListsTxtCommand.cs:245 | the directory part is the prefix before the last separator, or empty when there is none |
| Paths.DirectoryNameSplits | CMakeListsTxtCommand.cs:245 | directory part, separator and file name make up the relative path again |
| Paths.DoubleBackslashesRoundTrip | CMakeListsTxtCommand.cs:245 | doubling grows the label by its number of backslashes, and undoubling restores it |
| Paths.CombineRelativises | CMakeListsTxtCommand.cs:221 | the script path `Path.Combine(dir, CMFILE)` relativises back to `CMakeLists.txt` |
| Projects.ConfTypeNameInjective | CMakeListsTxtCommand.cs:277 | the configuration-type comment names the type unambiguously, including unnamed values |
| Projects.ProjectTypeOf | CMakeListsTxtCommand.cs:185-194 | the project type is the default 0 or the value of some `ConfigurationType` property |
| Projects.ProjectTypeOfNone | CMakeListsTxtCommand.cs:185-194 | without a `ConfigurationType` property the project type stays the default 0 |
| Projects.ProjectTypeOfLast | CMakeListsTxtCommand.cs:185-194 | the project type is the value of the last property whose name matches `ConfigurationType` ignoring case |
| Projects.DropReserved | CMakeListsTxtCommand.cs:176-183 | the dependency names kept are exactly those not in `CMPROJS` |
| Projects.DropReservedOne | CMakeListsTxtCommand.cs:176-183 | a single name is kept exactly when it is not in `CMPROJS` |
| Projects.DropReservedAppend | CMakeListsTxtCommand.cs:176-183 | filtering goes name by name, so the kept names keep their order and repetitions |
| Projects.CollectProjects | CMakeListsTxtCommand.cs:157-172 | no more projects than build dependencies, and no project named in `CMPROJS` |
| Projects.CollectProjectsMembers | CMakeListsTxtCommand.cs:157-195 | a project is listed iff a non-reserved build dependency gives rise to it |
| Projects.CollectedNothingReserved | CMakeListsTxtCommand.cs:163-183 | neither a listed project nor any of its dependency names is in `CMPROJS` |
| Projects.CollectProjectsAppend | CMakeListsTxtCommand.cs:157-172 | the project list keeps the order of the build dependencies |
| Projects.Names | CMakeListsTxtCommand.cs:198 | the names passed to the solution script are the projects' names, in order |
| Projects.FirstMatch | CMakeListsTxtCommand.cs:258-259 | `FirstOrDefault` gives the first project whose name matches ignoring case, or none |
| Projects.ResolvesIff | CMakeListsTxtCommand.cs:258-259 | a name resolves iff some project's name matches it ignoring case |
| Sources.SurvivorIndexes | CMakeListsTxtCommand.cs:237-241 | the positions of the listing that survive the pipeline, increasing, all of them |
| Sources.SelectSourcesSucceeds | CMakeListsTxtCommand.cs:237-241 | the pipeline throws iff some `.cpp`/`.h` path is shorter than `iDirLen` |
| Sources.SelectSourcesSurvivors | CMakeListsTxtCommand.cs:237-241 | the entries are, in listing order, exactly the surviving paths, each paired with its key |
| Sources.SelectedEntry | CMakeListsTxtCommand.cs:237-241 | every entry comes from a `.cpp`/`.h` path, is not under `CMakeFiles`, and its key is `ToKey` of its relative path, free of separators, spaces and dots |
| Sources.FileLinePaths | CMakeListsTxtCommand.cs:244-245 | the set path has no backslash; the group label is the directory part with backslashes doubled, and undoubles back |
| Sources.SetLineDefines | CMakeListsTxtCommand.cs:246 | a set line defines the entry's key |
| Sources.SourceLinesAt | CMakeListsTxtCommand.cs:242-249 | per entry, in order: its set line immediately followed by its source_group line, and exactly one `${KEY}` in `sKeys` |
| Sources.EmitSourceLines | CMakeListsTxtCommand.cs:242-249 | the `ForEach` writes exactly those lines and collects exactly those keys |
| Scripts.SolutionScriptLayout | CMakeListsTxtCommand.cs:206-213 | the solution script is `4 + n` lines: three header lines, a blank line, then `add_subdirectory (name)` per project in order |
| Scripts.CreateSolutionCMakeList | CMakeListsTxtCommand.cs:202-215 | the loop writes the solution script to `CMakeLists.txt` in the solution directory |
| Scripts.SolutionSkipsReserved | CMakeListsTxtCommand.cs:198-213 | no `add_subdirectory` line names a `CMPROJS` target |
| Scripts.TrueIndexes | CMakeListsTxtCommand.cs:256-259 | the positions of the dependency names that resolve, increasing, all of them |
| Scripts.IncludeLinesResolved | CMakeListsTxtCommand.cs:256-268 | one include line per resolving dependency name, in order, built from the first matching project's directory; unresolved names give no line |
| Scripts.IncludeLinesSucceeds | CMakeListsTxtCommand.cs:261-267 | the include lines throw iff a resolved dependency's directory is shorter than the stripped solution prefix |
| Scripts.IncludeLinesPrefixFailure | CMakeListsTxtCommand.cs:256-269 | the first throwing dependency aborts the whole section with its error |
| Scripts.IncludeSectionHeader | CMakeListsTxtCommand.cs:253-255 | the comment header is written iff the dependency list is non-empty, even when nothing resolves |
| Scripts.EmitIncludeSection | CMakeListsTxtCommand.cs:253-270 | the `foreach` with `continue` and the `iSlnDirLength` counter writes exactly the include section |
| Scripts.TargetPrefixKnown | CMakeListsTxtCommand.cs:278-283 | no target prefix is written exactly when the type is none of the three known ones |
| Scripts.TargetSourceList | CMakeListsTxtCommand.cs:278-285 | the target line is the prefix, a space, the `${KEY}` list in order, and `)`; splitting the list gives the keys back |
| Scripts.FolderBucket | CMakeListsTxtCommand.cs:296 | the FOLDER is `"apps"` iff the type is Application, `"libs"` otherwise |
| Scripts.LinkedNames | CMakeListsTxtCommand.cs:299-304 | the link line lists every raw dependency name, resolvable or not, in order |
| Scripts.LinkedNamesAmbiguous | CMakeListsTxtCommand.cs:303 | a dependency named `My Lib` is written as two words, which read back as two names |
| Scripts.ProjectScriptFails | CMakeListsTxtCommand.cs:221-270 | a project script fails iff the directory is missing, some `.cpp`/`.h` path is shorter than `iDirLen`, or some resolved dependency's directory is shorter than `iSlnDirLength`; otherwise it is the assembled script |
| Scripts.AssembleSections | CMakeListsTxtCommand.cs:223-304 | a project script is the version line and a blank line, two lines per source, a blank line, the include section, 17 settings lines, then the link section |
| Scripts.AssembleSources | CMakeListsTxtCommand.cs:242-249 | source k's set line and source_group line are lines 2 + 2k and 3 + 2k of the project script |
| Scripts.AssembleSettings | CMakeListsTxtCommand.cs:276-296 | after the include section, the configuration-type comment, the target line and the FOLDER line sit at offsets 4, 5 and 15 |
| Scripts.SettingsLinesAt | CMakeListsTxtCommand.cs:272-297 | the settings block is 17 lines, with the comment, target and FOLDER lines at offsets 4, 5 and 15 |
| Scripts.TargetListsEverySource | CMakeListsTxtCommand.cs:240-285 | every `${KEY}` in the target line is defined by the set line of the same source, in order |
| Scripts.EmitSettings | CMakeListsTxtCommand.cs:272-297 | writes exactly the settings block, with the target line chosen by the type |
| Scripts.EmitLinkSection | CMakeListsTxtCommand.cs:299-304 | writes the link section only when there are dependencies |
| Scripts.EmitProjectScript | CMakeListsTxtCommand.cs:221-304 | the body for one project writes exactly the project script, or stops with the first exception |
| Scripts.ProjectScriptsAll | CMakeListsTxtCommand.cs:219-221 | the run succeeds iff every project's script does; then file i is project i's script in its own directory |
| Scripts.ProjectScriptsFirstFailure | CMakeListsTxtCommand.cs:219-306 | when every earlier project's script succeeds and project i's throws, the run fails with project i's error |
| Results.MapAllSucceeds | CMakeListsTxtCommand.cs:219-221 | a `foreach` whose body may throw completes iff the body succeeds on every element; then result i is the body's value on element i |
| Scripts.CreateProjectsCMakeLists | CMakeListsTxtCommand.cs:217-307 | the `foreach` over the projects produces exactly those scripts; when project i throws, the files of projects 0 .. i-1 are already written and project i's error ends the run |
| Scripts.Generate | CMakeListsTxtCommand.cs:157-199 | the solution script over the filtered project names, then every project script, and the files written before an exception |

## Left out

- Visual Studio host plumbing is not modelled: the package, the menu command, the DTE object model and the output-pane logging. The build dependencies are an input sequence of plain records.
- `Enum.Parse` of the `ConfigurationType` property value is a library call. The property's value is given already parsed, and any integer is allowed.
- `ToUpperInvariant` and the case-insensitive comparison are modelled for ASCII letters only. Full Unicode case mapping is not modelled.
- Culture-sensitive `EndsWith`/`StartsWith` are modelled as ordinal comparisons.
- `Path.GetDirectoryName` is modelled for relative paths only: the prefix before the last backslash. Rooted paths, alternative separators and normalisation are not modelled.
- `Path.Combine` is modelled for a relative file name. Rooted second arguments are not modelled.
- `Directory.EnumerateFiles` is an input listing per directory, in the order given; its platform-dependent order is not modelled. The lookup of a directory in that map is case-sensitive.
- Writing the files is not modelled: `StreamWriter` creation, flushing, and overwriting when two projects share a directory. A run yields the solution file, the project files written, and either all project files or the exception that ended the loop.
- `Enum.Parse` and the `StreamWriter` constructors can also throw; those exceptions are not modelled.
- Scripts.LinkedNames: holds only for dependency names without spaces. `target_link_libraries` writes the names unquoted, so a name with a space reads back as several names (Scripts.LinkedNamesAmbiguous).
- Partial file content is not modelled. When an exception aborts a project script, the lines already written before it stay in that file on disk. The model lists only the earlier projects' complete files and the error.
- The `slnDir` and `slnName` derivation from the solution file name is host code and is taken as input.

