# pyqt-crom core, modelled in Dafny

pyqt-crom packages PyQt5 applications for desktop and mobile targets with
pyqtdeploy. This project models the parts of it that compute something:

- **The Python dependency collector** (`PyDepCollector`). It reads `pip show`
  output, selects site-package names, walks a package directory while
  pruning private and excluded directories, and gathers imports. It keeps a
  strictly sorted, duplicate-free dependency list. It also extracts
  top-level module names, optionally tagging standard-library modules with
  `Python:`. The class applies the file test as the program writes it
  (`AsWritten`). The test the comments intend, on the bare file name
  (`ByFileName`), is modelled beside it, and the two are related by
  `WalkByFileName` (see "Findings").
- **The screenshot comparison of the "beat the pause" game**, in its three
  variants. Frames are grabbed in pairs until a timeout. Each adjacent pair
  of frames gets an integer sum of squared pixel differences, which is
  judged against a threshold derived from a similarity percentage. Pairs
  that differ are saved under a name that grows by one `1` per saved frame.
- **The project-file readers**:
  - two copies of the `.pdt` line parser;
  - the `.pdy` attribute reader;
  - the entry-point-to-script-name rule they share.
- **`validate_pkg_format`**, which chooses between a slash-joined and a
  dotted package name.
- **The three pyqtdeploy build scripts**. Each one:
  - chooses a default target from the platform and environment;
  - checks the Qt prerequisites of mobile targets;
  - orders the source directories;
  - builds the `pyqtdeploy-sysroot`, `pyqtdeploy-build`, qmake and make
    command lines;
  - runs them in order, stopping at the first failure;
  - names the build output.

Stateful code is modelled as classes whose fields the methods update:
`PyDepCollector`, and the three `MainWindow`s. Loops are modelled as methods
with loop invariants: the walk, the nested squared-error loop, the
comparison loop, the grab loop and the script runs. Each method is proved
against a specification function, and the properties are proved about
those functions. Python's `str.split`, `str.join`, `str.lstrip`,
`os.path.join`, `os.path.basename`, `os.path.dirname` and `sorted(set(...))`
are defined in `pystrings.dfy` and `string_order.dfy` with the edge cases
the code relies on.

Everything outside Python goes in as a parameter:

- pip, `packages_distributions`, `os.walk` (as a directory tree),
  `list_imports`, `stdlib_list` and `find_spec`;
- the existence of paths and `abspath`;
- the environment and the platform;
- the exit status of each command;
- the grabbed frames;
- the elapsed time of each grab iteration;
- the dialog answers.

A script's `sys.exit(n)` is a result `Exit(n)`. An exception that the source
catches becomes the branch it takes.

## Model

| member | source | states |
|---|---|---|
| `PyStrings.Split` | utils/python/py_package_dependency_collector.py:130 | `str.split(c)` always yields at least one field |
| `PyStrings.SplitFields` | utils/python/py_package_dependency_collector.py:130 | no field of `s.split(c)` contains `c`, and there is a second field iff `c` occurs in `s` |
| `PyStrings.JoinSnoc` | utils/python/py_package_dependency_collector.py:454-455 | joining one more part appends the separator and that part |
| `PyStrings.JoinSplit` | utils/python/py_package_dependency_collector.py:189-191 | joining the fields of `s.split(c)` with `c` gives `s` back |
| `PyStrings.SplitJoin` | utils/python/py_package_dependency_collector.py:454-455 | splitting a join of separator-free parts gives the parts back |
| `PyStrings.SplitAt` | utils/pdt_parser.py:82-84 | a string cut at its first separator splits into that head followed by the split of the rest |
| `PyStrings.SplitNone` | utils/pdt_parser.py:84 | a string without the separator splits into itself alone |
| `PyStrings.SplitFirst` | utils/pdt_parser.py:82-84 | the first field is the text before the first separator; the last field ignores everything up to that separator |
| `PyStrings.LStrip` | utils/python/py_package_dependency_collector.py:130 | `lstrip()` leaves no leading white space (as `str.isspace()` defines it) and never lengthens the string |
| `PyStrings.LStripSuffix` | utils/python/py_package_dependency_collector.py:130 | `lstrip()` removes exactly a whitespace prefix: the result is a suffix and everything cut was whitespace |
| `PyStrings.PathJoin` | utils/python/py_package_dependency_collector.py:288 | `os.path.join(a, b)` is `b` when `b` is absolute, and otherwise starts with `a` and ends with `b` |
| `PyStrings.BaseName` | utils/python/py_package_dependency_collector.py:301 | `os.path.basename` contains no '/' |
| `PyStrings.BaseNameJoin` | utils/python/py_package_dependency_collector.py:288-301 | the base name of `join(a, b)` is `b` for a slash-free `b` |
| `PyStrings.RStripSlashes` | utils/build-demo.py:201 | the trailing-slash strip inside `dirname` removes exactly a run of '/' at the end |
| `PyStrings.DirName` | utils/build-demo.py:201 | `os.path.dirname(p)` is a prefix of `p`, and is empty when `p` has no '/' |
| `PyStrings.DirNameJoin` | utils/build-demo.py:201 | `dirname(join(a, b))` is `a` for a slash-free `b` and an `a` without a trailing '/' |
| `PyStrings.PathJoinThrough` | utils/build-demo.py:172 | joining `b/c` under `a` is the same as joining `c` under `join(a, b)` |
| `PyStrings.DecimalString` | utils/build-demo.py:133 | `str(n)` of a natural number is a non-empty string of decimal digits |
| `PyStrings.DecimalStringValue` | utils/build-demo.py:133 | `str(n)` read back in base 10 is `n`, with a leading zero only for 0 |
| `PyStrings.SecondField` | utils/pdt_parser.py:45-46 | the text after the first `c`, up to the next `c` or the end, and free of `c` |
| `PyStrings.SecondFieldSplit` | utils/pdt_parser.py:45-46 | that text is exactly element 1 of `s.split(c)`, which exists whenever `c` occurs |
| `PyStrings.Join` | utils/python/py_package_dependency_collector.py:454-455 | `sep.join(parts)`; `JoinSplit` and `SplitJoin` prove it the inverse of `split` |
| `PyStrings.StartsWith` | utils/pdt_parser.py:43 | `s.startswith(p)`: `p` is a prefix of `s` |
| `PyStrings.EndsWith` | utils/python/py_package_dependency_collector.py:295 | `s.endswith(p)`: `p` is a suffix of `s` |
| `PyStrings.PythonSuffix` | utils/python/py_package_dependency_collector.py:295 | `re.search("(\.py)$", s)`: `.py` at the end, or just before a final newline |
| `PyStrings.SingleUnderscorePrivate` | utils/python/py_package_dependency_collector.py:285 | `re.search("^_[^_].*$", s)`: an underscore, a character that is not one, and no line break after it except a final newline |
| `PyStrings.IsSpace` | utils/python/py_package_dependency_collector.py:130 | the characters `str.isspace()` accepts: the Latin-1 white space and the Unicode space, line and paragraph separators |
| `PyStrings.PathJoinAll` | examples/external/external_python_project/externalpy_pkg/tools/validation_tools.py:64 | `os.path.join(*parts)`: the parts joined left to right |
| `StringOrder.Insert` | utils/python/py_package_dependency_collector.py:333-339 | inserting into a strictly sorted list keeps it strictly sorted and adds exactly the new element |
| `StringOrder.SortedSet` | utils/python/py_package_dependency_collector.py:333-339 | `sorted(set(xs))` is strictly ascending and has exactly the elements of `xs` |
| `StringOrder.SortedUnique` | utils/python/py_package_dependency_collector.py:333-339 | two strictly sorted lists with the same elements are equal, so the normal form is unique |
| `StringOrder.SortedSetAppend` | utils/python/py_package_dependency_collector.py:320-339 | normalising, extending and normalising again equals normalising the whole list once |
| `StringOrder.Less` | utils/python/py_package_dependency_collector.py:339 | Python's `<` on `str`: code point by code point, a proper prefix first |
| `StringOrder.LessIrreflexive` | utils/python/py_package_dependency_collector.py:339 | no string is less than itself |
| `StringOrder.LessTransitive` | utils/python/py_package_dependency_collector.py:339 | the order is transitive |
| `StringOrder.LessTotal` | utils/python/py_package_dependency_collector.py:339 | any two distinct strings are ordered one way |
| `StringOrder.LessAsymmetric` | utils/python/py_package_dependency_collector.py:339 | no two strings are each less than the other |
| `StringOrder.StrictlySorted` | utils/python/py_package_dependency_collector.py:333-339 | ascending without duplicates, as `sorted(set(xs))` leaves a list |
| `EntryPoints.ScriptName` | utils/pdt_parser.py:82-85 | the script name of an entry point contains no '.' and no ':' |
| `EntryPoints.ScriptNameOfEntry` | utils/pdt_parser.py:82-85 | `p.m:f` gives `m` |
| `EntryPoints.ScriptNameOfModule` | utils/pdt_parser.py:82-85 | `m:f` gives `m` |
| `EntryPoints.ScriptNameOfPlain` | utils/pdt_parser.py:82-85 | a name without '.' or ':' gives itself |
| `DepCollector.KeyPrefix` | utils/python/py_package_dependency_collector.py:130 | the key of a `pip show` line is the text before its first ':' |
| `DepCollector.PipShowDictKeys` | utils/python/py_package_dependency_collector.py:129-134 | a key is in the parsed dictionary iff some line holding ':' has that key |
| `DepCollector.PipShowDictValues` | utils/python/py_package_dependency_collector.py:129-134 | each key maps to the left-stripped second field of the last line with that key |
| `DepCollector.SiteNames` | utils/python/py_package_dependency_collector.py:151-157 | a name is kept iff its first distribution is the PyPI name and it is not single-underscore private; an empty distribution list raises |
| `DepCollector.InstallPaths` | utils/python/py_package_dependency_collector.py:171-175 | one path per site name, each the name joined under the location |
| `DepCollector.PipStageSpec` | utils/python/py_package_dependency_collector.py:104-211 | the appended names are selected ones; the paths cover the whole accumulated name list; the appended requirements join back to the untrimmed `Requires` value |
| `DepCollector.PrunedMembers` | utils/python/py_package_dependency_collector.py:281-286 | a sub-directory survives pruning iff it is neither excluded nor single-underscore private |
| `DepCollector.AsWrittenIgnoresPrivateNames` | utils/python/py_package_dependency_collector.py:287-297 | as written, under an absolute directory the underscore test never rejects a file: only the suffix and the exclusion list decide |
| `DepCollector.PrivateFileCollectedAsWritten` | utils/python/py_package_dependency_collector.py:287-297 | as written, `/pkg/_private.py` is collected although its name is single-underscore private |
| `DepCollector.KeptFilesPublic` | utils/python/py_package_dependency_collector.py:287-297 | under the intended test on the file name, every file kept in one directory ends in `.py`, has a public name and is not excluded |
| `DepCollector.WalkPublic` | utils/python/py_package_dependency_collector.py:272-297 | under the intended test, every file the whole walk collects ends in `.py`, has a public name and is not excluded |
| `DepCollector.PyFilesOfDirectory` | utils/python/py_package_dependency_collector.py:268-303 | under the intended test, the Python files found for a directory path are all public, `.py` and not excluded |
| `DepCollector.TopName` | utils/python/py_package_dependency_collector.py:370-374 | the top-level name is the text before the first '.', or the whole name when it has none |
| `DepCollector.TaggedTopNames` | utils/python/py_package_dependency_collector.py:370-392 | one entry per dependency: its top-level name, prefixed `Python:` only in pdt format for a standard-library module |
| `DepCollector.TopLevelDeps` | utils/python/py_package_dependency_collector.py:368-402 | the result is strictly sorted and holds exactly the tagged top-level names of the dependencies |
| `DepCollector.TopLevelPlain` | utils/python/py_package_dependency_collector.py:368-402 | without pdt format no top-level name contains '.' |
| `DepCollector.ListOfStrings` | utils/python/py_package_dependency_collector.py:454-455 | the comma-free fields that join back to the argument |
| `DepCollector.ListOfStringsRoundTrip` | utils/python/py_package_dependency_collector.py:454-455 | splitting the comma-join of comma-free items gives the items back |
| `DepCollector.ParseSource` | utils/python/py_package_dependency_collector.py:498-504 | exactly one of `-n` and `-p` must be given, otherwise exit 2 |
| `DepCollector.PyDepCollector.constructor` | utils/python/py_package_dependency_collector.py:60-65 | all three lists start empty |
| `DepCollector.PyDepCollector.CollectDepsFromPkgPath` | utils/python/py_package_dependency_collector.py:222-339 | the list becomes strictly sorted with exactly the old entries plus the imports of the files the program's own file test finds (`PyFiles(AsWritten, ...)`) |
| `DepCollector.PyDepCollector.CollectDepsFromPkgName` | utils/python/py_package_dependency_collector.py:78-220 | site names and requirements are appended as the pip stage yields them; the dependency list is cleared, then becomes the sorted set of the imports found, with the program's own file test, under every installation path |
| `DepCollector.PyDepCollector.GetDepsList` | utils/python/py_package_dependency_collector.py:341-351 | returns the collected list, unchanged |
| `DepCollector.PyDepCollector.GetTopLevelDepsList` | utils/python/py_package_dependency_collector.py:356-402 | returns the strictly sorted top-level names and changes nothing |
| `DepCollector.PyDepCollector.GetPipRequiredDepsList` | utils/python/py_package_dependency_collector.py:404-414 | returns the pip-required list |
| `DepCollector.PyDepCollector.GetSitePkgNamesList` | utils/python/py_package_dependency_collector.py:416-426 | returns the site-package names |
| `DepCollector.PyDepCollector.ResetDepsList` | utils/python/py_package_dependency_collector.py:428-438 | empties the dependency list |
| `DepCollector.PyDepCollector.ResetPipRequiredDepsList` | utils/python/py_package_dependency_collector.py:440-450 | as written, empties the dependency list and leaves the pip-required list alone |
| `DepCollector.PipShowDict` | utils/python/py_package_dependency_collector.py:129-134 | the dictionary of the `pip show` lines holding a ':', a later key overwriting an earlier one; `PipShowDictKeys` and `PipShowDictValues` state its keys and values |
| `DepCollector.PipStage` | utils/python/py_package_dependency_collector.py:104-211 | what one pip lookup yields: the site names, requirements and installation paths, empty where the source raises; `PipStageSpec` states them |
| `DepCollector.Pruned` | utils/python/py_package_dependency_collector.py:281-286 | the sub-directories the walk keeps, in order; `PrunedMembers` states which |
| `DepCollector.PrunedSmaller` | utils/python/py_package_dependency_collector.py:281-286 | a kept sub-directory is part of the directory, so the walk descends into smaller trees |
| `DepCollector.FileKeptAsWritten` | utils/python/py_package_dependency_collector.py:294-296 | the file test as written: the private-name pattern on the joined path, the `.py` pattern on the joined path, the name not excluded |
| `DepCollector.FileKept` | utils/python/py_package_dependency_collector.py:287-297 | the file test as the comment at lines 289-291 intends: the private-name pattern on the file name |
| `DepCollector.KeptFiles` | utils/python/py_package_dependency_collector.py:287-297 | the files one directory contributes, joined to its path, in order |
| `DepCollector.KeptFilesAsWritten` | utils/python/py_package_dependency_collector.py:287-297 | under an absolute directory path, the program's test keeps a file iff its joined path ends in `.py` and its name is not excluded |
| `DepCollector.KeptFilesByFileName` | utils/python/py_package_dependency_collector.py:287-297 | under an absolute directory path, the intended test keeps exactly the files the program keeps minus those with a single-underscore name, in order |
| `DepCollector.Entries` | utils/python/py_package_dependency_collector.py:278-286 | what `os.walk(topdown=True)` yields after pruning: the directory first, then each kept sub-directory's entries |
| `DepCollector.EntriesAbsolute` | utils/python/py_package_dependency_collector.py:278-288 | every directory the walk yields under an absolute root is absolute |
| `DepCollector.Collect` | utils/python/py_package_dependency_collector.py:278-297 | the files the loop keeps from the walk's entries, in walk order |
| `DepCollector.CollectAppend` | utils/python/py_package_dependency_collector.py:278-297 | collecting two runs of entries is collecting each in turn |
| `DepCollector.CollectAsWritten` | utils/python/py_package_dependency_collector.py:278-297 | over absolute entries the program's loop collects every `.py` file whose name is not excluded, and only such files |
| `DepCollector.CollectByFileName` | utils/python/py_package_dependency_collector.py:278-297 | over absolute entries the intended loop collects the program's files minus the single-underscore ones |
| `DepCollector.CollectPublic` | utils/python/py_package_dependency_collector.py:278-297 | under the intended test every collected file is public, `.py` and not excluded |
| `DepCollector.Walk` | utils/python/py_package_dependency_collector.py:278-297 | the files the walk keeps, in walk order |
| `DepCollector.WalkAsWritten` | utils/python/py_package_dependency_collector.py:272-297 | under an absolute root the program's walk keeps exactly the `.py` files, private names included, whose names are not excluded, in every directory it visits |
| `DepCollector.WalkByFileName` | utils/python/py_package_dependency_collector.py:272-297 | under an absolute root the intended walk is the program's walk with the single-underscore files dropped |
| `DepCollector.DropPrivateMembers` | utils/python/py_package_dependency_collector.py:289-291 | dropping private files keeps exactly the files whose base name is not single-underscore private |
| `DepCollector.DropPrivateAppend` | utils/python/py_package_dependency_collector.py:289-291 | dropping private files distributes over concatenation |
| `DepCollector.PyFiles` | utils/python/py_package_dependency_collector.py:268-303 | `py_file_list`: the walk of a directory, or a file whose name is not excluded, or nothing |
| `DepCollector.PyFilesAsWritten` | utils/python/py_package_dependency_collector.py:268-303 | the intended file list is the program's list with the single-underscore files dropped |
| `DepCollector.FilesImports` | utils/python/py_package_dependency_collector.py:305-320 | the imports of the files in order; a file whose imports cannot be read adds none |
| `DepCollector.PathsImports` | utils/python/py_package_dependency_collector.py:215-220 | the imports collected from each installation path in turn |
| `DepCollector.TopLevelOf` | utils/python/py_package_dependency_collector.py:370-392 | `z` is the tagged top-level name of one of the dependencies |
| `DepCollector.PyDepCollector.KeepPyFiles` | utils/python/py_package_dependency_collector.py:287-297 | the file loop over one directory keeps exactly the files of the program's test, in order |
| `DepCollector.PyDepCollector.WalkPyFiles` | utils/python/py_package_dependency_collector.py:278-297 | the walk loop collects exactly the program's walk, directory first, then each kept sub-directory in turn |
| `DepCollector.Key` | utils/python/py_package_dependency_collector.py:130 | the text before the first ':' of a `pip show` line |
| `DepCollector.Value` | utils/python/py_package_dependency_collector.py:130 | the text between the first and second ':', leading white space stripped |
| `DepCollector.Selected` | utils/python/py_package_dependency_collector.py:152-157 | a site name whose first distribution is the PyPI name and which is not single-underscore private |
| `DepCollector.Tag` | utils/python/py_package_dependency_collector.py:386-392 | a standard-library name gets the `Python:` prefix in pdt format |
| `DepCollector.Given` | utils/python/py_package_dependency_collector.py:498-504 | an option given with a non-empty value |
| `PdtParser.IndexOf` | utils/pdt_parser.py:61 | `list.index`: the first position holding the line |
| `PdtParser.FirstWithPrefix` | utils/pdt_parser.py:60 | the first line with the prefix, or none when no line has it |
| `PdtParser.MatchingFirst` | utils/pdt_parser.py:60-61 | the filtered list is empty iff no line has the prefix, and its head is the first such line |
| `PdtParser.HeaderIndex` | utils/pdt_parser.py:94-95 | `index` of the first matching line is the position of the first line with the prefix |
| `PdtParser.HeadersDistinct` | utils/pdt_parser.py:60-94 | no line starts with both `[Application]` and `[Application.Package]`, so the two headers are found independently |
| `PdtParser.QuotedAt` | utils/pdt_parser.py:45-46 | the extracted value never contains '"' |
| `PdtParser.FirstQuoted` | utils/pdt_parser.py:43-46 | the quoted field of the first line with the key |
| `PdtParser.QuotedBelow` | utils/pdt_parser.py:94-97 | the quoted field of the line a fixed offset below the header |
| `PdtParser.GetSysrootPath` | utils/pdt_parser.py:41-56 | succeeds iff the `sysroot ` value exists, is non-empty and joins to an existing path, which it returns; otherwise exit 1 |
| `PdtParser.GetAppName` | utils/pdt_parser.py:58-72 | succeeds iff the line four below `[Application]` has a quoted field, which it returns even when empty; otherwise exit 1 |
| `PdtParser.GetAppEntryPointScriptName` | utils/pdt_parser.py:74-90 | succeeds iff the `entry_point ` value exists and is non-empty, and returns its script name; otherwise exit 1 |
| `PdtParser.GetAppPackagePath` | utils/pdt_parser.py:92-108 | succeeds iff the value below `[Application.Package]` is non-empty and joins to an existing path, which it returns; otherwise exit 1 |
| `PdtParser.EmptyAppNameAccepted` | utils/pdt_parser.py:64-68 | an empty name is returned as "" (the `==` on line 66 changes nothing) |
| `PdtParser.Matching` | utils/pdt_parser.py:43 | the lines starting with the prefix, in order; `MatchingFirst` ties its head to `FirstWithPrefix` |
| `PdtParserResources.GetSysrootPath` | utils/resources/python/pdt_parser.py:19-32 | the non-empty `sysroot ` value joined to the directory, with no existence check; otherwise exit 1 |
| `PdtParserResources.GetAppName` | utils/resources/python/pdt_parser.py:34-47 | the quoted name four lines below `[Application]`; an empty name is exit 1 |
| `PdtParserResources.GetAppPackagePath` | utils/resources/python/pdt_parser.py:67-81 | the non-empty package value joined to the directory, with no existence check; otherwise exit 1 |
| `PdtParserResources.CopiesAgree` | utils/resources/python/pdt_parser.py:19-81 | the two copies agree wherever both succeed; they differ only on an empty name and on a missing path |
| `PdyParser.FirstTagged` | pyqtdeploy_app/utils/pdy_parser.py:20 | the first child with the tag, or none when no child has it |
| `PdyParser.Find` | pyqtdeploy_app/utils/pdy_parser.py:20 | `find` returns a child with the tag, and nothing only when no child has it |
| `PdyParser.Attribute` | pyqtdeploy_app/utils/pdy_parser.py:21-26 | the attribute of a found element, or exit 1 for a missing element or key |
| `PdyParser.GetAppName` | pyqtdeploy_app/utils/pdy_parser.py:18-26 | the `name` of the first `Application` child, or exit 1 |
| `PdyParser.GetAppEntrypointScriptName` | pyqtdeploy_app/utils/pdy_parser.py:28-42 | succeeds iff an `Application` element with an `entrypoint` attribute exists, and then returns the script name of that attribute followed by `.py`, a stem with no '.' or ':' |
| `PdyParser.GetAppPackagePath` | pyqtdeploy_app/utils/pdy_parser.py:44-53 | the `name` of the `Package` element inside `Application`, or exit 1 |
| `PdyParser.EntrypointScript` | pyqtdeploy_app/utils/pdy_parser.py:30-38 | `p.m:f` gives `m.py`, and a plain `m` gives `m.py` |
| `ValidationTools.ValidatePkgFormat` | examples/external/external_python_project/externalpy_pkg/tools/validation_tools.py:28-106 | the joined name wins when found; otherwise the dotted name when found; otherwise ''; a raising `find_spec` propagates |
| `ValidationTools.DottedOnlyAfterJoined` | examples/external/external_python_project/externalpy_pkg/tools/validation_tools.py:74-83 | the dotted name is returned iff the joined one is missing and the dotted one is found |
| `ValidationTools.PlainName` | examples/external/external_python_project/externalpy_pkg/tools/validation_tools.py:61-64 | a name without '.' is its own joined form, so the result is the name or '' |
| `ValidationTools.PathJoinAllPlain` | examples/external/external_python_project/externalpy_pkg/tools/validation_tools.py:64 | `join(*parts)` of non-empty slash-free parts is the parts joined by '/' |
| `ValidationTools.JoinedReplacesDots` | examples/external/external_python_project/externalpy_pkg/tools/validation_tools.py:61-64 | the joined name is the dotted name with every '.' replaced by '/' |
| `ValidationTools.JoinedName` | examples/external/external_python_project/externalpy_pkg/tools/validation_tools.py:60-64 | the dotted name split at the dots and joined as a relative path |
| `GrabTiming.IterationsFrom` | examples/multimedia/pyqt5_beat_the_pause_game_app.py:294-315 | the loop stops at the first iteration count whose elapsed total uses up the timeout, and not before |
| `GrabTiming.IterationsStart` | examples/multimedia/pyqt5_beat_the_pause_game_app.py:298 | the loop body runs at least once iff the timeout is positive |
| `GrabTiming.TotalAtLeast` | examples/multimedia/pyqt5_beat_the_pause_game_app.py:305-312 | when every iteration lasts at least the sleep time, k iterations last at least k sleeps |
| `GrabTiming.IterationsBound` | examples/multimedia/pyqt5_beat_the_pause_game_app.py:298-315 | one iteration fewer than were run takes less sleep time than the timeout |
| `GrabTiming.Total` | examples/multimedia/pyqt5_beat_the_pause_game_app.py:305-315 | the sum of the elapsed times in loop order; `TotalAtLeast` bounds it below |
| `GrabTiming.Iterations` | examples/multimedia/pyqt5_beat_the_pause_game_app.py:298-315 | the number of loop passes: the first at which the remaining timeout is no longer positive; `IterationsBound` bounds it |
| `ScreenshotCompare.ColumnErrorZero` | examples/multimedia/pyqt5_beat_the_pause_game_app.py:535-536 | one column's squared error is non-negative, and zero iff that column agrees |
| `ScreenshotCompare.AreaErrorZero` | examples/multimedia/pyqt5_beat_the_pause_game_app.py:534-536 | the squared error of a w×h area is non-negative, and zero iff the frames agree on it |
| `ScreenshotCompare.SquaredErrorZero` | examples/multimedia/pyqt5_beat_the_pause_game_app.py:526-536 | over the first frame's size the error is non-negative, and zero iff the frames agree there |
| `ScreenshotCompare.ComputeSquaredError` | examples/multimedia/pyqt5_beat_the_pause_game_app.py:526-536 | the nested loops compute that sum |
| `ScreenshotCompare.ThresholdShape` | examples/multimedia/pyqt5_beat_the_pause_game_app.py:280-287 | the squared threshold does not increase with the percentage, is non-negative up to 100 and is 0 at 100 |
| `ScreenshotCompare.ThresholdAt80` | pyqt_feature_testing/multimedia/pyqt5_beat_the_pause_game.py:39-44 | at 80 % the squared threshold is 0.2·2^48 |
| `ScreenshotCompare.ThresholdRaisesIff` | examples/multimedia/pyqt5_beat_the_pause_game_app.py:284 | `math.sqrt` raises exactly when the percentage is above 100, where the squared threshold is negative |
| `ScreenshotCompare.RootComparison` | examples/multimedia/pyqt5_beat_the_pause_game_app.py:541-549 | for non-negative roots, `rmse - threshold >= 0` iff mse ≥ threshold², so comparing squares decides the same way |
| `ScreenshotCompare.IdenticalNotSaved` | examples/multimedia/pyqt5_beat_the_pause_game_app.py:538-553 | frames that agree are never saved when the percentage is below 100 |
| `ScreenshotCompare.ZeroAreaVerdict` | examples/multimedia/pyqt5_beat_the_pause_game_app.py:538-541 | a pair aborts iff there is no zero-size guard and the first frame has zero width or height |
| `ScreenshotCompare.NamedInOrderDistinct` | examples/multimedia/pyqt5_beat_the_pause_game_app.py:555-558 | saves named by a name growing one '1' at a time never share a name |
| `ScreenshotCompare.NamedInOrderAppend` | examples/multimedia/pyqt5_beat_the_pause_game_app.py:555-558 | a second run that starts from the name the first left continues the same naming |
| `ScreenshotCompare.Verdicts` | examples/multimedia/pyqt5_beat_the_pause_game_app.py:514-553 | one verdict per adjacent pair (i, i+1), len − 1 in all |
| `ScreenshotCompare.RunOverNames` | examples/multimedia/pyqt5_beat_the_pause_game_app.py:514-558 | after k steps the name has grown by one '1' per save, saves come in pairs, and all go to the save directory |
| `ScreenshotCompare.RunOverPairs` | examples/multimedia/pyqt5_beat_the_pause_game_app.py:514-558 | each saved pair is frames i and i+1 of a compared pair judged different, in order |
| `ScreenshotCompare.AbortedStays` | pyqt_feature_testing/multimedia/pyqt5_beat_the_pause_game_app.py:216-248 | once a division by zero has ended the run, nothing further changes |
| `ScreenshotCompare.CompareAllShape` | examples/multimedia/pyqt5_beat_the_pause_game_app.py:507-562 | without more than one frame and an even count nothing is compared or saved; otherwise len − 1 pairs are compared (unless aborted), saved pairs are the frames judged different, and names are distinct and in order |
| `ScreenshotCompare.RunOverNoAbort` | examples/multimedia/pyqt5_beat_the_pause_game_app.py:538-541 | with no zero-area verdict the run never aborts |
| `ScreenshotCompare.GuardedNeverAborts` | examples/multimedia/pyqt5_beat_the_pause_game_app.py:538-541 | with the zero-size guard no comparison run aborts |
| `ScreenshotCompare.UnguardedAborts` | pyqt_feature_testing/multimedia/pyqt5_beat_the_pause_game_app.py:216-248 | without the zero-size guard a run aborts iff it compares and some frame before the last has zero width or height; it stops at the first such frame, and when that is the first frame nothing is saved |
| `ScreenshotCompare.CompareContinuesNames` | examples/multimedia/pyqt5_beat_the_pause_game_app.py:555-558 | the saves of a new run continue the naming of all earlier saves |
| `ScreenshotCompare.JudgePair` | examples/multimedia/pyqt5_beat_the_pause_game_app.py:519-553 | computes the verdict of one pair |
| `ScreenshotCompare.CompareFrames` | examples/multimedia/pyqt5_beat_the_pause_game_app.py:514-558 | the comparison loop yields exactly the specified run |
| `ScreenshotCompare.Pixel` | examples/multimedia/pyqt5_beat_the_pause_game_app.py:536 | `QImage.pixel(x, y)`: the frame's pixel inside the frame, and 12345 outside it, as Qt 5 answers a position out of range |
| `ScreenshotCompare.SquaredError` | examples/multimedia/pyqt5_beat_the_pause_game_app.py:526-536 | the squared pixel differences summed over the first frame's grid; `SquaredErrorZero` shows it is zero iff the frames agree there |
| `ScreenshotCompare.ThresholdSq` | examples/multimedia/pyqt5_beat_the_pause_game_app.py:280-284 | the square of `rmse_threshold`, `(100 - p) / 100 * (2**24) ** 2`; `ThresholdShape` states its range and monotonicity |
| `ScreenshotCompare.Decide` | examples/multimedia/pyqt5_beat_the_pause_game_app.py:541-553 | Different iff mse is at least the squared threshold, the square form of `not (rmse - threshold < 0)` |
| `ScreenshotCompare.PairVerdict` | examples/multimedia/pyqt5_beat_the_pause_game_app.py:519-553 | the verdict on one pair: ZeroArea for an empty first frame without the guard, else `Decide` on the error per pixel (one pixel when the guard replaced a zero size) |
| `ScreenshotCompare.VerdictAt` | examples/multimedia/pyqt5_beat_the_pause_game_app.py:519-553 | the `i`-th verdict is the verdict on `image_list[i]` and `image_list[i + 1]` |
| `ScreenshotCompare.Step` | examples/multimedia/pyqt5_beat_the_pause_game_app.py:552-558 | one loop pass: ZeroArea aborts, Different saves both frames under the next two names, Similar saves nothing |
| `ScreenshotCompare.RunOver` | examples/multimedia/pyqt5_beat_the_pause_game_app.py:514-558 | the run after the first `k` passes, frozen once aborted; `RunOverNames`, `RunOverPairs` and `RunOverAborts` state its properties |
| `ScreenshotCompare.RunOverAborts` | pyqt_feature_testing/multimedia/pyqt5_beat_the_pause_game_app.py:216-248 | a run aborts iff a ZeroArea verdict lies among the pairs it reached, and then it stopped right after the first of them |
| `ScreenshotCompare.Empty` | pyqt_feature_testing/multimedia/pyqt5_beat_the_pause_game_app.py:225-231 | a frame with zero width or height, whose error per pixel divides by zero |
| `ScreenshotCompare.CompareAll` | examples/multimedia/pyqt5_beat_the_pause_game_app.py:505-562 | `compare_screenshots`: nothing unless there are more than one and an even number of frames, else a run over every adjacent pair; `CompareAllShape` states its result |
| `ScreenshotCompare.CanCompare` | examples/multimedia/pyqt5_beat_the_pause_game_app.py:507 | the pairing guard: more than one frame and an even number of them |
| `ScreenshotCompare.NamedInOrder` | examples/multimedia/pyqt5_beat_the_pause_game_app.py:555-558 | the `j`-th save is named with `j` more characters '1' than the first |
| `ScreenshotCompare.SaveTwoNames` | examples/multimedia/pyqt5_beat_the_pause_game_app.py:555-558 | saving a differing pair gives its frames the next two names, in the save directory |
| `BeatPauseApp.Grabbed` | examples/multimedia/pyqt5_beat_the_pause_game_app.py:329-340 | a failed grab appends nothing, so there are at most as many frames as grab calls |
| `BeatPauseApp.GrabbedFrames` | examples/multimedia/pyqt5_beat_the_pause_game_app.py:329-340 | every listed frame came from a successful grab, and every successful grab is listed |
| `BeatPauseApp.ScratchStep` | examples/multimedia/pyqt5_beat_the_pause_game_app.py:335-337 | each successful grab overwrites `img_1` with its frame |
| `BeatPauseApp.MainWindow.constructor` | examples/multimedia/pyqt5_beat_the_pause_game_app.py:93-113 | timeout 5, frequency 0.25, delay 0, first name `screenshot_saved_1`, 80 %, the current directory, empty list, no threshold |
| `BeatPauseApp.MainWindow.OnSetStartDelay` | examples/multimedia/pyqt5_beat_the_pause_game_app.py:212-227 | any number given, picked or typed, becomes the delay; a cancel changes nothing; text `float()` cannot read raises ValueError, iff the answer is not a number, and changes nothing |
| `BeatPauseApp.MainWindow.OnSetTimeout` | examples/multimedia/pyqt5_beat_the_pause_game_app.py:229-244 | any number given, picked or typed, becomes the timeout; a cancel changes nothing; text `float()` cannot read raises ValueError, iff the answer is not a number, and changes nothing |
| `BeatPauseApp.MainWindow.OnSetUpdateFrequency` | examples/multimedia/pyqt5_beat_the_pause_game_app.py:246-261 | any number given, picked or typed, becomes the frequency; a cancel changes nothing; text `float()` cannot read raises ValueError, iff the answer is not a number, and changes nothing |
| `BeatPauseApp.MainWindow.OnSetImageSimilarity` | examples/multimedia/pyqt5_beat_the_pause_game_app.py:263-278 | any number given, picked or typed, becomes the percentage; a cancel changes nothing; text `float()` cannot read raises ValueError, iff the answer is not a number, and changes nothing |
| `BeatPauseApp.MainWindow.CalculateRmseThreshold` | examples/multimedia/pyqt5_beat_the_pause_game_app.py:280-287 | raises ValueError iff p > 100, keeping the old threshold; otherwise the squared threshold becomes (100 − p)/100 · 2^48, which is non-negative |
| `BeatPauseApp.MainWindow.SetSaveLocation` | examples/multimedia/pyqt5_beat_the_pause_game_app.py:484-491 | an accepted writable choice becomes the directory, an unwritable one falls back to the current directory, a cancel keeps it |
| `BeatPauseApp.MainWindow.GrabScreen` | examples/multimedia/pyqt5_beat_the_pause_game_app.py:322-340 | a successful grab appends one frame and rewrites `img_1`; a failed one changes nothing |
| `BeatPauseApp.MainWindow.CompareScreenshots` | examples/multimedia/pyqt5_beat_the_pause_game_app.py:498-566 | raises iff it compares and p > 100, then changing nothing; otherwise saves exactly the run's saves, leaves the name where the run left it, never aborts, and recomputes the threshold only when it compares |
| `BeatPauseApp.MainWindow.ComparePairs` | examples/multimedia/pyqt5_beat_the_pause_game_app.py:514-558 | the comparison loop appends the run's saves and advances the name |
| `BeatPauseApp.MainWindow.GrabUntilTimeout` | examples/multimedia/pyqt5_beat_the_pause_game_app.py:293-315 | the list is reset, then receives the successful grabs of two calls per iteration until the time runs out; a timeout ≤ 0 leaves it empty; a negative frequency raises at the first sleep, after one grab |
| `BeatPauseApp.MainWindow.BackgroundGrabProcess` | examples/multimedia/pyqt5_beat_the_pause_game_app.py:289-320 | grabs as above, then compares: the saves and the name follow the run over the grabbed frames; an exception in the loop skips the comparison |
| `BeatPauseApp.MainWindow.OnScreenGrabButtonClicked` | examples/multimedia/pyqt5_beat_the_pause_game_app.py:181-204 | "No" changes nothing; "Yes" runs the background process, with its exceptions and its empty run for a timeout ≤ 0 |
| `BeatPauseApp.GrabbedStep` | examples/multimedia/pyqt5_beat_the_pause_game_app.py:322-340 | one more shot extends the grabbed frames by its frame exactly when the grab succeeded |
| `BeatPauseApp.ScratchAfter` | examples/multimedia/pyqt5_beat_the_pause_game_app.py:335-337 | the `img_1` file after a series of grabs: the last frame grabbed, if any |
| `SettingsDialog.Updated` | examples/multimedia/pyqt5_beat_the_pause_game_app.py:222-224 | the setting after a dialog: the number given, otherwise the old value |
| `SettingsDialog.OfferedSettingsSafe` | examples/multimedia/pyqt5_beat_the_pause_game_app.py:217-278 | every offered timeout is positive, every offered frequency a valid sleep length, and no offered percentage makes the threshold raise |
| `BeatPauseTesting.MainWindow.constructor` | pyqt_feature_testing/multimedia/pyqt5_beat_the_pause_game_app.py:35-45 | the same initial settings as the app |
| `BeatPauseTesting.MainWindow.OnSetStartDelay` | pyqt_feature_testing/multimedia/pyqt5_beat_the_pause_game_app.py:124-133 | any number given, picked or typed, becomes the delay; a cancel changes nothing; text `float()` cannot read raises ValueError, iff the answer is not a number, and changes nothing |
| `BeatPauseTesting.MainWindow.OnSetTimeout` | pyqt_feature_testing/multimedia/pyqt5_beat_the_pause_game_app.py:135-144 | any number given, picked or typed, becomes the timeout; a cancel changes nothing; text `float()` cannot read raises ValueError, iff the answer is not a number, and changes nothing |
| `BeatPauseTesting.MainWindow.OnSetUpdateFrequency` | pyqt_feature_testing/multimedia/pyqt5_beat_the_pause_game_app.py:146-155 | any number given, picked or typed, becomes the frequency; a cancel changes nothing; text `float()` cannot read raises ValueError, iff the answer is not a number, and changes nothing |
| `BeatPauseTesting.MainWindow.OnSetImageSimilarity` | pyqt_feature_testing/multimedia/pyqt5_beat_the_pause_game_app.py:157-166 | any number given, picked or typed, becomes the percentage; a cancel changes nothing; text `float()` cannot read raises ValueError, iff the answer is not a number, and changes nothing |
| `BeatPauseTesting.MainWindow.CalculateRmseThreshold` | pyqt_feature_testing/multimedia/pyqt5_beat_the_pause_game_app.py:168-170 | raises ValueError iff p > 100, keeping the old threshold; otherwise the squared threshold becomes (100 − p)/100 · 2^48 |
| `BeatPauseTesting.MainWindow.SetSaveLocation` | pyqt_feature_testing/multimedia/pyqt5_beat_the_pause_game_app.py:198-204 | a writable choice becomes the directory, otherwise the current directory |
| `BeatPauseTesting.MainWindow.GrabScreen` | pyqt_feature_testing/multimedia/pyqt5_beat_the_pause_game_app.py:192-196 | appends exactly one frame |
| `BeatPauseTesting.MainWindow.CompareScreenshots` | pyqt_feature_testing/multimedia/pyqt5_beat_the_pause_game_app.py:206-255 | raises iff it compares and either p > 100 (before any pair, changing nothing) or a frame before the last has zero size (ZeroDivisionError, keeping the earlier pairs' saves); otherwise saves what the comparison run saves |
| `BeatPauseTesting.MainWindow.ComparePairs` | pyqt_feature_testing/multimedia/pyqt5_beat_the_pause_game_app.py:216-248 | the unguarded comparison loop appends the run's saves and reports an abort |
| `BeatPauseTesting.MainWindow.GrabUntilTimeout` | pyqt_feature_testing/multimedia/pyqt5_beat_the_pause_game_app.py:173-188 | the list is reset, then receives two frames per iteration, so it has even length; a negative frequency raises at the first sleep, after one frame |
| `BeatPauseTesting.MainWindow.BackgroundGrabProcess` | pyqt_feature_testing/multimedia/pyqt5_beat_the_pause_game_app.py:172-190 | with a valid sleep length a positive timeout always gives a list the comparison accepts, and the saves follow the run; an exception in the loop or the threshold saves nothing |
| `BeatPauseTesting.MainWindow.OnScreenGrabButtonClicked` | pyqt_feature_testing/multimedia/pyqt5_beat_the_pause_game_app.py:100-119 | "No" changes nothing; "Yes" runs the background process, with its exceptions |
| `BeatPauseGame.MainWindow.constructor` | pyqt_feature_testing/multimedia/pyqt5_beat_the_pause_game.py:35-45 | the squared threshold is fixed once at 0.2·2^48, and there is no save directory yet |
| `BeatPauseGame.MainWindow.GetSaveLocation` | pyqt_feature_testing/multimedia/pyqt5_beat_the_pause_game.py:129-135 | a writable choice becomes the directory, otherwise the current directory |
| `BeatPauseGame.MainWindow.GrabScreen` | pyqt_feature_testing/multimedia/pyqt5_beat_the_pause_game.py:123-127 | appends exactly one frame |
| `BeatPauseGame.MainWindow.CompareScreenshots` | pyqt_feature_testing/multimedia/pyqt5_beat_the_pause_game.py:137-183 | saves what the comparison run saves under the fixed threshold; raises iff it compares and a frame before the last has zero size; the pairs before that frame keep their saves, and a zero-size first frame saves nothing |
| `BeatPauseGame.MainWindow.GrabUntilTimeout` | pyqt_feature_testing/multimedia/pyqt5_beat_the_pause_game.py:104-119 | the list is reset, then receives two frames per iteration |
| `BeatPauseGame.MainWindow.BackgroundGrabProcess` | pyqt_feature_testing/multimedia/pyqt5_beat_the_pause_game.py:103-121 | a positive timeout gives a comparable list; the saves follow the run |
| `BeatPauseGame.MainWindow.OnScreenGrabButtonClicked` | pyqt_feature_testing/multimedia/pyqt5_beat_the_pause_game.py:84-101 | "Yes" sets the save location and then runs the background process; "No" changes nothing |
| `BuildCommon.Run` | utils/build_app.py:37-47 | a zero exit status continues; any other status ends the script with it; an OSError ends it with 1 |
| `BuildCommon.RunNext` | utils/build_app.py:169-177 | runs one more command after the earlier ones have all succeeded |
| `BuildCommon.RunPlanned` | utils/build_app.py:169-202 | runs the next command of a plan, keeping what ran a prefix of the plan |
| `BuildCommon.Is32` | utils/build_app.py:110-118 | Visual Studio 15 is 32-bit unless VSCMD_ARG_TGT_ARCH is x64, 14 is 32-bit unless Platform is X64, and anything else is 64-bit |
| `BuildCommon.LinuxTarget` | utils/build_app.py:123-126 | a Linux target is `linux-` followed by eight times the pointer size |
| `BuildCommon.ChooseTarget` | utils/build_app.py:107-129 | a given target is kept; otherwise win32, darwin or linux* pick the default, and any other platform exits with 2 |
| `BuildCommon.MakeTool` | utils/build_app.py:184 | `nmake` iff the platform is win32, else `make` |
| `BuildCommon.SourceDirFlags` | utils/build_app.py:157-159 | two arguments per source directory |
| `BuildCommon.SourceDirFlagsAt` | utils/build_app.py:157-159 | each directory appears as `--source-dir d`, in order |
| `BuildCommon.FlaggedDirsRoundTrip` | utils/build_app.py:157-159 | the directories can be read back from those flags |
| `BuildCommon.SysrootCommandShape` | utils/build_app.py:154-167 | `pyqtdeploy-sysroot --target T --sysroot sysroot-T`, then the directories, then `--quiet`/`--verbose` iff set, then `sysroot.json` |
| `BuildCommon.SysrootArgs` | utils/build_app.py:154-167 | the appends build exactly that command |
| `BuildCommon.SourceDirListOrder` | utils/build_app.py:137-143 | the Qt directory comes first when given, then the given directories in order or `.`, all made absolute |
| `BuildCommon.SourceDirs` | utils/build_app.py:137-143 | the insert and the absolute-path map build exactly that list |
| `BuildCommon.EnvGet` | utils/build_app.py:113-115 | `os.environ.get(key)`: the value when set, otherwise none |
| `BuildCommon.VsMajor` | utils/build_app.py:110 | the text before the first '.' of `VisualStudioVersion`, `0` when unset |
| `BuildCommon.WinTarget` | utils/build_app.py:120 | `win-32` or `win-64` by word size |
| `BuildCommon.Supported` | utils/build_app.py:107-129 | the platforms with a default target: win32, darwin and any linux |
| `BuildCommon.Truthy` | utils/build_app.py:132 | an option given with a non-empty value |
| `BuildCommon.RunsMake` | utils/build_app.py:180-181 | make runs for every target except iOS |
| `BuildCommon.Verbosity` | utils/build_app.py:161-165 | `--quiet` then `--verbose`, each only when set |
| `BuildCommon.SysrootCommand` | utils/build_app.py:154-167 | the sysroot command; `SysrootCommandShape` states its parts and `SysrootArgs` builds it |
| `BuildCommon.DefaultDirs` | utils/build_app.py:137-138 | `['.']` when no source directory was given |
| `BuildCommon.SourceDirList` | utils/build_app.py:136-143 | the Qt directory first when given, then the given directories or `.`, each made absolute; `SourceDirListOrder` states it |
| `BuildApp.ReadAppInfo` | utils/build_app.py:56-76 | a missing `.pdy`, entry point or package directory exits with 2, a reader failure with 1, and an empty name becomes `MyApp` |
| `BuildApp.Prepare` | utils/build_app.py:56-143 | after the `.pdy` checks, the target choice, then a mobile target without `--installed-qt-dir` exits with 2 |
| `BuildApp.AppPlanSteps` | utils/build_app.py:149-202 | the sysroot command unless `--no-sysroot`, the build command on the `.pdy`, qmake, make except on iOS, then the Android steps for the Qt version |
| `BuildApp.AppPlanHead` | utils/build_app.py:149-177 | the plan begins with the optional sysroot command, the build command and qmake |
| `BuildApp.AppOutput` | utils/build_app.py:208-248 | the Android file and directory depend on the Qt version, and the released name is `<app>.apk`; the old-Qt directory is joined part by part, so an absolute entry point restarts it; the iOS project and desktop executable are named after the entry point |
| `BuildApp.AppOutputQtFlag` | utils/build_app.py:208-248 | the Qt version matters only for Android |
| `BuildApp.BuildAppScript` | utils/build_app.py:56-248 | an early exit runs nothing; the release directory exists iff the `.pdy` fields were read; otherwise a prefix of the plan runs, stopping at the first failure, and a full run names the output and releases it as `Release` states |
| `BuildApp.RunAppPlan` | utils/build_app.py:149-248 | runs the plan in order up to the first failure |
| `BuildApp.RunAppHead` | utils/build_app.py:154-177 | runs the sysroot, build and qmake commands in order |
| `BuildApp.RunMakeSteps` | utils/build_app.py:180-202 | runs make and the Android steps, learning the Qt version from the settings file |
| `BuildApp.RunAndroidSteps` | utils/build_app.py:188-202 | runs the Android steps in order |
| `BuildApp.PdyPath` | utils/build_app.py:56 | the `.pdy` file beside the script |
| `BuildApp.HostBinDir` | utils/build_app.py:151 | the sysroot's `host/bin` directory under the script directory |
| `BuildApp.SettingsFile` | utils/build_app.py:190 | the deployment-settings file whose presence means Qt 5.14 or later |
| `BuildApp.AndroidSteps` | utils/build_app.py:188-202 | `make apk --debug` for newer Qt; otherwise make install into the entry point directory, then androiddeployqt from the host tools |
| `BuildApp.MakeSteps` | utils/build_app.py:179-202 | nothing for iOS; make, then the Android steps for an Android target |
| `BuildApp.BuildCommand` | utils/build_app.py:172-173 | the `pyqtdeploy-build` command for the target, its sysroot and build directory and the `.pdy` |
| `BuildApp.AppPlan` | utils/build_app.py:153-202 | every command in order: the sysroot unless `--no-sysroot`, build, qmake, then the make steps; `AppPlanSteps` and `AppPlanHead` state it |
| `BuildApp.ReleaseDir` | utils/build_app.py:79-80 | `os.path.join(<package dir>, "releases", <time stamp>)` |
| `BuildApp.BuiltPath` | utils/build_app.py:218-248 | the path handed to `shutil.copy`: the output directory joined with the output file |
| `BuildApp.CopyInto` | utils/build_app.py:218-248 | `shutil.copy` into a directory: the copy keeps the source's last component and lands directly inside that directory |
| `BuildApp.Release` | utils/build_app.py:216-248 | as written: a built output that is a directory exits with 1 (IsADirectoryError); otherwise the release is the intended one |
| `BuildApp.ReleaseCorrected` | utils/build_app.py:216-248 | the intended release: the copy lands in the release directory under the source's last component, and a source ending in '/' exits with 1; an old-Qt Android copy is then renamed to `<name>.apk`, which succeeds iff the rename source exists and the target's directory exists |
| `BuildApp.ReleasePlainNames` | utils/build_app.py:216-248 | with no '/' in the file or released name, the release is `join(release dir, released name)` whatever the file system holds |
| `BuildApp.ReleaseKeepsBaseName` | utils/build_app.py:238-248 | a copy that is not renamed is `join(release dir, basename(file))`, so `a/b.py` is released as `b.py` |
| `BuildApp.IosReleaseFails` | utils/build_app.py:229-235 | an iOS build's `<entrypoint>.xcodeproj` directory makes the release step exit with 1, where the intended release places it in the release directory under its own name |
| `PyStrings.BaseNameJoinAny` | utils/build_app.py:218-248 | `basename(join(a, b))` is `basename(b)` for every `a` and `b` |
| `PyStrings.BaseNameNonEmpty` | utils/build_app.py:218-248 | a path not ending in '/' has a non-empty base name |
| `BuildAppDeploy.Prepare` | pyqtdeploy-app/build-app.py:71-107 | the target choice, then a mobile target without `--installed-qt-dir` exits with 2, then the source directories |
| `BuildAppDeploy.DeployPlanSteps` | pyqtdeploy-app/build-app.py:112-157 | the optional sysroot command, the build of `example-pyqt5-app.pdy` into `build-T`, qmake, make except on iOS, and on Android make install then androiddeployqt |
| `BuildAppDeploy.DeployOutput` | pyqtdeploy-app/build-app.py:160-175 | the Android apk directory, the iOS project, or the desktop executable directory |
| `BuildAppDeploy.BuildAppDeployScript` | pyqtdeploy-app/build-app.py:48-175 | an early exit runs nothing; otherwise a prefix of the plan runs, stopping at the first failure |
| `BuildAppDeploy.RunDeployHead` | pyqtdeploy-app/build-app.py:117-142 | runs the sysroot, build and qmake commands in order |
| `BuildAppDeploy.RunDeployMakeSteps` | pyqtdeploy-app/build-app.py:145-157 | runs make and the Android steps in order |
| `BuildAppDeploy.DeployBuildCommand` | pyqtdeploy-app/build-app.py:137-138 | the `pyqtdeploy-build` command for the fixed example project |
| `BuildAppDeploy.DeployMakeSteps` | pyqtdeploy-app/build-app.py:144-157 | nothing for iOS; make, then for Android make install and androiddeployqt |
| `BuildAppDeploy.DeployPlan` | pyqtdeploy-app/build-app.py:116-157 | every command in order: optional sysroot, build, qmake, then the make steps; `DeployPlanSteps` states it |
| `BuildDemo.DemoIs32` | utils/build-demo.py:89-102 | with no Visual Studio the host platform decides, 14 uses Platform, and any other version uses VSCMD_ARG_TGT_ARCH |
| `BuildDemo.NoVisualStudio` | utils/build-demo.py:91-98 | an unset VisualStudioVersion reads as major `0` |
| `BuildDemo.Prepare` | utils/build-demo.py:81-123 | `--qmake` is required for a mobile target and refused for any other, both with exit 2 |
| `BuildDemo.DemoSysrootShape` | utils/build-demo.py:129-145 | `pyqtdeploy-sysroot --target T`, `--jobs N` iff N > 1, `--qmake q` iff given, the verbosity flags, then `sysroot.toml` |
| `BuildDemo.VerbosityFlags` | utils/build-demo.py:139-143 | `--quiet` iff quiet and `--verbose` iff verbose |
| `BuildDemo.DemoBuildShape` | utils/build-demo.py:150-166 | `pyqtdeploy-build --target T --build-dir build-T`, `--qmake q` iff given, the verbosity flags, then `pyqt-demo.pdt` |
| `BuildDemo.DemoSysrootArgs` | utils/build-demo.py:129-145 | the appends build exactly the sysroot command |
| `BuildDemo.DemoBuildArgs` | utils/build-demo.py:150-166 | the appends build exactly the build command |
| `BuildDemo.QmakePath` | utils/build-demo.py:171-178 | the sysroot's qmake when that file exists, otherwise the `--qmake` value |
| `BuildDemo.DeployqtBesideQmake` | utils/build-demo.py:171-201 | androiddeployqt is looked up in the sysroot's `Qt/bin` |
| `BuildDemo.DemoOutput` | utils/build-demo.py:192-223 | the Android apk depends on the settings file; iOS and desktop outputs are named `pyqt-demo` |
| `BuildDemo.DemoOutputQtFlag` | utils/build-demo.py:192-223 | the settings file matters only for Android |
| `BuildDemo.BuildDemoScript` | utils/build-demo.py:64-223 | an early exit runs nothing; otherwise a prefix of the plan runs, and a missing qmake ends with 1 |
| `BuildDemo.RunDemoPlan` | utils/build-demo.py:129-207 | runs the plan in order up to the first failure |
| `BuildDemo.RunDemoMakeSteps` | utils/build-demo.py:184-207 | runs make and the Android steps for the settings file in order |
| `BuildDemo.QmakeArg` | utils/build-demo.py:82 | `--qmake` made absolute when given and non-empty |
| `BuildDemo.QmakeMismatch` | utils/build-demo.py:115-123 | `--qmake` is missing for a mobile target or given for another |
| `BuildDemo.JobFlags` | utils/build-demo.py:131-133 | `--jobs N` only for more than one job |
| `BuildDemo.DemoSysrootCommand` | utils/build-demo.py:128-147 | the sysroot command; `DemoSysrootShape` states its parts |
| `BuildDemo.DemoBuildCommand` | utils/build-demo.py:149-166 | the build command; `DemoBuildShape` states its parts |
| `BuildDemo.SysrootQmake` | utils/build-demo.py:171-175 | the qmake the sysroot leaves, with `.exe` on Windows |
| `BuildDemo.DemoMakeSteps` | utils/build-demo.py:183-207 | nothing for iOS; make, then `make apk` for newer Qt or make install and androiddeployqt beside qmake |
| `BuildDemo.DemoPlan` | utils/build-demo.py:128-207 | sysroot, build, then qmake and the make steps when there is a qmake to run |

## Left out

- Qt GUI code is not modelled: widgets, status-bar text, message boxes and
  the layout of the dialogs. Each dialog is reduced to its answer: a
  confirmation, the number an item list hands back (an offered item or
  typed text, since the lists are editable) or the fact that `float()`
  cannot read it, or a chosen directory with its writability. `round_up`
  only formats status text.
- `float()` also reads `nan` and `inf`. The settings are exact reals, so
  these non-finite answers are not modelled.
- `raised` says that a call ended with an exception. What happens next is
  not modelled: PyQt's handling of an exception escaping a slot, and the
  end of the timer thread when the grab process raises.
- The grab loop's `threading.Timer` start, `time.sleep` and `time.time` are
  not modelled. The elapsed time of each iteration is an input sequence,
  and the start delay only postpones the run. Screen capture is a given
  sequence of frames, and `QImage.save` is a record of the save.
- Floating-point rounding and `math.sqrt` are not modelled. The threshold
  is kept as its exact square over the reals, and a pair is saved iff
  mse ≥ threshold². At the exact float boundary the source may decide
  differently.
- Pixel values are integers. `QImage.pixel` returns 32-bit ARGB words,
  and their exact values are irrelevant to the comparison.
- File reading in the parser constructors and ElementTree parsing are not
  modelled. The parsers receive the lines or the element tree.
- `find_spec` may raise for any name (a missing or non-package parent, a
  loaded module without a spec such as `__main__`, or the parent's own
  import failing). The oracle may answer `Raises` for any name, and which
  exception it is is not modelled.
- Whether a logger is passed cannot change the result of
  `validate_pkg_format`. The model has no logger parameter.
- `subprocess`, `os.path.exists`, `isfile`, `abspath`, `realpath`,
  `os.access`, `os.walk`, `packages_distributions`, `list_imports.get` and
  `stdlib_list` are not modelled. They are parameters or oracles, and the
  current directory is folded into `abspath`.
- `chdir` and `os.makedirs` are not modelled. The release directory is
  `<package>/releases/<time stamp>` and is taken to exist after
  `os.makedirs`. The other two build scripts' output is modelled as the
  file and directory they report.
- The `--pdt` option of utils/build-demo.py is parsed but never used, so the
  model leaves it out.
- The copy of `example-pyqt5-app.py` into `data/` in
  pyqtdeploy-app/build-app.py is not modelled.
- All `print` output is not modelled.
- The `pip show` bytes are taken as already decoded to text, so UTF-8
  decoding is not modelled.
- BuildDemo.BuildDemoScript: `run([None])` raises TypeError when neither
  the sysroot qmake nor `--qmake` exists. This is modelled as exit 1 after
  the plan, not as the exact traceback.
- BuildApp.Release: the file system is given as the host's `pathExists`
  and `isDir` after the build. A missing output, an unwritable release
  directory, and `os.rename` failures other than a missing source or
  target directory are not modelled.
- BuildApp.HostBinDir: `abspath(join(sysroot-T, host, bin))` is modelled
  as a plain join under the script directory. This is exact for a target
  without `..` or `/`.
- BeatPauseGame.MainWindow.CompareScreenshots requires a save directory.
  Its only caller, the grab button, always sets one first.
- BeatPauseApp.MainWindow.GrabUntilTimeout: the elapsed-time and frame
  sequences must be long enough to use up the timeout (`InputsCover`); with
  a negative frequency only the first grab is needed. The source loops
  until the time is used up, which a finite input must cover. The same
  applies to `GrabUntilTimeout` in the other two windows.
- BeatPauseTesting.MainWindow.SetSaveLocation: a cancelled directory
  dialog returns "", which is never writable. The model takes this as a
  precondition on the oracle answers. `BeatPauseGame.MainWindow.GetSaveLocation`
  does the same.

- BuildDemo.SysrootQmake: `abspath('sysroot-' + target)` is modelled as a
  plain join under the script directory. This is exact for a target
  without `.`, `..` or `/` components.
- BeatPauseTesting.MainWindow.GrabScreen: the grab cannot fail in the model.
  In the source a failing `grabWindow` raises inside the timer thread, which
  ends the grab loop without a comparison.
- BeatPauseGame.MainWindow.GrabScreen: the same; a failing grab is not
  modelled.
- DepCollector.KeptFilesPublic: states one direction only, that every kept
  file is public, `.py` and not excluded. `DepCollector.KeptFilesByFileName`
  and `DepCollector.KeptFilesAsWritten` state exactly which files are kept.
- DepCollector.WalkPublic: states one direction only. The exact set is
  stated by `DepCollector.WalkByFileName` with `DepCollector.WalkAsWritten`.
- DepCollector.PyFilesOfDirectory: states one direction only. The exact list
  is stated by `DepCollector.PyFilesAsWritten` with
  `DepCollector.WalkAsWritten`.
- PyStrings.LStrip: its own contract states only that no white space leads
  the result. `PyStrings.LStripSuffix` states the exact result.

## Findings

| source | as written | input that shows it | evidently intended | confidence | as-written member | corrected member |
|---|---|---|---|---|---|---|
| utils/python/py_package_dependency_collector.py:287-297 | the private-file test `^_[^_].*$` is applied to the joined path, which starts with '/' after `realpath`, so it never rejects anything | a package directory `/pkg` holding `_private.py`: the file is collected | files whose own name starts with a single '_' are skipped, as the comment at lines 289-291 says and as sub-directories are at line 285 | high, not executed | `DepCollector.PrivateFileCollectedAsWritten` | `DepCollector.WalkPublic` |
| utils/build_app.py:229-235 | the iOS branch hands `<entrypoint>.xcodeproj` to `shutil.copy`, which opens its source as a file | an `ios-64` build that succeeds: the Xcode project is a directory, so the copy raises IsADirectoryError and the script exits with 1 | the project is copied into the release directory like the other outputs (`shutil.copytree`) | medium, not executed | `BuildApp.IosReleaseFails` | `BuildApp.ReleaseCorrected` |
