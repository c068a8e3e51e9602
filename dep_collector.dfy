/** utils/python/py_package_dependency_collector.py: `PyDepCollector`, which
    collects the modules a Python package imports, either from an installed
    pip package name or from a path. What the collector asks of the outside
    world (`pip show`, `packages_distributions()`, `realpath`, what lies at a
    path, `list_imports.get`, `stdlib_list`) is given as an environment. */
module DepCollector {
  import opened Wrappers
  import opened PyStrings
  import opened StringOrder

  // ---------------------------------------------------------------------
  // The outside world

  /** One component of a path, as `os.walk` lists it: never holds a '/'. */
  type Component = s: string | '/' !in s

  /** A directory as `os.walk` sees it: its file names and its
      sub-directories, in listing order. */
  datatype Dir = Dir(files: seq<Component>, subdirs: seq<Sub>)
  datatype Sub = Sub(name: Component, dir: Dir)

  /** What lies at a real path. */
  datatype Entry = IsDir(dir: Dir) | IsFile | Absent

  datatype Env = Env(
    /** The output of `pip show <name>`, None when pip fails. */
    pipShow: string -> Option<string>,
    /** The items of `packages_distributions()`, in dictionary order. */
    distributions: seq<(string, seq<string>)>,
    realpath: string -> string,
    lookup: string -> Entry,
    /** `list_imports.get(path)`, None when it raises. */
    imports: string -> Option<seq<string>>)

  // ---------------------------------------------------------------------
  // `pip show` output

  /** The text before the first ':' of a line. */
  function Key(line: string): string
    requires ':' in line
  {
    Split(line, ':')[0]
  }

  /** The key is the text up to the first ':', which it does not hold. */
  lemma KeyPrefix(line: string)
    requires ':' in line
    ensures Key(line) == line[..FirstIndex(line, ':')] && ':' !in Key(line)
  {
    SplitHead(line, ':');
  }

  /** The text between the first and the second ':', leading white space stripped. */
  function Value(line: string): string
    requires ':' in line
  {
    LStrip(SecondField(line, ':'))
  }

  /** The dictionary built from the lines of `pip show`: lines with a ':'
      only, a later line overwriting an earlier one with the same key. */
  function PipShowDict(lines: seq<string>): map<string, string>
  {
    if lines == [] then map[]
    else
      var d := PipShowDict(lines[..|lines| - 1]);
      var line := lines[|lines| - 1];
      if ':' in line then d[Key(line) := Value(line)] else d
  }

  /** Line `i` of `lines` holds a ':' and has key `k`. */
  predicate KeyLineAt(lines: seq<string>, i: int, k: string)
  {
    0 <= i < |lines| && ':' in lines[i] && Key(lines[i]) == k
  }

  /** Some line of `lines` has key `k`. */
  predicate HasKeyLine(lines: seq<string>, k: string)
  {
    exists i :: 0 <= i < |lines| && KeyLineAt(lines, i, k)
  }

  /** The last line of `lines` with key `k` has value `v`. */
  predicate LastKeyLine(lines: seq<string>, k: string, v: string)
  {
    exists i :: 0 <= i < |lines| && KeyLineAt(lines, i, k) && Value(lines[i]) == v &&
      forall j :: i < j < |lines| ==> !KeyLineAt(lines, j, k)
  }

  /** The keys are exactly the keys of the lines holding a ':'. */
  lemma {:induction false} PipShowDictKeys(lines: seq<string>)
    ensures forall k :: k in PipShowDict(lines) <==> HasKeyLine(lines, k)
  {
    if lines != [] {
      var n := |lines|;
      var init := lines[..n - 1];
      PipShowDictKeys(init);
      forall k ensures k in PipShowDict(lines) <==> HasKeyLine(lines, k) {
        if ':' in lines[n - 1] && Key(lines[n - 1]) == k {
          assert KeyLineAt(lines, n - 1, k);
        }
        if HasKeyLine(init, k) {
          var i :| 0 <= i < |init| && KeyLineAt(init, i, k);
          assert lines[i] == init[i];
          assert KeyLineAt(lines, i, k);
        }
        if HasKeyLine(lines, k) {
          var i :| 0 <= i < |lines| && KeyLineAt(lines, i, k);
          if i < n - 1 {
            assert init[i] == lines[i];
            assert KeyLineAt(init, i, k);
          }
        }
      }
    }
  }

  /** Each key is mapped to the value of the last line with that key. */
  lemma {:induction false} PipShowDictValues(lines: seq<string>)
    ensures forall k :: k in PipShowDict(lines) ==> LastKeyLine(lines, k, PipShowDict(lines)[k])
  {
    if lines != [] {
      var n := |lines|;
      var init := lines[..n - 1];
      var line := lines[n - 1];
      assert lines == init + [line];
      PipShowDictValues(init);
      var d := PipShowDict(lines);
      forall k | k in d ensures LastKeyLine(lines, k, d[k]) {
        if ':' in line && Key(line) == k {
          LastKeyLineNew(init, line);
        } else {
          assert k in PipShowDict(init) && d[k] == PipShowDict(init)[k];
          LastKeyLineExtend(init, line, k, d[k]);
        }
      }
    }
  }

  /** A line with a key is the last line with that key. */
  lemma LastKeyLineNew(init: seq<string>, line: string)
    requires ':' in line
    ensures LastKeyLine(init + [line], Key(line), Value(line))
  {
    assert (init + [line])[|init|] == line;
  }

  /** A line without key `k` appended after the last line with key `k`
      leaves that line the last. */
  lemma LastKeyLineExtend(init: seq<string>, line: string, k: string, v: string)
    requires LastKeyLine(init, k, v)
    requires !(':' in line && Key(line) == k)
    ensures LastKeyLine(init + [line], k, v)
  {
    var lines := init + [line];
    var i :| 0 <= i < |init| && KeyLineAt(init, i, k) && Value(init[i]) == v &&
      forall j :: i < j < |init| ==> !KeyLineAt(init, j, k);
    assert lines[i] == init[i];
    assert KeyLineAt(lines, i, k);
    forall j | i < j < |lines| ensures !KeyLineAt(lines, j, k) {
      if j < |init| {
        assert lines[j] == init[j];
        assert !KeyLineAt(init, j, k);
      }
    }
  }

  // ---------------------------------------------------------------------
  // Site-package names and installation paths

  /** A name the comprehension of lines 152-157 selects: its first
      distribution is the PyPI name and it is not single-underscore private. */
  predicate Selected(dists: seq<(string, seq<string>)>, pypi: string, k: string)
  {
    exists i :: 0 <= i < |dists| && dists[i].0 == k && dists[i].1 != [] && dists[i].1[0] == pypi &&
      !SingleUnderscorePrivate(k)
  }

  /** The site-package names of a PyPI package, in dictionary order; None
      when an empty distribution list makes `value[0]` raise IndexError. */
  function SiteNames(dists: seq<(string, seq<string>)>, pypi: string): (r: Option<seq<string>>)
    ensures r.None? <==> exists i :: 0 <= i < |dists| && dists[i].1 == []
    ensures r.Some? ==> forall k :: k in r.value <==> Selected(dists, pypi, k)
  {
    if dists == [] then Some([])
    else
      var n := |dists|;
      var init := dists[..n - 1];
      var (k, v) := dists[n - 1];
      assert forall i :: 0 <= i < n - 1 ==> init[i] == dists[i];
      match SiteNames(init, pypi)
      case None => None
      case Some(names) =>
        if v == [] then None
        else
          var r := if v[0] == pypi && !SingleUnderscorePrivate(k) then names + [k] else names;
          assert forall z :: z in r <==> Selected(dists, pypi, z) by {
            forall z ensures z in r <==> Selected(dists, pypi, z) {
              if z in names {
                var i :| 0 <= i < n - 1 && init[i].0 == z && init[i].1 != [] && init[i].1[0] == pypi &&
                  !SingleUnderscorePrivate(z);
                assert dists[i] == init[i];
              }
              if Selected(dists, pypi, z) {
                var i :| 0 <= i < n && dists[i].0 == z && dists[i].1 != [] && dists[i].1[0] == pypi &&
                  !SingleUnderscorePrivate(z);
                if i < n - 1 {
                  assert Selected(init, pypi, z);
                }
              }
            }
          }
          Some(r)
  }

  /** `[join(location, name) for name in names]`. */
  function InstallPaths(location: string, names: seq<string>): (paths: seq<string>)
    ensures |paths| == |names|
    ensures forall i :: 0 <= i < |names| ==> paths[i] == PathJoin(location, names[i])
  {
    seq(|names|, i requires 0 <= i < |names| => PathJoin(location, names[i]))
  }

  /** The paths are the given names, all of them, joined under one location. */
  ghost predicate InstalledUnder(paths: seq<string>, names: seq<string>)
  {
    exists location :: paths == InstallPaths(location, names)
  }

  /** What the `try` block of `collect_deps_from_pkg_name` achieves before it
      ends or raises: the site names it appends, the installation paths it
      builds and the required packages it appends. */
  datatype PipOutcome = PipOutcome(siteAdded: seq<string>, paths: seq<string>, required: seq<string>)

  /** The `try` block of lines 104-200, given the `pip show` output, the
      distributions and the site names collected by earlier calls. A failing
      pip, a missing "Name", an empty distribution list, a missing "Location"
      (looked up only when there is a name to join) or a missing "Requires"
      stops it where the source raises. */
  function PipStage(show: Option<string>, dists: seq<(string, seq<string>)>, site0: seq<string>): PipOutcome
  {
    if show.None? then PipOutcome([], [], [])
    else
      var d := PipShowDict(Split(show.value, '\n'));
      if "Name" !in d then PipOutcome([], [], [])
      else
        match SiteNames(dists, d["Name"])
        case None => PipOutcome([], [], [])
        case Some(names) =>
          var site := site0 + names;
          if site != [] && "Location" !in d then PipOutcome(names, [], [])
          else
            var paths := if site == [] then [] else InstallPaths(d["Location"], site);
            if "Requires" !in d then PipOutcome(names, paths, [])
            else PipOutcome(names, paths, Split(d["Requires"], ','))
  }

  /** The names appended are selected ones; the paths, when built, cover the
      whole accumulated name list and not only the new names; the required
      packages, when appended, are the "Requires" value cut at every ',' with
      nothing trimmed, so joining them gives that value back. */
  lemma PipStageSpec(show: Option<string>, dists: seq<(string, seq<string>)>, site0: seq<string>)
    ensures var r := PipStage(show, dists, site0);
      && (forall k :: k in r.siteAdded ==> Selected(dists, PipShowDict(Split(show.value, '\n'))["Name"], k))
      && (r.paths == [] || InstalledUnder(r.paths, site0 + r.siteAdded))
      && (r.required != [] ==>
            var d := PipShowDict(Split(show.value, '\n'));
            "Requires" in d && Join(r.required, ',') == d["Requires"])
  {
    var r := PipStage(show, dists, site0);
    if show.Some? {
      var d := PipShowDict(Split(show.value, '\n'));
      if "Name" in d && SiteNames(dists, d["Name"]).Some? {
        var site := site0 + r.siteAdded;
        if r.paths != [] {
          assert r.paths == InstallPaths(d["Location"], site);
        }
        if "Requires" in d {
          JoinSplit(d["Requires"], ',');
        }
      }
    }
  }

  // ---------------------------------------------------------------------
  // The walk

  /** The comprehension of lines 281-286: the sub-directories the walk keeps,
      in order. */
  function Pruned(subs: seq<Sub>, dirExclusions: seq<string>): seq<Sub>
  {
    if subs == [] then []
    else
      var init := Pruned(subs[..|subs| - 1], dirExclusions);
      var last := subs[|subs| - 1];
      if last.name !in dirExclusions && !SingleUnderscorePrivate(last.name) then init + [last] else init
  }

  /** The walk descends into exactly the sub-directories whose names are
      neither excluded nor single-underscore private. */
  lemma {:induction false} PrunedMembers(subs: seq<Sub>, dirExclusions: seq<string>)
    ensures forall s :: s in Pruned(subs, dirExclusions) <==>
      s in subs && s.name !in dirExclusions && !SingleUnderscorePrivate(s.name)
  {
    if subs != [] {
      PrunedMembers(subs[..|subs| - 1], dirExclusions);
      assert subs == subs[..|subs| - 1] + [subs[|subs| - 1]];
    }
  }

  /** Each kept sub-directory is one of the directory's own. */
  lemma PrunedSub(subs: seq<Sub>, dirExclusions: seq<string>, k: nat)
    requires k < |Pruned(subs, dirExclusions)|
    ensures Pruned(subs, dirExclusions)[k] in subs
  {
    PrunedMembers(subs, dirExclusions);
  }

  /** A kept sub-directory is smaller than the directory it is kept from. */
  lemma PrunedSmaller(d: Dir, dirExclusions: seq<string>, k: nat)
    requires k < |Pruned(d.subdirs, dirExclusions)|
    ensures Pruned(d.subdirs, dirExclusions)[k].dir < d
  {
    PrunedSub(d.subdirs, dirExclusions, k);
  }

  /** The file test of lines 294-296 as written: the private-name pattern is
      searched in the joined path, not in the file name. */
  predicate FileKeptAsWritten(dirPath: string, fileName: string, fileExclusions: seq<string>)
  {
    var filePath := PathJoin(dirPath, fileName);
    !SingleUnderscorePrivate(filePath) && PythonSuffix(filePath) && fileName !in fileExclusions
  }

  /** The walk starts from a real path, which is absolute, so the joined path
      starts with '/' and the private-name test never excludes anything. */
  lemma AsWrittenIgnoresPrivateNames(dirPath: string, fileName: string, fileExclusions: seq<string>)
    requires StartsWith(dirPath, "/") && '/' !in fileName
    ensures FileKeptAsWritten(dirPath, fileName, fileExclusions) <==>
      PythonSuffix(PathJoin(dirPath, fileName)) && fileName !in fileExclusions
  {
    var filePath := PathJoin(dirPath, fileName);
    assert !StartsWith(fileName, "/") by {
      if |fileName| >= 1 {
        assert fileName[0] in fileName;
      }
    }
    assert filePath[0] == '/';
  }

  /** A file name ending in ".py" keeps that ending once joined to a directory. */
  lemma PythonSuffixJoin(dirPath: string, fileName: string)
    requires !StartsWith(fileName, "/") && EndsWith(fileName, ".py")
    ensures PythonSuffix(PathJoin(dirPath, fileName))
  {
    var r := PathJoin(dirPath, fileName);
    assert r[|r| - 3..] == r[|r| - |fileName|..][|fileName| - 3..];
  }

  /** `_private.py` in `/pkg` is collected, though lines 290-291 say files
      with a single leading underscore are not. */
  lemma PrivateFileCollectedAsWritten()
    ensures SingleUnderscorePrivate("_private.py")
    ensures FileKeptAsWritten("/pkg", "_private.py", [])
  {
    var name := "_private.py";
    assert name[0] == '_' && name[1] == 'p';
    assert EndsWith(name, ".py");
    assert !StartsWith(name, "/");
    PythonSuffixJoin("/pkg", name);
    AsWrittenIgnoresPrivateNames("/pkg", name, []);
  }

  /** The file test as intended: the private-name pattern is searched in the
      file name. */
  predicate FileKept(dirPath: string, fileName: string, fileExclusions: seq<string>)
  {
    !SingleUnderscorePrivate(fileName) && PythonSuffix(PathJoin(dirPath, fileName)) && fileName !in fileExclusions
  }

  /** Which file test a walk applies: the program's, on the joined path
      (`AsWritten`), or the intended one, on the bare file name (`ByFileName`). */
  datatype FileTest = AsWritten | ByFileName

  predicate Keeps(test: FileTest, dirPath: string, fileName: string, fileExclusions: seq<string>)
  {
    match test
    case AsWritten => FileKeptAsWritten(dirPath, fileName, fileExclusions)
    case ByFileName => FileKept(dirPath, fileName, fileExclusions)
  }

  /** The kept files of one directory, joined to its path, in order. */
  function KeptFiles(test: FileTest, dirPath: string, names: seq<string>, fileExclusions: seq<string>): seq<string>
  {
    if names == [] then []
    else
      var init := KeptFiles(test, dirPath, names[..|names| - 1], fileExclusions);
      var name := names[|names| - 1];
      if Keeps(test, dirPath, name, fileExclusions) then init + [PathJoin(dirPath, name)] else init
  }

  /** What `os.walk(dirPath, topdown=True)` yields, in walk order: each
      directory's path and file names, the directory itself first, then each
      kept sub-directory's entries. */
  function Entries(dirPath: string, d: Dir, dirExclusions: seq<string>): seq<(string, seq<Component>)>
    decreases d, 1
  {
    [(dirPath, d.files)] + EntriesUpTo(dirPath, d, |Pruned(d.subdirs, dirExclusions)|, dirExclusions)
  }

  /** The entries of the walks into the first `k` kept sub-directories of `d`. */
  function EntriesUpTo(dirPath: string, d: Dir, k: nat, dirExclusions: seq<string>): seq<(string, seq<Component>)>
    requires k <= |Pruned(d.subdirs, dirExclusions)|
    decreases d, 0, k
  {
    if k == 0 then []
    else
      var sub := Pruned(d.subdirs, dirExclusions)[k - 1];
      PrunedSmaller(d, dirExclusions, k - 1);
      EntriesUpTo(dirPath, d, k - 1, dirExclusions) + Entries(PathJoin(dirPath, sub.name), sub.dir, dirExclusions)
  }

  /** One more kept sub-directory adds its whole walk at the end. */
  lemma EntriesUpToNext(dirPath: string, d: Dir, j: nat, dirExclusions: seq<string>)
    requires j < |Pruned(d.subdirs, dirExclusions)|
    ensures var sub := Pruned(d.subdirs, dirExclusions)[j];
      && sub.dir < d
      && EntriesUpTo(dirPath, d, j + 1, dirExclusions) ==
           EntriesUpTo(dirPath, d, j, dirExclusions) + Entries(PathJoin(dirPath, sub.name), sub.dir, dirExclusions)
  {
    PrunedSmaller(d, dirExclusions, j);
  }

  /** The files the loop keeps from the entries, joined to their directory
      paths, in walk order. */
  function Collect(test: FileTest, entries: seq<(string, seq<Component>)>, fileExclusions: seq<string>): seq<string>
  {
    if entries == [] then []
    else
      var e := entries[|entries| - 1];
      Collect(test, entries[..|entries| - 1], fileExclusions) + KeptFiles(test, e.0, e.1, fileExclusions)
  }

  /** Collecting distributes over concatenated entries. */
  lemma {:induction false} CollectAppend(test: FileTest, a: seq<(string, seq<Component>)>, b: seq<(string, seq<Component>)>, fileExclusions: seq<string>)
    ensures Collect(test, a + b, fileExclusions) == Collect(test, a, fileExclusions) + Collect(test, b, fileExclusions)
  {
    if b != [] {
      var init := b[..|b| - 1];
      var e := b[|b| - 1];
      var kept := KeptFiles(test, e.0, e.1, fileExclusions);
      CollectAppend(test, a, init, fileExclusions);
      assert (a + b)[..|a + b| - 1] == a + init;
      assert (a + b)[|a + b| - 1] == e;
      assert Collect(test, a + b, fileExclusions) == Collect(test, a + init, fileExclusions) + kept;
      assert Collect(test, b, fileExclusions) == Collect(test, init, fileExclusions) + kept;
      AppendAssoc(Collect(test, a, fileExclusions), Collect(test, init, fileExclusions), kept);
    } else {
      assert a + b == a;
    }
  }

  /** The files the walk of lines 278-297 keeps, in walk order. */
  function Walk(test: FileTest, dirPath: string, d: Dir, dirExclusions: seq<string>, fileExclusions: seq<string>): seq<string>
  {
    Collect(test, Entries(dirPath, d, dirExclusions), fileExclusions)
  }

  /** Every file the walk keeps ends in ".py", and its name neither starts
      with a single underscore nor is excluded. */
  predicate PublicPython(files: seq<string>, fileExclusions: seq<string>)
  {
    forall i :: 0 <= i < |files| ==> PublicPythonFile(files[i], fileExclusions)
  }

  /** One file as `PublicPython` requires it. */
  predicate PublicPythonFile(file: string, fileExclusions: seq<string>)
  {
    PythonSuffix(file) && !SingleUnderscorePrivate(BaseName(file)) && BaseName(file) !in fileExclusions
  }

  lemma {:induction false} KeptFilesPublic(dirPath: string, names: seq<Component>, fileExclusions: seq<string>)
    ensures PublicPython(KeptFiles(ByFileName, dirPath, names, fileExclusions), fileExclusions)
  {
    if names != [] {
      var name := names[|names| - 1];
      KeptFilesPublic(dirPath, names[..|names| - 1], fileExclusions);
      BaseNameJoin(dirPath, name);
    }
  }

  /** With the intended test, every file collected from any entries is public. */
  lemma {:induction false} CollectPublic(entries: seq<(string, seq<Component>)>, fileExclusions: seq<string>)
    ensures PublicPython(Collect(ByFileName, entries, fileExclusions), fileExclusions)
  {
    if entries != [] {
      var e := entries[|entries| - 1];
      CollectPublic(entries[..|entries| - 1], fileExclusions);
      KeptFilesPublic(e.0, e.1, fileExclusions);
      PublicPythonAppend(Collect(ByFileName, entries[..|entries| - 1], fileExclusions),
        KeptFiles(ByFileName, e.0, e.1, fileExclusions), fileExclusions);
    }
  }

  lemma WalkPublic(dirPath: string, d: Dir, dirExclusions: seq<string>, fileExclusions: seq<string>)
    ensures PublicPython(Walk(ByFileName, dirPath, d, dirExclusions, fileExclusions), fileExclusions)
  {
    CollectPublic(Entries(dirPath, d, dirExclusions), fileExclusions);
  }

  lemma PublicPythonAppend(a: seq<string>, b: seq<string>, fileExclusions: seq<string>)
    requires PublicPython(a, fileExclusions) && PublicPython(b, fileExclusions)
    ensures PublicPython(a + b, fileExclusions)
  {
    forall i | 0 <= i < |a + b| ensures PublicPythonFile((a + b)[i], fileExclusions) {
      if i >= |a| { assert (a + b)[i] == b[i - |a|]; }
    }
  }

  /** A component joined under an absolute directory is absolute. */
  lemma JoinAbsolute(dirPath: string, name: Component)
    requires StartsWith(dirPath, "/")
    ensures StartsWith(PathJoin(dirPath, name), "/")
  {
    assert !StartsWith(name, "/") by {
      if |name| >= 1 {
        assert name[0] in name;
      }
    }
    var r := PathJoin(dirPath, name);
    assert r[..|dirPath|] == dirPath;
    assert r[0] == r[..|dirPath|][0];
  }

  /** Under an absolute directory, the as-written test keeps exactly the
      files whose joined path ends in ".py" and whose name is not excluded;
      a leading underscore makes no difference. */
  lemma {:induction false} KeptFilesAsWritten(dirPath: string, names: seq<Component>, fileExclusions: seq<string>)
    requires StartsWith(dirPath, "/")
    ensures forall n :: n in names ==>
      (PathJoin(dirPath, n) in KeptFiles(AsWritten, dirPath, names, fileExclusions) <==>
        PythonSuffix(PathJoin(dirPath, n)) && n !in fileExclusions)
    ensures forall f :: f in KeptFiles(AsWritten, dirPath, names, fileExclusions) ==>
      PythonSuffix(f) && BaseName(f) in names && BaseName(f) !in fileExclusions
  {
    if names != [] {
      var init := names[..|names| - 1];
      var last := names[|names| - 1];
      assert names == init + [last];
      KeptFilesAsWritten(dirPath, init, fileExclusions);
      AsWrittenIgnoresPrivateNames(dirPath, last, fileExclusions);
      BaseNameJoin(dirPath, last);
      forall n | n in names
        ensures PathJoin(dirPath, n) in KeptFiles(AsWritten, dirPath, names, fileExclusions) <==>
          PythonSuffix(PathJoin(dirPath, n)) && n !in fileExclusions
      {
        BaseNameJoin(dirPath, n);
        if n != last {
          assert n in init;
        }
      }
    }
  }

  /** The files whose name does not start with a single underscore, in order. */
  function DropPrivate(files: seq<string>): seq<string>
  {
    if files == [] then []
    else
      var init := DropPrivate(files[..|files| - 1]);
      var last := files[|files| - 1];
      if SingleUnderscorePrivate(BaseName(last)) then init else init + [last]
  }

  /** Dropping keeps exactly the files with a public name. */
  lemma {:induction false} DropPrivateMembers(files: seq<string>)
    ensures forall f :: f in DropPrivate(files) <==> f in files && !SingleUnderscorePrivate(BaseName(f))
  {
    if files != [] {
      DropPrivateMembers(files[..|files| - 1]);
      assert files == files[..|files| - 1] + [files[|files| - 1]];
    }
  }

  /** Dropping distributes over concatenation. */
  lemma {:induction false} DropPrivateAppend(a: seq<string>, b: seq<string>)
    ensures DropPrivate(a + b) == DropPrivate(a) + DropPrivate(b)
  {
    if b != [] {
      var init := b[..|b| - 1];
      var last := b[|b| - 1];
      DropPrivateAppend(a, init);
      assert (a + b)[..|a + b| - 1] == a + init;
      assert (a + b)[|a + b| - 1] == last;
      if SingleUnderscorePrivate(BaseName(last)) {
        assert DropPrivate(a + b) == DropPrivate(a + init);
        assert DropPrivate(b) == DropPrivate(init);
      } else {
        assert DropPrivate(a + b) == DropPrivate(a + init) + [last];
        assert DropPrivate(b) == DropPrivate(init) + [last];
        AppendAssoc(DropPrivate(a), DropPrivate(init), [last]);
      }
    } else {
      assert a + b == a;
    }
  }

  /** Under an absolute directory, the intended test keeps the files the
      as-written test keeps, in the same order, less those whose name starts
      with a single underscore. */
  lemma {:induction false} KeptFilesByFileName(dirPath: string, names: seq<Component>, fileExclusions: seq<string>)
    requires StartsWith(dirPath, "/")
    ensures KeptFiles(ByFileName, dirPath, names, fileExclusions) == DropPrivate(KeptFiles(AsWritten, dirPath, names, fileExclusions))
  {
    if names != [] {
      var last := names[|names| - 1];
      var path := PathJoin(dirPath, last);
      var initA := KeptFiles(AsWritten, dirPath, names[..|names| - 1], fileExclusions);
      KeptFilesByFileName(dirPath, names[..|names| - 1], fileExclusions);
      AsWrittenIgnoresPrivateNames(dirPath, last, fileExclusions);
      BaseNameJoin(dirPath, last);
      if FileKeptAsWritten(dirPath, last, fileExclusions) {
        DropPrivateAppend(initA, [path]);
        assert DropPrivate([path]) == if SingleUnderscorePrivate(last) then [] else [path];
      }
    }
  }

  /** Every entry's directory path starts with '/'. */
  predicate Absolute(entries: seq<(string, seq<Component>)>)
  {
    forall i :: 0 <= i < |entries| ==> StartsWith(entries[i].0, "/")
  }

  lemma AbsoluteAppend(a: seq<(string, seq<Component>)>, b: seq<(string, seq<Component>)>)
    requires Absolute(a) && Absolute(b)
    ensures Absolute(a + b)
  {
    forall i | 0 <= i < |a + b| ensures StartsWith((a + b)[i].0, "/") {
      if i >= |a| { assert (a + b)[i] == b[i - |a|]; }
    }
  }

  /** A walk from an absolute root yields only absolute directory paths. */
  lemma {:induction false} EntriesAbsolute(dirPath: string, d: Dir, dirExclusions: seq<string>)
    requires StartsWith(dirPath, "/")
    ensures Absolute(Entries(dirPath, d, dirExclusions))
    decreases d, 1
  {
    var k := |Pruned(d.subdirs, dirExclusions)|;
    EntriesUpToAbsolute(dirPath, d, k, dirExclusions);
    AbsoluteAppend([(dirPath, d.files)], EntriesUpTo(dirPath, d, k, dirExclusions));
  }

  lemma {:induction false} EntriesUpToAbsolute(dirPath: string, d: Dir, k: nat, dirExclusions: seq<string>)
    requires StartsWith(dirPath, "/")
    requires k <= |Pruned(d.subdirs, dirExclusions)|
    ensures Absolute(EntriesUpTo(dirPath, d, k, dirExclusions))
    decreases d, 0, k
  {
    if k > 0 {
      var sub := Pruned(d.subdirs, dirExclusions)[k - 1];
      var subPath := PathJoin(dirPath, sub.name);
      PrunedSmaller(d, dirExclusions, k - 1);
      EntriesUpToAbsolute(dirPath, d, k - 1, dirExclusions);
      JoinAbsolute(dirPath, sub.name);
      EntriesAbsolute(subPath, sub.dir, dirExclusions);
      AbsoluteAppend(EntriesUpTo(dirPath, d, k - 1, dirExclusions), Entries(subPath, sub.dir, dirExclusions));
    }
  }

  /** Over absolute entries, the intended test keeps the files the
      as-written test keeps, in the same order, less those whose name starts
      with a single underscore. */
  lemma {:induction false} CollectByFileName(entries: seq<(string, seq<Component>)>, fileExclusions: seq<string>)
    requires Absolute(entries)
    ensures Collect(ByFileName, entries, fileExclusions) == DropPrivate(Collect(AsWritten, entries, fileExclusions))
  {
    if entries != [] {
      var init := entries[..|entries| - 1];
      var e := entries[|entries| - 1];
      assert Absolute(init) by {
        forall i | 0 <= i < |init| ensures StartsWith(init[i].0, "/") {
          assert init[i] == entries[i];
        }
      }
      CollectByFileName(init, fileExclusions);
      KeptFilesByFileName(e.0, e.1, fileExclusions);
      DropPrivateAppend(Collect(AsWritten, init, fileExclusions), KeptFiles(AsWritten, e.0, e.1, fileExclusions));
    }
  }

  /** Over absolute entries, the as-written test keeps every file whose
      joined path ends in ".py" and whose name is not excluded, whatever its
      leading underscores, and nothing else. */
  lemma {:induction false} CollectAsWritten(entries: seq<(string, seq<Component>)>, fileExclusions: seq<string>)
    requires Absolute(entries)
    ensures forall i, n ::
      (0 <= i < |entries| && n in entries[i].1 && PythonSuffix(PathJoin(entries[i].0, n)) && n !in fileExclusions) ==>
        PathJoin(entries[i].0, n) in Collect(AsWritten, entries, fileExclusions)
    ensures forall f :: f in Collect(AsWritten, entries, fileExclusions) ==>
      PythonSuffix(f) && BaseName(f) !in fileExclusions
  {
    if entries != [] {
      var init := entries[..|entries| - 1];
      var e := entries[|entries| - 1];
      assert Absolute(init) by {
        forall i | 0 <= i < |init| ensures StartsWith(init[i].0, "/") {
          assert init[i] == entries[i];
        }
      }
      CollectAsWritten(init, fileExclusions);
      KeptFilesAsWritten(e.0, e.1, fileExclusions);
      forall i, n | 0 <= i < |entries| && n in entries[i].1 &&
        PythonSuffix(PathJoin(entries[i].0, n)) && n !in fileExclusions
        ensures PathJoin(entries[i].0, n) in Collect(AsWritten, entries, fileExclusions)
      {
        if i < |entries| - 1 {
          assert entries[i] == init[i];
        }
      }
    }
  }

  /** Under an absolute root, the walk as written keeps exactly the files of
      the walked directories whose name is not excluded and whose path ends
      in ".py"; names starting with a single underscore are kept too. */
  lemma WalkAsWritten(dirPath: string, d: Dir, dirExclusions: seq<string>, fileExclusions: seq<string>)
    requires StartsWith(dirPath, "/")
    ensures var entries := Entries(dirPath, d, dirExclusions);
      forall i, n ::
        (0 <= i < |entries| && n in entries[i].1 && PythonSuffix(PathJoin(entries[i].0, n)) && n !in fileExclusions) ==>
          PathJoin(entries[i].0, n) in Walk(AsWritten, dirPath, d, dirExclusions, fileExclusions)
    ensures forall f :: f in Walk(AsWritten, dirPath, d, dirExclusions, fileExclusions) ==>
      PythonSuffix(f) && BaseName(f) !in fileExclusions
  {
    EntriesAbsolute(dirPath, d, dirExclusions);
    CollectAsWritten(Entries(dirPath, d, dirExclusions), fileExclusions);
  }

  /** Under an absolute root, the intended walk is the walk as written, in
      the same order, less the files whose name starts with a single
      underscore. */
  lemma WalkByFileName(dirPath: string, d: Dir, dirExclusions: seq<string>, fileExclusions: seq<string>)
    requires StartsWith(dirPath, "/")
    ensures Walk(ByFileName, dirPath, d, dirExclusions, fileExclusions) == DropPrivate(Walk(AsWritten, dirPath, d, dirExclusions, fileExclusions))
  {
    EntriesAbsolute(dirPath, d, dirExclusions);
    CollectByFileName(Entries(dirPath, d, dirExclusions), fileExclusions);
  }

  lemma AppendAssoc(a: seq<string>, b: seq<string>, c: seq<string>)
    ensures (a + b) + c == a + (b + c)
  {
  }

  /** `py_file_list` for a package path: the walk of a directory, a file
      whose name is not excluded, or nothing. */
  function PyFiles(test: FileTest, env: Env, pkgPath: string, dirExclusions: seq<string>, fileExclusions: seq<string>): seq<string>
  {
    var resolved := env.realpath(pkgPath);
    match env.lookup(resolved)
    case IsDir(d) => Walk(test, resolved, d, dirExclusions, fileExclusions)
    case IsFile => if BaseName(resolved) !in fileExclusions then [resolved] else []
    case Absent => []
  }

  /** The imports of the files, in order; a file whose imports cannot be
      read adds none. */
  function FilesImports(env: Env, files: seq<string>): seq<string>
  {
    if files == [] then []
    else
      var f := files[|files| - 1];
      FilesImports(env, files[..|files| - 1]) + (if env.imports(f).Some? then env.imports(f).value else [])
  }

  /** The imports collected from each package path in turn. */
  function PathsImports(test: FileTest, env: Env, paths: seq<string>, dirExclusions: seq<string>, fileExclusions: seq<string>): seq<string>
  {
    if paths == [] then []
    else
      PathsImports(test, env, paths[..|paths| - 1], dirExclusions, fileExclusions) +
        FilesImports(env, PyFiles(test, env, paths[|paths| - 1], dirExclusions, fileExclusions))
  }

  lemma PathsImportsStep(test: FileTest, env: Env, paths: seq<string>, i: nat, dirExclusions: seq<string>, fileExclusions: seq<string>)
    requires i < |paths|
    ensures PathsImports(test, env, paths[..i + 1], dirExclusions, fileExclusions) ==
      PathsImports(test, env, paths[..i], dirExclusions, fileExclusions) +
        FilesImports(env, PyFiles(test, env, paths[i], dirExclusions, fileExclusions))
  {
    assert paths[..i + 1][..i] == paths[..i];
  }

  /** With the intended test, a path whose real path is a directory yields
      only public Python files. */
  lemma PyFilesOfDirectory(env: Env, pkgPath: string, dirExclusions: seq<string>, fileExclusions: seq<string>)
    requires env.lookup(env.realpath(pkgPath)).IsDir?
    ensures PublicPython(PyFiles(ByFileName, env, pkgPath, dirExclusions, fileExclusions), fileExclusions)
  {
    var resolved := env.realpath(pkgPath);
    WalkPublic(resolved, env.lookup(resolved).dir, dirExclusions, fileExclusions);
  }

  /** For a directory whose real path is absolute, as `realpath` always
      gives, the program's file list differs from the intended one exactly
      by the files whose name starts with a single underscore. */
  lemma PyFilesAsWritten(env: Env, pkgPath: string, dirExclusions: seq<string>, fileExclusions: seq<string>)
    requires StartsWith(env.realpath(pkgPath), "/") && env.lookup(env.realpath(pkgPath)).IsDir?
    ensures PyFiles(ByFileName, env, pkgPath, dirExclusions, fileExclusions) ==
      DropPrivate(PyFiles(AsWritten, env, pkgPath, dirExclusions, fileExclusions))
  {
    var resolved := env.realpath(pkgPath);
    WalkByFileName(resolved, env.lookup(resolved).dir, dirExclusions, fileExclusions);
  }

  // ---------------------------------------------------------------------
  // Top-level names

  /** `dep_name.split(".")[0]`. */
  function TopName(dep: string): (r: string)
    ensures '.' !in r && StartsWith(dep, r)
    ensures '.' in dep ==> r == dep[..FirstIndex(dep, '.')]
    ensures '.' !in dep ==> r == dep
  {
    SplitHead(dep, '.');
    Split(dep, '.')[0]
  }

  /** A standard-library name gets the "Python:" prefix in pdt format. */
  function Tag(name: string, pdtFormat: bool, stdLibs: seq<string>): string
  {
    if pdtFormat && name in stdLibs then "Python:" + name else name
  }

  /** `z` is the tagged top-level name of one of the dependencies. */
  predicate TopLevelOf(deps: seq<string>, z: string, pdtFormat: bool, stdLibs: seq<string>)
  {
    exists i :: 0 <= i < |deps| && z == Tag(TopName(deps[i]), pdtFormat, stdLibs)
  }

  /** The tagged top-level names, in dependency order. */
  function TaggedTopNames(deps: seq<string>, pdtFormat: bool, stdLibs: seq<string>): (r: seq<string>)
    ensures |r| == |deps|
    ensures forall i :: 0 <= i < |deps| ==> r[i] == Tag(TopName(deps[i]), pdtFormat, stdLibs)
  {
    seq(|deps|, i requires 0 <= i < |deps| => Tag(TopName(deps[i]), pdtFormat, stdLibs))
  }

  /** `get_top_level_deps_list`: the distinct tagged top-level names, ascending. */
  function TopLevelDeps(deps: seq<string>, pdtFormat: bool, stdLibs: seq<string>): (r: seq<string>)
    ensures StrictlySorted(r)
    ensures forall z :: z in r <==> TopLevelOf(deps, z, pdtFormat, stdLibs)
  {
    var tops := TaggedTopNames(deps, pdtFormat, stdLibs);
    assert forall z :: z in tops <==> TopLevelOf(deps, z, pdtFormat, stdLibs) by {
      forall z ensures z in tops <==> TopLevelOf(deps, z, pdtFormat, stdLibs) {
        if z in tops {
          var i :| 0 <= i < |tops| && tops[i] == z;
        }
      }
    }
    SortedSet(tops)
  }

  /** Without pdt format no name is tagged, and no result holds a '.'. */
  lemma TopLevelPlain(deps: seq<string>, stdLibs: seq<string>)
    ensures forall z :: z in TopLevelDeps(deps, false, stdLibs) ==> '.' !in z
  {
    forall z | z in TopLevelDeps(deps, false, stdLibs) ensures '.' !in z {
      assert TopLevelOf(deps, z, false, stdLibs);
    }
  }

  // ---------------------------------------------------------------------
  // Command line

  /** `list_of_strings`: the comma-separated items of an argument. */
  function ListOfStrings(arg: string): (r: seq<string>)
    ensures |r| >= 1 && forall i :: 0 <= i < |r| ==> ',' !in r[i]
    ensures Join(r, ',') == arg
  {
    JoinSplit(arg, ',');
    SplitFields(arg, ',');
    Split(arg, ',')
  }

  /** The items of an argument survive a round trip through a comma-separated
      argument, provided none holds a comma. */
  lemma ListOfStringsRoundTrip(items: seq<string>)
    requires |items| >= 1 && forall i :: 0 <= i < |items| ==> ',' !in items[i]
    ensures ListOfStrings(Join(items, ',')) == items
  {
    SplitJoin(items, ',');
  }

  /** What to collect from: a pip package name (`-n`) or a path (`-p`). */
  datatype Source = ByName(name: string) | ByPath(path: string)

  /** An option given with a non-empty value. */
  predicate Given(option: Option<string>)
  {
    option.Some? && option.value != ""
  }

  /** The one-of rule of `parse_args`: exactly one of `-n` and `-p` must be
      given; otherwise `parser.error` exits with code 2. */
  function ParseSource(pkgName: Option<string>, pkgPath: Option<string>): (r: Result<Source>)
    ensures r.Ok? <==> Given(pkgName) != Given(pkgPath)
    ensures r.Exit? ==> r.code == 2
    ensures r.Ok? && Given(pkgName) ==> r.value == ByName(pkgName.value)
    ensures r.Ok? && Given(pkgPath) ==> r.value == ByPath(pkgPath.value)
  {
    if !Given(pkgName) && !Given(pkgPath) then Exit(2)
    else if Given(pkgName) && Given(pkgPath) then Exit(2)
    else if Given(pkgName) then Ok(ByName(pkgName.value))
    else Ok(ByPath(pkgPath.value))
  }

  // ---------------------------------------------------------------------
  // The collector

  class PyDepCollector {
    var depsCollected: seq<string>
    var pipRequiredDeps: seq<string>
    var sitePkgNames: seq<string>

    constructor()
      ensures depsCollected == [] && pipRequiredDeps == [] && sitePkgNames == []
    {
      depsCollected := [];
      pipRequiredDeps := [];
      sitePkgNames := [];
    }

    /** The file loop of lines 287-297 over one directory's file names. */
    static method KeepPyFiles(dirPath: string, fileNames: seq<string>, fileExclusions: seq<string>)
      returns (files: seq<string>)
      ensures files == KeptFiles(AsWritten, dirPath, fileNames, fileExclusions)
    {
      files := [];
      for i := 0 to |fileNames|
        invariant files == KeptFiles(AsWritten, dirPath, fileNames[..i], fileExclusions)
      {
        assert fileNames[..i + 1][..i] == fileNames[..i];
        var fileName := fileNames[i];
        if FileKeptAsWritten(dirPath, fileName, fileExclusions) {
          files := files + [PathJoin(dirPath, fileName)];
        }
      }
      assert fileNames[..|fileNames|] == fileNames;
    }

    /** The walk of lines 278-297: the files of `d` kept in walk order, the
        sub-directory list pruned before the walk descends. */
    static method WalkPyFiles(dirPath: string, d: Dir, dirExclusions: seq<string>, fileExclusions: seq<string>)
      returns (files: seq<string>)
      ensures files == Walk(AsWritten, dirPath, d, dirExclusions, fileExclusions)
      decreases d
    {
      var own := KeepPyFiles(dirPath, d.files, fileExclusions);
      var kept := Pruned(d.subdirs, dirExclusions);
      var below: seq<string> := [];
      for j := 0 to |kept|
        invariant below == Collect(AsWritten, EntriesUpTo(dirPath, d, j, dirExclusions), fileExclusions)
      {
        EntriesUpToNext(dirPath, d, j, dirExclusions);
        var subPath := PathJoin(dirPath, kept[j].name);
        var sub := WalkPyFiles(subPath, kept[j].dir, dirExclusions, fileExclusions);
        CollectAppend(AsWritten, EntriesUpTo(dirPath, d, j, dirExclusions), Entries(subPath, kept[j].dir, dirExclusions), fileExclusions);
        below := below + sub;
      }
      ghost var top := [(dirPath, d.files)];
      assert Collect(AsWritten, top, fileExclusions) == own by {
        assert top[..0] == [];
      }
      assert Entries(dirPath, d, dirExclusions) == top + EntriesUpTo(dirPath, d, |kept|, dirExclusions);
      CollectAppend(AsWritten, top, EntriesUpTo(dirPath, d, |kept|, dirExclusions), fileExclusions);
      files := own + below;
    }

    /** `collect_deps_from_pkg_path`: the imports of every Python file under
        the path are added, then the list is made unique and sorted. */
    method CollectDepsFromPkgPath(pkgPath: string, dirExclusions: seq<string>, fileExclusions: seq<string>, env: Env)
      modifies this`depsCollected
      ensures depsCollected == SortedSet(old(depsCollected) + FilesImports(env, PyFiles(AsWritten, env, pkgPath, dirExclusions, fileExclusions)))
      ensures StrictlySorted(depsCollected)
      ensures forall z :: z in depsCollected <==>
        z in old(depsCollected) || z in FilesImports(env, PyFiles(AsWritten, env, pkgPath, dirExclusions, fileExclusions))
    {
      var resolved := env.realpath(pkgPath);
      var pyFiles: seq<string> := [];
      match env.lookup(resolved) {
        case IsDir(d) =>
          pyFiles := WalkPyFiles(resolved, d, dirExclusions, fileExclusions);
        case IsFile =>
          if BaseName(resolved) !in fileExclusions {
            pyFiles := pyFiles + [resolved];
          }
        case Absent =>
      }
      assert pyFiles == PyFiles(AsWritten, env, pkgPath, dirExclusions, fileExclusions);
      for i := 0 to |pyFiles|
        invariant depsCollected == old(depsCollected) + FilesImports(env, pyFiles[..i])
      {
        var found := env.imports(pyFiles[i]);
        var fileImports: seq<string> := [];
        if found.Some? {
          fileImports := found.value;
        }
        assert pyFiles[..i + 1][..i] == pyFiles[..i];
        assert FilesImports(env, pyFiles[..i + 1]) == FilesImports(env, pyFiles[..i]) + fileImports;
        AppendAssoc(old(depsCollected), FilesImports(env, pyFiles[..i]), fileImports);
        depsCollected := depsCollected + fileImports;
      }
      assert pyFiles[..|pyFiles|] == pyFiles;
      depsCollected := SortedSet(depsCollected);
    }

    /** `collect_deps_from_pkg_name`: the collected list is cleared (by
        `reset_pip_required_deps_list`, as written), the site names and
        required packages found through pip are appended, and the imports
        under every installation path are collected. */
    method CollectDepsFromPkgName(pkgName: string, dirExclusions: seq<string>, fileExclusions: seq<string>, env: Env)
      modifies this`depsCollected, this`sitePkgNames, this`pipRequiredDeps
      ensures var r := PipStage(env.pipShow(pkgName), env.distributions, old(sitePkgNames));
        && sitePkgNames == old(sitePkgNames) + r.siteAdded
        && pipRequiredDeps == old(pipRequiredDeps) + r.required
        && depsCollected == SortedSet(PathsImports(AsWritten, env, r.paths, dirExclusions, fileExclusions))
    {
      ResetPipRequiredDepsList();
      var r := PipStage(env.pipShow(pkgName), env.distributions, sitePkgNames);
      sitePkgNames := sitePkgNames + r.siteAdded;
      pipRequiredDeps := pipRequiredDeps + r.required;
      for i := 0 to |r.paths|
        invariant depsCollected == SortedSet(PathsImports(AsWritten, env, r.paths[..i], dirExclusions, fileExclusions))
        invariant sitePkgNames == old(sitePkgNames) + r.siteAdded
        invariant pipRequiredDeps == old(pipRequiredDeps) + r.required
      {
        ghost var before := PathsImports(AsWritten, env, r.paths[..i], dirExclusions, fileExclusions);
        ghost var added := FilesImports(env, PyFiles(AsWritten, env, r.paths[i], dirExclusions, fileExclusions));
        PathsImportsStep(AsWritten, env, r.paths, i, dirExclusions, fileExclusions);
        CollectDepsFromPkgPath(r.paths[i], dirExclusions, fileExclusions, env);
        SortedSetAppend(before, added);
      }
      assert r.paths[..|r.paths|] == r.paths;
    }

    /** `get_deps_list`: the collected list itself. */
    method GetDepsList() returns (deps: seq<string>)
      ensures deps == depsCollected
    {
      deps := depsCollected;
    }

    /** `get_top_level_deps_list`, reading the collected list without changing it. */
    method GetTopLevelDepsList(pdtFormat: bool, stdLibs: seq<string>) returns (tops: seq<string>)
      ensures tops == TopLevelDeps(depsCollected, pdtFormat, stdLibs)
      ensures StrictlySorted(tops)
    {
      tops := TopLevelDeps(depsCollected, pdtFormat, stdLibs);
    }

    method GetPipRequiredDepsList() returns (deps: seq<string>)
      ensures deps == pipRequiredDeps
    {
      deps := pipRequiredDeps;
    }

    method GetSitePkgNamesList() returns (names: seq<string>)
      ensures names == sitePkgNames
    {
      names := sitePkgNames;
    }

    method ResetDepsList()
      modifies this`depsCollected
      ensures depsCollected == []
    {
      depsCollected := [];
    }

    /** As written, this clears the collected list and leaves the list of
        required packages as it was. */
    method ResetPipRequiredDepsList()
      modifies this`depsCollected
      ensures depsCollected == []
    {
      depsCollected := [];
    }
  }
}
