/** `PdtParser` of utils/pdt_parser.py: field getters over the lines of a
    pyqtdeploy `.pdt` project file, as `readlines()` returns them. Each getter
    that fails ends the process with exit code 1, modelled as `Exit(1)`. The
    directory of the absolute `.pdt` path and the answers of
    `os.path.exists` are inputs. */
module PdtParser {
  import opened Wrappers
  import opened PyStrings
  import opened EntryPoints

  const ApplicationHeader: string := "[Application]"
  const PackageHeader: string := "[Application.Package]"
  const SysrootKey: string := "sysroot "
  const EntryPointKey: string := "entry_point "
  /** The application name sits four lines below its section header. */
  const NameOffset: nat := 4
  /** The package path sits on the line after its section header. */
  const PackageOffset: nat := 1
  const ExitFailure: int := 1

  // ---------------------------------------------------------------------
  // Line lookups

  /** `[line for line in lines if line.startswith(prefix)]`. */
  function Matching(lines: seq<string>, prefix: string): seq<string>
  {
    if lines == [] then []
    else (if StartsWith(lines[0], prefix) then [lines[0]] else []) + Matching(lines[1..], prefix)
  }

  /** `lines.index(x)`: the first position holding `x`. */
  function IndexOf(lines: seq<string>, x: string): (i: nat)
    requires x in lines
    ensures i < |lines| && lines[i] == x
    ensures forall j :: 0 <= j < i ==> lines[j] != x
  {
    if lines[0] == x then 0
    else IndexOf(lines[1..], x) + 1
  }

  /** The position of the first line starting with `prefix`, if any: the
      reference the comprehension-and-index lookups are measured against. */
  function FirstWithPrefix(lines: seq<string>, prefix: string): (r: Option<nat>)
    ensures r.Some? ==> r.value < |lines| && StartsWith(lines[r.value], prefix)
    ensures r.Some? ==> forall j :: 0 <= j < r.value ==> !StartsWith(lines[j], prefix)
    ensures r.None? ==> forall j :: 0 <= j < |lines| ==> !StartsWith(lines[j], prefix)
  {
    if lines == [] then None
    else if StartsWith(lines[0], prefix) then Some(0)
    else match FirstWithPrefix(lines[1..], prefix)
      case None => None
      case Some(i) => Some(i + 1)
  }

  /** The comprehension is empty exactly when no line has the prefix, and
      otherwise its first element is the first such line. */
  lemma {:induction false} MatchingFirst(lines: seq<string>, prefix: string)
    ensures Matching(lines, prefix) == [] <==> FirstWithPrefix(lines, prefix).None?
    ensures Matching(lines, prefix) != [] ==>
      Matching(lines, prefix)[0] == lines[FirstWithPrefix(lines, prefix).value]
  {
    if lines != [] && !StartsWith(lines[0], prefix) {
      MatchingFirst(lines[1..], prefix);
    }
  }

  /** `lines.index(matching[0])` finds the first line with the prefix: a line
      equal to it earlier on would have the prefix too. */
  lemma HeaderIndex(lines: seq<string>, prefix: string)
    requires Matching(lines, prefix) != []
    ensures Matching(lines, prefix)[0] in lines && FirstWithPrefix(lines, prefix).Some?
    ensures IndexOf(lines, Matching(lines, prefix)[0]) == FirstWithPrefix(lines, prefix).value
  {
    MatchingFirst(lines, prefix);
    var k := FirstWithPrefix(lines, prefix).value;
    assert lines[k] in lines;
  }

  /** The two section headers are told apart by their 14th character, so
      neither lookup can find the other's header. */
  lemma HeadersDistinct(line: string)
    ensures StartsWith(line, PackageHeader) ==> !StartsWith(line, ApplicationHeader)
    ensures StartsWith(line, ApplicationHeader) ==> !StartsWith(line, PackageHeader)
  {
    if StartsWith(line, PackageHeader) {
      assert line[..|PackageHeader|][12] == '.';
    }
    if StartsWith(line, ApplicationHeader) {
      assert line[..|ApplicationHeader|][12] == ']';
    }
  }

  /** The quoted field of the line `offset` lines below the first line
      starting with `prefix`, None when there is no such line or it holds no
      '"'. Defined on `FirstWithPrefix`, independently of the getters. */
  function QuotedAt(lines: seq<string>, prefix: string, offset: nat): (r: Option<string>)
    ensures r.Some? ==> '"' !in r.value
  {
    match FirstWithPrefix(lines, prefix)
    case None => None
    case Some(i) =>
      if i + offset < |lines| && '"' in lines[i + offset] then Some(SecondField(lines[i + offset], '"'))
      else None
  }

  // ---------------------------------------------------------------------
  // The getters, as written

  /** The quoted field of the first line starting with `prefix`:
      `[...][0].split("\"")[1]`, where both indexings may fail. */
  function FirstQuoted(lines: seq<string>, prefix: string): (r: Option<string>)
    ensures r == QuotedAt(lines, prefix, 0)
  {
    var entries := Matching(lines, prefix);
    MatchingFirst(lines, prefix);
    if entries == [] || '"' !in entries[0] then None else Some(SecondField(entries[0], '"'))
  }

  /** The quoted field of the line `offset` below the first line starting
      with `header`: found by `lines.index` of the comprehension's first
      element, as the source does. */
  function QuotedBelow(lines: seq<string>, header: string, offset: nat): (r: Option<string>)
    ensures r == QuotedAt(lines, header, offset)
  {
    var entries := Matching(lines, header);
    if entries == [] then
      MatchingFirst(lines, header);
      None
    else
      HeaderIndex(lines, header);
      var index := IndexOf(lines, entries[0]);
      assert FirstWithPrefix(lines, header) == Some(index);
      if index + offset < |lines| && '"' in lines[index + offset] then Some(SecondField(lines[index + offset], '"'))
      else None
  }

  /** `get_sysroot_path`: the non-empty quoted value of the first `sysroot `
      line, joined to the directory of the `.pdt` file; it must exist. */
  function GetSysrootPath(lines: seq<string>, pdtDir: string, pathExists: string -> bool): (r: Result<string>)
    ensures r.Exit? ==> r.code == ExitFailure
    ensures r.Ok? <==> (QuotedAt(lines, SysrootKey, 0).Some? && QuotedAt(lines, SysrootKey, 0).value != "" &&
                        pathExists(PathJoin(pdtDir, QuotedAt(lines, SysrootKey, 0).value)))
    ensures r.Ok? ==> r.value == PathJoin(pdtDir, QuotedAt(lines, SysrootKey, 0).value) && pathExists(r.value)
  {
    match FirstQuoted(lines, SysrootKey)
    case None => Exit(ExitFailure)
    case Some(relative) =>
      if relative == "" then Exit(ExitFailure)
      else
        var path := PathJoin(pdtDir, relative);
        if !pathExists(path) then Exit(ExitFailure) else Ok(path)
  }

  /** `get_app_name`: the quoted field four lines below `[Application]`. An
      empty name only draws a warning (the statement meant to reset it is a
      comparison), so it is returned as "". */
  function GetAppName(lines: seq<string>): (r: Result<string>)
    ensures r.Exit? ==> r.code == ExitFailure
    ensures r.Ok? <==> QuotedAt(lines, ApplicationHeader, NameOffset).Some?
    ensures r.Ok? ==> r.value == QuotedAt(lines, ApplicationHeader, NameOffset).value && '"' !in r.value
  {
    match QuotedBelow(lines, ApplicationHeader, NameOffset)
    case None => Exit(ExitFailure)
    case Some(name) => Ok(name)
  }

  /** `get_app_entry_point_script_name`: the script name of the non-empty
      quoted value of the first `entry_point ` line. */
  function GetAppEntryPointScriptName(lines: seq<string>): (r: Result<string>)
    ensures r.Exit? ==> r.code == ExitFailure
    ensures r.Ok? <==> QuotedAt(lines, EntryPointKey, 0).Some? && QuotedAt(lines, EntryPointKey, 0).value != ""
    ensures r.Ok? ==> r.value == ScriptName(QuotedAt(lines, EntryPointKey, 0).value)
    ensures r.Ok? ==> '.' !in r.value && ':' !in r.value
  {
    match FirstQuoted(lines, EntryPointKey)
    case None => Exit(ExitFailure)
    case Some(entry) =>
      if entry == "" then Exit(ExitFailure) else Ok(ScriptName(entry))
  }

  /** `get_app_package_path`: the non-empty quoted value on the line after
      `[Application.Package]`, joined to the `.pdt` directory; it must exist. */
  function GetAppPackagePath(lines: seq<string>, pdtDir: string, pathExists: string -> bool): (r: Result<string>)
    ensures r.Exit? ==> r.code == ExitFailure
    ensures r.Ok? <==> (QuotedAt(lines, PackageHeader, PackageOffset).Some? && QuotedAt(lines, PackageHeader, PackageOffset).value != "" &&
                        pathExists(PathJoin(pdtDir, QuotedAt(lines, PackageHeader, PackageOffset).value)))
    ensures r.Ok? ==> r.value == PathJoin(pdtDir, QuotedAt(lines, PackageHeader, PackageOffset).value) && pathExists(r.value)
  {
    match QuotedBelow(lines, PackageHeader, PackageOffset)
    case None => Exit(ExitFailure)
    case Some(relative) =>
      if relative == "" then Exit(ExitFailure)
      else
        var path := PathJoin(pdtDir, relative);
        if !pathExists(path) then Exit(ExitFailure) else Ok(path)
  }

  /** A `.pdt` whose application section names no application still yields
      a name: the empty one. */
  lemma EmptyAppNameAccepted()
    ensures GetAppName(["[Application]\n", "a\n", "b\n", "c\n", "name = \"\"\n"]) == Ok("")
  {
    var lines := ["[Application]\n", "a\n", "b\n", "c\n", "name = \"\"\n"];
    assert StartsWith(lines[0], ApplicationHeader);
    assert FirstWithPrefix(lines, ApplicationHeader) == Some(0);
    var line := lines[4];
    assert line[7] == '"' && line[8] == '"' && '"' !in line[..7];
    assert FirstIndex(line, '"') == 7;
    assert SecondField(line, '"') == "";
  }
}
