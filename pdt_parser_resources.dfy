/** `PdtParser` of utils/resources/python/pdt_parser.py: the same lookups as
    utils/pdt_parser.py, except that an empty application name is an error
    and the joined paths are returned without asking whether they exist.
    The entry-point getter is the same code in both copies and is
    `PdtParser.GetAppEntryPointScriptName`. */
module PdtParserResources {
  import opened Wrappers
  import opened PyStrings
  import opened PdtParser

  /** `get_sysroot_path`: the non-empty quoted `sysroot ` value joined to
      the `.pdt` directory. */
  function GetSysrootPath(lines: seq<string>, pdtDir: string): (r: Result<string>)
    ensures r.Exit? ==> r.code == ExitFailure
    ensures r.Ok? <==> (QuotedAt(lines, SysrootKey, 0).Some? && QuotedAt(lines, SysrootKey, 0).value != "")
    ensures r.Ok? ==> r.value == PathJoin(pdtDir, QuotedAt(lines, SysrootKey, 0).value)
  {
    match FirstQuoted(lines, SysrootKey)
    case None => Exit(ExitFailure)
    case Some(relative) =>
      if relative == "" then Exit(ExitFailure) else Ok(PathJoin(pdtDir, relative))
  }

  /** `get_app_name`: the quoted field four lines below `[Application]`,
      which must not be empty. */
  function GetAppName(lines: seq<string>): (r: Result<string>)
    ensures r.Exit? ==> r.code == ExitFailure
    ensures r.Ok? <==> (QuotedAt(lines, ApplicationHeader, NameOffset).Some? &&
                        QuotedAt(lines, ApplicationHeader, NameOffset).value != "")
    ensures r.Ok? ==> r.value == QuotedAt(lines, ApplicationHeader, NameOffset).value
  {
    match QuotedBelow(lines, ApplicationHeader, NameOffset)
    case None => Exit(ExitFailure)
    case Some(name) => if name == "" then Exit(ExitFailure) else Ok(name)
  }

  /** `get_app_package_path`: the non-empty quoted value on the line after
      `[Application.Package]`, joined to the `.pdt` directory. */
  function GetAppPackagePath(lines: seq<string>, pdtDir: string): (r: Result<string>)
    ensures r.Exit? ==> r.code == ExitFailure
    ensures r.Ok? <==> (QuotedAt(lines, PackageHeader, PackageOffset).Some? &&
                        QuotedAt(lines, PackageHeader, PackageOffset).value != "")
    ensures r.Ok? ==> r.value == PathJoin(pdtDir, QuotedAt(lines, PackageHeader, PackageOffset).value)
  {
    match QuotedBelow(lines, PackageHeader, PackageOffset)
    case None => Exit(ExitFailure)
    case Some(relative) =>
      if relative == "" then Exit(ExitFailure) else Ok(PathJoin(pdtDir, relative))
  }

  /** The two copies agree wherever the stricter one succeeds, and the
      checking copy fails beyond that only when the joined path is missing
      or, for the name, when it is empty. */
  lemma CopiesAgree(lines: seq<string>, pdtDir: string, pathExists: string -> bool)
    ensures GetAppName(lines).Ok? ==> PdtParser.GetAppName(lines) == GetAppName(lines)
    ensures PdtParser.GetAppName(lines).Ok? && GetAppName(lines).Exit? ==> PdtParser.GetAppName(lines).value == ""
    ensures PdtParser.GetSysrootPath(lines, pdtDir, pathExists).Ok? ==>
      PdtParser.GetSysrootPath(lines, pdtDir, pathExists) == GetSysrootPath(lines, pdtDir)
    ensures GetSysrootPath(lines, pdtDir).Ok? ==>
      (PdtParser.GetSysrootPath(lines, pdtDir, pathExists).Ok? <==> pathExists(GetSysrootPath(lines, pdtDir).value))
    ensures PdtParser.GetAppPackagePath(lines, pdtDir, pathExists).Ok? ==>
      PdtParser.GetAppPackagePath(lines, pdtDir, pathExists) == GetAppPackagePath(lines, pdtDir)
    ensures GetAppPackagePath(lines, pdtDir).Ok? ==>
      (PdtParser.GetAppPackagePath(lines, pdtDir, pathExists).Ok? <==> pathExists(GetAppPackagePath(lines, pdtDir).value))
  {
  }
}
