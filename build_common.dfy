/** What the three pyqtdeploy build scripts (utils/build_app.py,
    utils/build-demo.py, pyqtdeploy-app/build-app.py) share: the `run`
    helper, the environment lookups, the target names and the make tool.
    `sys.platform`, `os.environ`, the pointer size and the outcome of each
    shell command are inputs. */
module BuildCommon {
  import opened Wrappers
  import opened PyStrings

  /** What `subprocess.call` gives: the command's exit status, or OSError. */
  datatype CallOutcome = Exited(status: int) | OsError

  /** The status `run` acts on: OSError counts as 1. */
  function Status(o: CallOutcome): int
  {
    match o
    case Exited(status) => status
    case OsError => 1
  }

  /** `run(args)`: the command line is `' '.join(args)`; a non-zero status
      ends the script with that status, zero lets it continue. */
  method Run(args: seq<string>, outcome: seq<string> -> CallOutcome) returns (exit: Option<int>)
    ensures exit.None? <==> Status(outcome(args)) == 0
    ensures exit.Some? ==> exit.value == Status(outcome(args)) && exit.value != 0
    ensures outcome(args) == OsError ==> exit == Some(1)
  {
    var ec := Status(outcome(args));
    exit := None;
    if ec != 0 {
      exit := Some(ec);
    }
  }

  /** The commands run so far all succeeded, except possibly the last one,
      which failed exactly when the script stopped with its status. */
  predicate RanInOrder(ran: seq<seq<string>>, exit: Option<int>, outcome: seq<string> -> CallOutcome)
  {
    && (forall i :: 0 <= i < |ran| - 1 ==> Status(outcome(ran[i])) == 0)
    && (exit.None? ==> forall i :: 0 <= i < |ran| ==> Status(outcome(ran[i])) == 0)
    && (exit.Some? && ran != [] ==> exit.value == Status(outcome(ran[|ran| - 1])) && exit.value != 0)
  }

  /** Runs one more command unless the script has already stopped. */
  method RunNext(ran: seq<seq<string>>, exit: Option<int>, args: seq<string>, outcome: seq<string> -> CallOutcome)
    returns (ran': seq<seq<string>>, exit': Option<int>)
    requires exit.None? && RanInOrder(ran, exit, outcome)
    ensures ran' == ran + [args]
    ensures exit'.None? <==> Status(outcome(args)) == 0
    ensures RanInOrder(ran', exit', outcome)
  {
    exit' := Run(args, outcome);
    ran' := ran + [args];
  }

  /** Runs the next command of a planned sequence: what has run is always a
      prefix of the plan. */
  method RunPlanned(ghost plan: seq<seq<string>>, ran: seq<seq<string>>, exit: Option<int>,
                    args: seq<string>, outcome: seq<string> -> CallOutcome)
    returns (ran': seq<seq<string>>, exit': Option<int>)
    requires exit.None? && RanInOrder(ran, exit, outcome)
    requires |ran| < |plan| && ran == plan[..|ran|] && args == plan[|ran|]
    ensures ran' == plan[..|ran| + 1]
    ensures exit'.None? <==> Status(outcome(args)) == 0
    ensures RanInOrder(ran', exit', outcome)
  {
    ran', exit' := RunNext(ran, exit, args, outcome);
    assert plan[..|ran| + 1] == plan[..|ran|] + [args];
  }

  /** `os.environ.get(key)`. */
  function EnvGet(env: map<string, string>, key: string): Option<string>
  {
    if key in env then Some(env[key]) else None
  }

  /** `os.environ.get('VisualStudioVersion', '0.0').split('.')[0]`. */
  function VsMajor(env: map<string, string>): string
  {
    Split(if "VisualStudioVersion" in env then env["VisualStudioVersion"] else "0.0", '.')[0]
  }

  /** The default target word size on Windows in utils/build_app.py and
      pyqtdeploy-app/build-app.py: Visual Studio 2017 (major 15) and 2015
      (major 14) consult their architecture variables; any other version
      means 64 bits. */
  function Is32(env: map<string, string>): (r: bool)
    ensures r ==> VsMajor(env) == "15" || VsMajor(env) == "14"
    ensures VsMajor(env) == "15" ==> (r <==> EnvGet(env, "VSCMD_ARG_TGT_ARCH") != Some("x64"))
    ensures VsMajor(env) == "14" ==> (r <==> EnvGet(env, "Platform") != Some("X64"))
  {
    var major := VsMajor(env);
    if major == "15" then EnvGet(env, "VSCMD_ARG_TGT_ARCH") != Some("x64")
    else if major == "14" then EnvGet(env, "Platform") != Some("X64")
    else false
  }

  function WinTarget(is32: bool): string
  {
    "win-" + (if is32 then "32" else "64")
  }

  /** `'linux-{0}'.format(8 * struct.calcsize('P'))`. */
  function LinuxTarget(pointerSize: nat): (r: string)
    ensures StartsWith(r, "linux-")
  {
    var r := "linux-" + DecimalString(8 * pointerSize);
    assert r[..6] == "linux-";
    r
  }

  /** The platforms a default target exists for. */
  predicate Supported(platform: string)
  {
    platform == "win32" || platform == "darwin" || StartsWith(platform, "linux")
  }

  /** A target given on the command line is kept; an empty one is replaced
      by the host's, given the Windows word-size rule `is32`. An unsupported
      platform ends the script with exit code 2. */
  function ChooseTarget(given: string, platform: string, is32: bool, pointerSize: nat): (r: Result<string>)
    ensures given != "" ==> r == Ok(given)
    ensures given == "" ==> (r.Exit? <==> !Supported(platform))
    ensures r.Exit? ==> r.code == 2
    ensures given == "" && r.Ok? ==>
      r.value == "win-32" || r.value == "win-64" || r.value == "macos-64" || StartsWith(r.value, "linux-")
    ensures given == "" && platform == "win32" ==> r == Ok(if is32 then "win-32" else "win-64")
  {
    if given != "" then Ok(given)
    else if platform == "win32" then Ok(WinTarget(is32))
    else if platform == "darwin" then Ok("macos-64")
    else if StartsWith(platform, "linux") then Ok(LinuxTarget(pointerSize))
    else Exit(2)
  }

  /** The targets that need an existing Qt installation. */
  const MobileTargets: seq<string> := ["android-32", "android-64", "ios-64"]

  /** The truth value of an optional command-line string: given and not empty. */
  predicate Truthy(o: Option<string>)
  {
    o.Some? && o.value != ""
  }

  /** An Android target is never an iOS one, so make runs for it. */
  lemma AndroidRunsMake(target: string)
    requires StartsWith(target, "android")
    ensures RunsMake(target)
  {
    assert target[..7][0] == 'a';
  }

  /** `'nmake' if sys.platform == 'win32' else 'make'`; only MSVC is
      supported on Windows. */
  function MakeTool(platform: string): (r: string)
    ensures r == "nmake" <==> platform == "win32"
    ensures r == "nmake" || r == "make"
  {
    if platform == "win32" then "nmake" else "make"
  }

  /** Whether make runs at all: Xcode builds iOS targets. */
  predicate RunsMake(target: string)
  {
    !StartsWith(target, "ios")
  }

  /** `['--source-dir', s]` for each source directory, in order. */
  function SourceDirFlags(dirs: seq<string>): (r: seq<string>)
    ensures |r| == 2 * |dirs|
  {
    if dirs == [] then [] else SourceDirFlags(dirs[..|dirs| - 1]) + ["--source-dir", dirs[|dirs| - 1]]
  }

  /** Each directory sits right after its own `--source-dir`, in order. */
  lemma {:induction false} SourceDirFlagsAt(dirs: seq<string>)
    ensures forall i :: 0 <= i < |dirs| ==>
      SourceDirFlags(dirs)[2 * i] == "--source-dir" && SourceDirFlags(dirs)[2 * i + 1] == dirs[i]
  {
    if dirs != [] {
      SourceDirFlagsAt(dirs[..|dirs| - 1]);
    }
  }

  /** The directories back from their flags: the odd positions. */
  function FlaggedDirs(flags: seq<string>): seq<string>
  {
    if |flags| < 2 then [] else FlaggedDirs(flags[..|flags| - 2]) + [flags[|flags| - 1]]
  }

  /** Reading the directories back from their flags gives the list given. */
  lemma {:induction false} FlaggedDirsRoundTrip(dirs: seq<string>)
    ensures FlaggedDirs(SourceDirFlags(dirs)) == dirs
  {
    if dirs != [] {
      var init := dirs[..|dirs| - 1];
      FlaggedDirsRoundTrip(init);
      var flags := SourceDirFlags(dirs);
      assert flags[..|flags| - 2] == SourceDirFlags(init);
      assert dirs == init + [dirs[|dirs| - 1]];
    }
  }

  /** `['--quiet']` and `['--verbose']`, each only when set, in that order. */
  function Verbosity(quiet: bool, verbose: bool): seq<string>
  {
    (if quiet then ["--quiet"] else []) + (if verbose then ["--verbose"] else [])
  }

  /** The sysroot command of utils/build_app.py and pyqtdeploy-app/build-app.py. */
  function SysrootCommand(target: string, dirs: seq<string>, quiet: bool, verbose: bool): seq<string>
  {
    ["pyqtdeploy-sysroot", "--target", target, "--sysroot", "sysroot-" + target] +
      SourceDirFlags(dirs) + Verbosity(quiet, verbose) + ["sysroot.json"]
  }

  /** The sysroot command names the target and its sysroot directory, gives
      every source directory in order, and ends with the specification file;
      `--quiet` and `--verbose` appear exactly when set. */
  lemma SysrootCommandShape(target: string, dirs: seq<string>, quiet: bool, verbose: bool)
    ensures var args := SysrootCommand(target, dirs, quiet, verbose);
      && args[..5] == ["pyqtdeploy-sysroot", "--target", target, "--sysroot", "sysroot-" + target]
      && args[|args| - 1] == "sysroot.json"
      && FlaggedDirs(args[5..5 + 2 * |dirs|]) == dirs
      && ("--quiet" in args[5 + 2 * |dirs|..] <==> quiet)
      && ("--verbose" in args[5 + 2 * |dirs|..] <==> verbose)
  {
    var args := SysrootCommand(target, dirs, quiet, verbose);
    var head := ["pyqtdeploy-sysroot", "--target", target, "--sysroot", "sysroot-" + target];
    assert args == head + SourceDirFlags(dirs) + (Verbosity(quiet, verbose) + ["sysroot.json"]);
    assert args[5..5 + 2 * |dirs|] == SourceDirFlags(dirs);
    assert args[5 + 2 * |dirs|..] == Verbosity(quiet, verbose) + ["sysroot.json"];
    FlaggedDirsRoundTrip(dirs);
  }

  /** The argument list as the scripts build it: the fixed head, then one
      `append` pair per source directory, then the optional flags. */
  method SysrootArgs(target: string, dirs: seq<string>, quiet: bool, verbose: bool) returns (args: seq<string>)
    ensures args == SysrootCommand(target, dirs, quiet, verbose)
  {
    args := ["pyqtdeploy-sysroot", "--target", target, "--sysroot", "sysroot-" + target];
    for i := 0 to |dirs|
      invariant args == ["pyqtdeploy-sysroot", "--target", target, "--sysroot", "sysroot-" + target] + SourceDirFlags(dirs[..i])
    {
      assert dirs[..i + 1][..i] == dirs[..i];
      args := args + ["--source-dir"];
      args := args + [dirs[i]];
    }
    assert dirs[..|dirs|] == dirs;
    if quiet {
      args := args + ["--quiet"];
    }
    if verbose {
      args := args + ["--verbose"];
    }
    args := args + ["sysroot.json"];
  }

  /** The source directories when none were given. */
  function DefaultDirs(given: seq<string>): seq<string>
  {
    if given == [] then ["."] else given
  }

  /** The source-directory list of utils/build_app.py and
      pyqtdeploy-app/build-app.py: `['.']` when none was given, the Qt
      directory inserted at the front when given, each made absolute by
      `abspath` (`os.path.abspath` in the launching directory). */
  function SourceDirList(given: seq<string>, qtDir: Option<string>, abspath: string -> string): seq<string>
  {
    var dirs := (if Truthy(qtDir) then [qtDir.value] else []) + DefaultDirs(given);
    seq(|dirs|, i requires 0 <= i < |dirs| => abspath(dirs[i]))
  }

  /** The Qt directory comes first when given, and the given directories
      (or '.') follow in the order given. */
  lemma SourceDirListOrder(given: seq<string>, qtDir: Option<string>, abspath: string -> string)
    ensures var dirs := SourceDirList(given, qtDir, abspath);
      var base := DefaultDirs(given);
      && |dirs| == |base| + (if Truthy(qtDir) then 1 else 0)
      && (Truthy(qtDir) ==> dirs[0] == abspath(qtDir.value))
      && (given == [] ==> dirs[|dirs| - 1] == abspath("."))
      && forall i :: 0 <= i < |base| ==> dirs[i + |dirs| - |base|] == abspath(base[i])
  {
  }

  /** The list as the scripts build it: `insert(0, ...)`, then a
      comprehension. */
  method SourceDirs(given: seq<string>, qtDir: Option<string>, abspath: string -> string) returns (dirs: seq<string>)
    ensures dirs == SourceDirList(given, qtDir, abspath)
  {
    var sourceDirs := given;
    if sourceDirs == [] {
      sourceDirs := ["."];
    }
    if Truthy(qtDir) {
      sourceDirs := [qtDir.value] + sourceDirs;
    }
    dirs := [];
    for i := 0 to |sourceDirs|
      invariant |dirs| == i
      invariant forall j :: 0 <= j < i ==> dirs[j] == abspath(sourceDirs[j])
    {
      dirs := dirs + [abspath(sourceDirs[i])];
    }
  }
}
