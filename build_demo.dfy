/** utils/build-demo.py: builds the pyqtdeploy demo from `pyqt-demo.pdt`
    with a sysroot described by `sysroot.toml`, an optional existing Qt
    (`--qmake`) for the mobile targets, then qmake and make. The host
    (platform, environment, `distutils.util.get_platform()`, pointer size,
    the script's directory, `abspath` and `isfile`) and the outcome of each
    command are inputs. */
module BuildDemo {
  import opened Wrappers
  import opened PyStrings
  import opened BuildCommon

  const PdtFile: string := "pyqt-demo.pdt"
  const SysrootSpec: string := "sysroot.toml"

  /** The command line; `--pdt` is parsed but never used. */
  datatype CommandLine = CommandLine(
    jobs: int, pdt: Option<string>, qmake: Option<string>,
    target: string, quiet: bool, verbose: bool)

  /** What the script asks of its host. `scriptLocation` is the directory
      of the script's absolute path, which the script changes into;
      `isFile` answers `os.path.isfile` at the moment it is asked. */
  datatype Host = Host(
    platform: string, env: map<string, string>, hostPlatform: string, pointerSize: nat,
    scriptLocation: string, abspath: string -> string, isFile: string -> bool)

  /** The Windows word size of this script: without Visual Studio
      (major '0') the host Python decides; Visual Studio 2015 (major 14)
      consults `Platform`; every later one `VSCMD_ARG_TGT_ARCH`. */
  function DemoIs32(env: map<string, string>, hostPlatform: string): (r: bool)
    ensures VsMajor(env) == "0" ==> (r <==> hostPlatform == "win32")
    ensures VsMajor(env) == "14" ==> (r <==> EnvGet(env, "Platform") != Some("X64"))
    ensures VsMajor(env) != "0" && VsMajor(env) != "14" ==> (r <==> EnvGet(env, "VSCMD_ARG_TGT_ARCH") != Some("x64"))
  {
    var major := VsMajor(env);
    if major == "0" then hostPlatform == "win32"
    else if major == "14" then EnvGet(env, "Platform") != Some("X64")
    else EnvGet(env, "VSCMD_ARG_TGT_ARCH") != Some("x64")
  }

  /** Without `VisualStudioVersion` the host Python decides the word size. */
  lemma NoVisualStudio(env: map<string, string>, hostPlatform: string)
    requires "VisualStudioVersion" !in env
    ensures DemoIs32(env, hostPlatform) <==> hostPlatform == "win32"
  {
    assert "0.0" == "0" + ['.'] + "0";
    SplitFirst("0", "0", '.');
  }

  /** `os.path.abspath(qmake) if qmake else None`. */
  function QmakeArg(cl: CommandLine, abspath: string -> string): Option<string>
  {
    if Truthy(cl.qmake) then Some(abspath(cl.qmake.value)) else None
  }

  /** `--qmake` is needed exactly for the mobile targets: missing for one of
      them, or given for any other target, ends the script with code 2. */
  predicate QmakeMismatch(target: string, qmake: Option<string>)
  {
    (target in MobileTargets) != qmake.Some?
  }

  /** Everything decided before the first command runs. */
  datatype Setup = Setup(target: string, qmake: Option<string>)

  /** The target, then the qmake check. */
  function Prepare(cl: CommandLine, host: Host): (r: Result<Setup>)
    ensures r.Exit? ==> r.code == 2
    ensures var target := ChooseTarget(cl.target, host.platform, DemoIs32(host.env, host.hostPlatform), host.pointerSize);
      && (target.Exit? ==> r.Exit?)
      && (target.Ok? ==> (r.Exit? <==> QmakeMismatch(target.value, QmakeArg(cl, host.abspath))))
      && (r.Ok? ==> r.value == Setup(target.value, QmakeArg(cl, host.abspath)))
    ensures r.Ok? ==> (r.value.target in MobileTargets <==> r.value.qmake.Some?)
  {
    match ChooseTarget(cl.target, host.platform, DemoIs32(host.env, host.hostPlatform), host.pointerSize)
    case Exit(code) => Exit(code)
    case Ok(target) =>
      var qmake := QmakeArg(cl, host.abspath);
      if QmakeMismatch(target, qmake) then Exit(2) else Ok(Setup(target, qmake))
  }

  /** `['--qmake', path]` when a Qt installation is used. */
  function QmakeFlags(qmake: Option<string>): seq<string>
  {
    if qmake.Some? then ["--qmake", qmake.value] else []
  }

  /** The sysroot command: target, then `--jobs N` only for more than one
      job, the qmake flags, the verbosity flags and the specification. */
  function DemoSysrootCommand(target: string, jobs: int, qmake: Option<string>, quiet: bool, verbose: bool): seq<string>
  {
    ["pyqtdeploy-sysroot", "--target", target] + JobFlags(jobs) +
      QmakeFlags(qmake) + Verbosity(quiet, verbose) + [SysrootSpec]
  }

  /** `['--jobs', str(jobs)]` for more than one job. */
  function JobFlags(jobs: int): seq<string>
  {
    if jobs > 1 then ["--jobs", DecimalString(jobs)] else []
  }

  /** The build command: target and build directory, the qmake flags, the
      verbosity flags and the demo's `.pdt`. */
  function DemoBuildCommand(target: string, qmake: Option<string>, quiet: bool, verbose: bool): seq<string>
  {
    ["pyqtdeploy-build", "--target", target, "--build-dir", "build-" + target] +
      QmakeFlags(qmake) + Verbosity(quiet, verbose) + [PdtFile]
  }

  /** Where the verbosity flags start in the sysroot command. */
  function VerbosityAt(jobs: int, qmake: Option<string>): nat
  {
    3 + |JobFlags(jobs)| + |QmakeFlags(qmake)|
  }

  /** In the sysroot command each optional flag sits at its own place and
      appears exactly when its option asks for it: `--jobs N` right after
      the target, then `--qmake path`, then the verbosity flags; the
      specification comes last. */
  lemma DemoSysrootShape(target: string, jobs: int, qmake: Option<string>, quiet: bool, verbose: bool)
    ensures var args := DemoSysrootCommand(target, jobs, qmake, quiet, verbose);
      var j := 3 + |JobFlags(jobs)|;
      var v := VerbosityAt(jobs, qmake);
      && |args| == v + |Verbosity(quiet, verbose)| + 1
      && args[..3] == ["pyqtdeploy-sysroot", "--target", target]
      && (args[3] == "--jobs" <==> jobs > 1)
      && (jobs > 1 ==> args[4] == DecimalString(jobs))
      && (args[j] == "--qmake" <==> qmake.Some?)
      && (qmake.Some? ==> args[j + 1] == qmake.value)
      && args[v..|args| - 1] == Verbosity(quiet, verbose)
      && args[|args| - 1] == SysrootSpec
  {
    DemoSysrootParts(target, jobs, qmake, quiet, verbose);
    var head := ["pyqtdeploy-sysroot", "--target", target];
    var last := Verbosity(quiet, verbose) + [SysrootSpec];
    var jobsValue := if jobs > 1 then DecimalString(jobs) else "";
    var qmakeValue := if qmake.Some? then qmake.value else "";
    assert last[0] == "--quiet" || last[0] == "--verbose" || last[0] == SysrootSpec;
    OptionalPairs(head, "--jobs", jobsValue, jobs > 1, "--qmake", qmakeValue, qmake.Some?, last);
    assert last[..|last| - 1] == Verbosity(quiet, verbose);
  }

  /** The sysroot command regrouped from the right. */
  lemma DemoSysrootParts(target: string, jobs: int, qmake: Option<string>, quiet: bool, verbose: bool)
    ensures DemoSysrootCommand(target, jobs, qmake, quiet, verbose) ==
      ["pyqtdeploy-sysroot", "--target", target] +
        (JobFlags(jobs) + (QmakeFlags(qmake) + (Verbosity(quiet, verbose) + [SysrootSpec])))
  {
  }

  /** Two optional flag-and-value pairs between a fixed head and a tail that
      starts with neither flag: each flag sits at its own place exactly when
      present, and the head and the tail stay whole. */
  lemma OptionalPairs(head: seq<string>, f1: string, v1: string, p1: bool, f2: string, v2: string, p2: bool,
                      last: seq<string>)
    requires last != [] && last[0] != f1 && last[0] != f2 && f1 != f2
    ensures var x := head + ((if p1 then [f1, v1] else []) + ((if p2 then [f2, v2] else []) + last));
      var j := |head| + (if p1 then 2 else 0);
      var v := j + (if p2 then 2 else 0);
      && |x| == v + |last| && x[..|head|] == head
      && (x[|head|] == f1 <==> p1) && (p1 ==> x[|head| + 1] == v1)
      && (x[j] == f2 <==> p2) && (p2 ==> x[j + 1] == v2)
      && x[v..] == last
  {
    var rest := (if p2 then [f2, v2] else []) + last;
    var y := (if p1 then [f1, v1] else []) + rest;
    var x := head + y;
    assert x[..|head|] == head && x[|head|..] == y;
    var j := |head| + (if p1 then 2 else 0);
    assert y[j - |head|..] == rest;
    assert x[j..] == rest;
    var v := j + (if p2 then 2 else 0);
    assert rest[v - j..] == last;
    assert x[v..] == last;
  }

  /** The verbosity flags hold `--quiet` exactly when quiet and `--verbose`
      exactly when verbose, in that order. */
  lemma VerbosityFlags(quiet: bool, verbose: bool)
    ensures ("--quiet" in Verbosity(quiet, verbose) <==> quiet)
    ensures ("--verbose" in Verbosity(quiet, verbose) <==> verbose)
    ensures quiet && verbose ==> Verbosity(quiet, verbose) == ["--quiet", "--verbose"]
  {
  }

  /** In the build command the optional `--qmake path` follows the build
      directory, then the verbosity flags; the `.pdt` comes last. */
  lemma DemoBuildShape(target: string, qmake: Option<string>, quiet: bool, verbose: bool)
    ensures var args := DemoBuildCommand(target, qmake, quiet, verbose);
      var v := 5 + |QmakeFlags(qmake)|;
      && |args| == v + |Verbosity(quiet, verbose)| + 1
      && args[..5] == ["pyqtdeploy-build", "--target", target, "--build-dir", "build-" + target]
      && (args[5] == "--qmake" <==> qmake.Some?)
      && (qmake.Some? ==> args[6] == qmake.value)
      && args[v..|args| - 1] == Verbosity(quiet, verbose)
      && args[|args| - 1] == PdtFile
  {
    var args := DemoBuildCommand(target, qmake, quiet, verbose);
    var v := 5 + |QmakeFlags(qmake)|;
    assert args[5..] == QmakeFlags(qmake) + Verbosity(quiet, verbose) + [PdtFile];
    assert args[v..] == Verbosity(quiet, verbose) + [PdtFile];
  }

  /** The sysroot arguments as the script builds them, by appending. */
  method DemoSysrootArgs(target: string, jobs: int, qmake: Option<string>, quiet: bool, verbose: bool)
    returns (args: seq<string>)
    ensures args == DemoSysrootCommand(target, jobs, qmake, quiet, verbose)
  {
    args := ["pyqtdeploy-sysroot", "--target", target];
    ghost var head := args;
    if jobs > 1 {
      args := args + ["--jobs"];
      args := args + [DecimalString(jobs)];
    }
    assert args == head + JobFlags(jobs);
    if qmake.Some? {
      args := args + ["--qmake"];
      args := args + [qmake.value];
    }
    assert args == head + JobFlags(jobs) + QmakeFlags(qmake);
    ghost var flagged := args;
    if quiet {
      args := args + ["--quiet"];
    }
    if verbose {
      args := args + ["--verbose"];
    }
    assert args == flagged + Verbosity(quiet, verbose);
    args := args + [SysrootSpec];
  }

  /** The build arguments as the script builds them, by appending. */
  method DemoBuildArgs(target: string, qmake: Option<string>, quiet: bool, verbose: bool) returns (args: seq<string>)
    ensures args == DemoBuildCommand(target, qmake, quiet, verbose)
  {
    args := ["pyqtdeploy-build", "--target", target, "--build-dir", "build-" + target];
    if qmake.Some? {
      args := args + ["--qmake"];
      args := args + [qmake.value];
    }
    if quiet {
      args := args + ["--quiet"];
    }
    if verbose {
      args := args + ["--verbose"];
    }
    args := args + [PdtFile];
  }

  /** The qmake the sysroot leaves, `sysroot-T/Qt/bin/qmake` (`.exe` on
      Windows) in the script's directory. */
  function SysrootQmake(host: Host, target: string): string
  {
    PathJoin(host.scriptLocation, "sysroot-" + target + "/Qt/bin/qmake" + (if host.platform == "win32" then ".exe" else ""))
  }

  /** The qmake that is run: the sysroot's when that file exists, otherwise
      the `--qmake` value, which is None for a desktop target. */
  function QmakePath(host: Host, s: Setup): (r: Option<string>)
    ensures host.isFile(SysrootQmake(host, s.target)) ==> r == Some(SysrootQmake(host, s.target))
    ensures !host.isFile(SysrootQmake(host, s.target)) ==> r == s.qmake
    ensures r.None? ==> s.qmake.None?
  {
    var path := SysrootQmake(host, s.target);
    if host.isFile(path) then Some(path) else s.qmake
  }

  /** The deployment-settings file Qt 5.14 and later leave in the build
      directory. */
  const SettingsFile: string := "android-CrossPlatformDemoApp-deployment-settings.json"

  /** The commands after qmake: none for iOS, make, then Android packaging,
      with androiddeployqt taken from qmake's directory. */
  function DemoMakeSteps(host: Host, target: string, qmakePath: string): seq<seq<string>>
  {
    if !RunsMake(target) then []
    else
      var make := MakeTool(host.platform);
      [[make]] +
        (if !StartsWith(target, "android") then []
         else if host.isFile(SettingsFile) then [[make, "apk"]]
         else [[make, "INSTALL_ROOT=" + "pyqt-demo", "install"],
               [PathJoin(DirName(qmakePath), "androiddeployqt"), "--gradle", "--input",
                "android-libpyqt-demo.so-deployment-settings.json", "--output", "pyqt-demo"]])
  }

  /** Every command the script runs when each succeeds: sysroot, build,
      then (when there is a qmake to run) qmake and the make steps. */
  function DemoPlan(cl: CommandLine, host: Host, s: Setup): seq<seq<string>>
  {
    [DemoSysrootCommand(s.target, cl.jobs, s.qmake, cl.quiet, cl.verbose),
     DemoBuildCommand(s.target, s.qmake, cl.quiet, cl.verbose)] +
      (match QmakePath(host, s)
       case None => []
       case Some(q) => [[q]] + DemoMakeSteps(host, s.target, q))
  }

  /** The sysroot's androiddeployqt sits beside the sysroot's qmake. */
  lemma DeployqtBesideQmake(host: Host, target: string)
    requires host.scriptLocation != [] && host.scriptLocation[0] == '/'
    ensures DirName(SysrootQmake(host, target)) == PathJoin(host.scriptLocation, "sysroot-" + target + "/Qt/bin")
  {
    var dir := "sysroot-" + target + "/Qt/bin";
    var name := "qmake" + (if host.platform == "win32" then ".exe" else "");
    assert "sysroot-" + target + "/Qt/bin/qmake" + (if host.platform == "win32" then ".exe" else "") == dir + "/" + name;
    assert dir[0] == 's' && dir[|dir| - 1] == 'n';
    assert name[0] == 'q';
    assert '/' !in name;
    PathJoinThrough(host.scriptLocation, dir, name);
    var full := PathJoin(host.scriptLocation, dir);
    assert full[|full| - 1] == 'n';
    DirNameJoin(full, name);
  }

  /** Where the demo is found. */
  datatype Output = Output(file: string, dir: string)

  /** The demo's output: an Android package whose name and directory depend
      on the Qt version, an Xcode project for iOS, an executable elsewhere
      (under `release` on Windows). */
  function DemoOutput(host: Host, target: string, newQt: bool): (o: Output)
    ensures StartsWith(target, "android") ==>
      o == (if newQt then Output("CrossPlatformDemoApp.apk", PathJoin("build-" + target, "android-build"))
            else Output("pyqt-demo-debug.apk", PathJoin("build-" + target, "pyqt-demo/build/outputs/apk/debug")))
    ensures !StartsWith(target, "android") && StartsWith(target, "ios") ==>
      o == Output("pyqt-demo.xcodeproj", "build-" + target)
    ensures !StartsWith(target, "android") && !StartsWith(target, "ios") ==>
      o.file == "pyqt-demo" &&
      o.dir == (if StartsWith(target, "win") || host.platform == "win32" then PathJoin("build-" + target, "release")
                else "build-" + target)
  {
    var buildDir := "build-" + target;
    if StartsWith(target, "android") then
      if newQt then Output("CrossPlatformDemoApp.apk", PathJoin(buildDir, "android-build"))
      else Output("pyqt-demo-debug.apk", PathJoin(buildDir, "pyqt-demo/build/outputs/apk/debug"))
    else if StartsWith(target, "ios") then Output("pyqt-demo.xcodeproj", buildDir)
    else if StartsWith(target, "win") || host.platform == "win32" then Output("pyqt-demo", PathJoin(buildDir, "release"))
    else Output("pyqt-demo", buildDir)
  }

  /** The whole script: exit code 2 before anything runs when a check fails;
      otherwise its plan. */
  method BuildDemoScript(cl: CommandLine, host: Host, outcome: seq<string> -> CallOutcome)
    returns (ran: seq<seq<string>>, exit: Option<int>, output: Option<Output>)
    ensures exit.Some? ==> exit.value != 0 && output.None?
    ensures Prepare(cl, host).Exit? ==> ran == [] && exit == Some(2)
    ensures Prepare(cl, host).Ok? ==>
      var s := Prepare(cl, host).value;
      var plan := DemoPlan(cl, host, s);
      && |ran| <= |plan| && ran == plan[..|ran|]
      && (RanInOrder(ran, exit, outcome) ||
          (QmakePath(host, s).None? && ran == plan && exit == Some(1) && RanInOrder(ran, None, outcome)))
      && (exit.None? ==>
            ran == plan && output == Some(DemoOutput(host, s.target, host.isFile(SettingsFile))))
  {
    var prepared := Prepare(cl, host);
    if prepared.Exit? {
      ran, exit, output := [], Some(prepared.code), None;
      return;
    }
    var target := ChooseTarget(cl.target, host.platform, DemoIs32(host.env, host.hostPlatform), host.pointerSize).value;
    var qmake := QmakeArg(cl, host.abspath);
    ran, exit, output := RunDemoPlan(cl, host, Setup(target, qmake), outcome);
  }

  /** The commands: what runs is a prefix of `DemoPlan`, ending at the
      first failing command, whose status becomes the exit code. When there
      is no qmake to run (no sysroot qmake and no `--qmake`), joining the
      command line fails with a TypeError and the interpreter exits with
      code 1. */
  method RunDemoPlan(cl: CommandLine, host: Host, s: Setup, outcome: seq<string> -> CallOutcome)
    returns (ran: seq<seq<string>>, exit: Option<int>, output: Option<Output>)
    ensures exit.Some? ==> exit.value != 0 && output.None? && ran != []
    ensures |ran| <= |DemoPlan(cl, host, s)| && ran == DemoPlan(cl, host, s)[..|ran|]
    ensures RanInOrder(ran, exit, outcome) ||
      (QmakePath(host, s).None? && ran == DemoPlan(cl, host, s) && exit == Some(1) && RanInOrder(ran, None, outcome))
    ensures exit.None? ==>
      ran == DemoPlan(cl, host, s) && output == Some(DemoOutput(host, s.target, host.isFile(SettingsFile)))
  {
    ran, exit, output := [], None, None;
    ghost var plan := DemoPlan(cl, host, s);
    var args := DemoSysrootArgs(s.target, cl.jobs, s.qmake, cl.quiet, cl.verbose);
    ran, exit := RunPlanned(plan, ran, exit, args, outcome);
    if exit.Some? {
      return;
    }
    args := DemoBuildArgs(s.target, s.qmake, cl.quiet, cl.verbose);
    ran, exit := RunPlanned(plan, ran, exit, args, outcome);
    if exit.Some? {
      return;
    }
    var qmakePath := QmakePath(host, s);
    if qmakePath.None? {
      assert ran == plan;
      exit := Some(1);
      return;
    }
    ran, exit := RunPlanned(plan, ran, exit, [qmakePath.value], outcome);
    if exit.Some? {
      return;
    }
    var newQt;
    ran, exit, newQt := RunDemoMakeSteps(plan, host, s.target, qmakePath.value, ran, outcome);
    if exit.Some? {
      return;
    }
    DemoOutputQtFlag(host, s.target);
    output := Some(DemoOutput(host, s.target, newQt));
  }

  /** Only an Android build's output depends on the Qt version. */
  lemma DemoOutputQtFlag(host: Host, target: string)
    ensures !StartsWith(target, "android") ==> DemoOutput(host, target, true) == DemoOutput(host, target, false)
  {
  }

  /** make (unless iOS) and the Android packaging. */
  method RunDemoMakeSteps(ghost plan: seq<seq<string>>, host: Host, target: string, qmakePath: string,
                          ran0: seq<seq<string>>, outcome: seq<string> -> CallOutcome)
    returns (ran: seq<seq<string>>, exit: Option<int>, newQt: bool)
    requires RanInOrder(ran0, None, outcome)
    requires |plan| == |ran0| + |DemoMakeSteps(host, target, qmakePath)| && ran0 == plan[..|ran0|]
    requires forall i :: 0 <= i < |DemoMakeSteps(host, target, qmakePath)| ==>
      plan[|ran0| + i] == DemoMakeSteps(host, target, qmakePath)[i]
    ensures RanInOrder(ran, exit, outcome)
    ensures exit.Some? ==> exit.value != 0 && ran != []
    ensures |ran| <= |plan| && ran == plan[..|ran|]
    ensures exit.None? ==> ran == plan
    ensures exit.None? && StartsWith(target, "android") ==> newQt == host.isFile(SettingsFile)
  {
    ran, exit, newQt := ran0, None, false;
    ghost var steps := DemoMakeSteps(host, target, qmakePath);
    ghost var k := |ran0|;
    if StartsWith(target, "android") {
      AndroidRunsMake(target);
    }
    if !StartsWith(target, "ios") {
      var make := MakeTool(host.platform);
      assert plan[k] == steps[0];
      ran, exit := RunPlanned(plan, ran, exit, [make], outcome);
      if exit.Some? {
        return;
      }
      if StartsWith(target, "android") {
        if host.isFile(SettingsFile) {
          assert plan[k + 1] == steps[1];
          ran, exit := RunPlanned(plan, ran, exit, [make, "apk"], outcome);
          newQt := true;
        } else {
          assert plan[k + 1] == steps[1];
          ran, exit := RunPlanned(plan, ran, exit, [make, "INSTALL_ROOT=" + "pyqt-demo", "install"], outcome);
          if exit.Some? {
            return;
          }
          assert plan[k + 2] == steps[2];
          ran, exit := RunPlanned(plan, ran, exit,
            [PathJoin(DirName(qmakePath), "androiddeployqt"), "--gradle", "--input",
             "android-libpyqt-demo.so-deployment-settings.json", "--output", "pyqt-demo"], outcome);
        }
      }
    }
    assert exit.None? ==> |ran| == |plan|;
  }
}
