/** utils/build_app.py: reads the application's name, entry point and
    package directory from `config_app.pdy`, picks the target, then runs
    pyqtdeploy-sysroot, pyqtdeploy-build, qmake and make, and names the
    built application for the release directory. The parsed `.pdy` tree,
    the host (platform, environment, pointer size, directories and the file
    tests) and the outcome of each command are inputs. */
module BuildApp {
  import opened Wrappers
  import opened PyStrings
  import opened BuildCommon
  import opened PdyParser

  const AppNameDefault: string := "MyApp"
  const PdyFile: string := "config_app.pdy"

  /** The command line. */
  datatype CommandLine = CommandLine(
    installedQtDir: Option<string>, noSysroot: bool, sourceDirs: seq<string>,
    target: string, quiet: bool, verbose: bool)

  /** What the script asks of its host. `scriptDir` is the directory of the
      script's real path, `scriptLocation` that of its absolute path (the
      script changes into it); `pathExists`, `isFile` and `isDir` answer
      `os.path.exists`, `os.path.isfile` and `os.path.isdir` at the moment
      they are asked. */
  datatype Host = Host(
    platform: string, env: map<string, string>, pointerSize: nat,
    scriptDir: string, scriptLocation: string,
    abspath: string -> string, pathExists: string -> bool, isFile: string -> bool,
    isDir: string -> bool)

  /** The three fields the script needs from the `.pdy` file. */
  datatype AppInfo = AppInfo(name: string, entrypoint: string, packageDir: string)

  function PdyPath(host: Host): string
  {
    PathJoin(host.scriptDir, PdyFile)
  }

  /** The `.pdy` checks: a missing file exits with 2; a getter that fails
      exits with 1; an empty name becomes "MyApp"; an empty package
      directory exits with 2. The empty-entry-point check can never fire,
      since the getter always returns a name ending in `.py`. */
  function ReadAppInfo(pdyExists: bool, root: Element): (r: Result<AppInfo>)
    ensures r.Exit? ==> r.code == 1 || r.code == 2
    ensures !pdyExists ==> r == Exit(2)
    ensures r == Exit(2) <==>
      (!pdyExists ||
       (GetAppName(root).Ok? && GetAppEntrypointScriptName(root).Ok? &&
        GetAppPackagePath(root) == Ok("")))
    ensures r.Ok? <==>
      (pdyExists && GetAppName(root).Ok? && GetAppEntrypointScriptName(root).Ok? &&
       GetAppPackagePath(root).Ok? && GetAppPackagePath(root).value != "")
    ensures r.Ok? ==>
      && r.value.name == (if GetAppName(root).value == "" then AppNameDefault else GetAppName(root).value)
      && r.value.name != ""
      && r.value.entrypoint == GetAppEntrypointScriptName(root).value
      && r.value.packageDir == GetAppPackagePath(root).value
  {
    if !pdyExists then Exit(2)
    else match GetAppName(root)
      case Exit(code) => Exit(code)
      case Ok(parsed) =>
        var name := if parsed == "" then AppNameDefault else parsed;
        match GetAppEntrypointScriptName(root)
        case Exit(code) => Exit(code)
        case Ok(entry) =>
          if entry == "" then Exit(2)
          else match GetAppPackagePath(root)
            case Exit(code) => Exit(code)
            case Ok(packageDir) =>
              if packageDir == "" then Exit(2) else Ok(AppInfo(name, entry, packageDir))
  }

  /** Everything decided before the first command runs. */
  datatype Setup = Setup(info: AppInfo, target: string, dirs: seq<string>)

  /** The checks in the order the script makes them (`.pdy` fields, target,
      Qt directory), then the source directories. */
  function Prepare(cl: CommandLine, host: Host, root: Element): (r: Result<Setup>)
    ensures ReadAppInfo(host.pathExists(PdyPath(host)), root).Exit? ==>
      r == Exit(ReadAppInfo(host.pathExists(PdyPath(host)), root).code)
    ensures ReadAppInfo(host.pathExists(PdyPath(host)), root).Ok? ==>
      var target := ChooseTarget(cl.target, host.platform, Is32(host.env), host.pointerSize);
      && (target.Exit? ==> r == Exit(2))
      && (target.Ok? ==> (r == Exit(2) <==> target.value in MobileTargets && !Truthy(cl.installedQtDir)))
      && (r.Ok? ==> r.value == Setup(ReadAppInfo(host.pathExists(PdyPath(host)), root).value, target.value,
                                     SourceDirList(cl.sourceDirs, cl.installedQtDir, host.abspath)))
    ensures r.Ok? ==> !(r.value.target in MobileTargets && !Truthy(cl.installedQtDir))
  {
    match ReadAppInfo(host.pathExists(PdyPath(host)), root)
    case Exit(code) => Exit(code)
    case Ok(info) =>
      match ChooseTarget(cl.target, host.platform, Is32(host.env), host.pointerSize)
      case Exit(code) => Exit(code)
      case Ok(target) =>
        if target in MobileTargets && !Truthy(cl.installedQtDir) then Exit(2)
        else Ok(Setup(info, target, SourceDirList(cl.sourceDirs, cl.installedQtDir, host.abspath)))
  }

  /** `os.path.abspath(os.path.join(sysroot_dir, 'host', 'bin'))`, taken
      after the script has changed into its own directory. */
  function HostBinDir(host: Host, target: string): string
  {
    PathJoin(host.scriptLocation, "sysroot-" + target + "/host/bin")
  }

  /** The name of the deployment-settings file Qt 5.14 and later leave in
      the build directory. */
  function SettingsFile(name: string): string
  {
    "android-" + name + "-deployment-settings.json"
  }

  /** The commands that package an Android build. */
  function AndroidSteps(make: string, info: AppInfo, hostBinDir: string, newQt: bool): seq<seq<string>>
  {
    if newQt then [[make, "apk", "--debug"]]
    else [[make, "INSTALL_ROOT=" + info.entrypoint, "install"],
          [PathJoin(hostBinDir, "androiddeployqt"), "--gradle", "--verbose",
           "--input", "android-lib" + info.name + ".so-deployment-settings.json",
           "--output", info.entrypoint]]
  }

  /** The commands run after qmake: none for iOS, make, then the Android
      packaging steps. */
  function MakeSteps(host: Host, s: Setup): seq<seq<string>>
  {
    if !RunsMake(s.target) then []
    else
      var make := MakeTool(host.platform);
      [[make]] +
        (if StartsWith(s.target, "android")
         then AndroidSteps(make, s.info, HostBinDir(host, s.target), host.isFile(SettingsFile(s.info.name)))
         else [])
  }

  function BuildCommand(host: Host, target: string): seq<string>
  {
    ["pyqtdeploy-build", "--target", target, "--sysroot", "sysroot-" + target,
     "--build-dir", "build-" + target, PdyPath(host)]
  }

  /** Every command the script runs when each of them succeeds, in order. */
  function AppPlan(cl: CommandLine, host: Host, s: Setup): seq<seq<string>>
  {
    (if cl.noSysroot then [] else [SysrootCommand(s.target, s.dirs, cl.quiet, cl.verbose)]) +
      [BuildCommand(host, s.target), [PathJoin(HostBinDir(host, s.target), "qmake")]] +
      MakeSteps(host, s)
  }

  /** The plan builds the sysroot first unless told not to, then always
      builds the application for the `.pdy` and runs the sysroot's qmake;
      make runs next unless the target is iOS, and Android adds either the
      `apk` step (Qt 5.14 or later) or install and androiddeployqt. */
  lemma {:induction false} AppPlanSteps(cl: CommandLine, host: Host, s: Setup)
    ensures var plan := AppPlan(cl, host, s);
      var k := if cl.noSysroot then 0 else 1;
      && (!cl.noSysroot ==> plan[0] == SysrootCommand(s.target, s.dirs, cl.quiet, cl.verbose))
      && plan[k] == BuildCommand(host, s.target) && plan[k][|plan[k]| - 1] == PdyPath(host)
      && plan[k + 1] == [PathJoin(HostBinDir(host, s.target), "qmake")]
      && (StartsWith(s.target, "ios") ==> |plan| == k + 2)
      && (!StartsWith(s.target, "ios") ==> plan[k + 2] == [MakeTool(host.platform)])
      && (!StartsWith(s.target, "ios") && !StartsWith(s.target, "android") ==> |plan| == k + 3)
      && (StartsWith(s.target, "android") ==>
            var steps := AndroidSteps(MakeTool(host.platform), s.info, HostBinDir(host, s.target),
                                      host.isFile(SettingsFile(s.info.name)));
            |plan| == k + 3 + |steps| && forall i :: 0 <= i < |steps| ==> plan[k + 3 + i] == steps[i])
  {
    var plan := AppPlan(cl, host, s);
    var k := if cl.noSysroot then 0 else 1;
    var head := (if cl.noSysroot then [] else [SysrootCommand(s.target, s.dirs, cl.quiet, cl.verbose)]);
    assert |head| == k;
    assert plan[k] == BuildCommand(host, s.target);
    if StartsWith(s.target, "android") {
      AndroidRunsMake(s.target);
    }
  }

  /** The first commands of the plan: the sysroot unless told not to, the
      build, then qmake. */
  lemma AppPlanHead(cl: CommandLine, host: Host, s: Setup)
    ensures var plan := AppPlan(cl, host, s);
      var k := if cl.noSysroot then 0 else 1;
      && |plan| >= k + 2
      && (!cl.noSysroot ==> plan[0] == SysrootCommand(s.target, s.dirs, cl.quiet, cl.verbose))
      && plan[k] == BuildCommand(host, s.target)
      && plan[k + 1] == [PathJoin(HostBinDir(host, s.target), "qmake")]
  {
    var k := if cl.noSysroot then 0 else 1;
    var head := (if cl.noSysroot then [] else [SysrootCommand(s.target, s.dirs, cl.quiet, cl.verbose)]);
    assert |head| == k;
  }

  /** Where the built application is found, the name it is given in the
      release directory, and whether the release step renames the copy to
      that name (an old-Qt Android package) or keeps the copy's own name. */
  datatype Output = Output(file: string, dir: string, releasedAs: string, renamed: bool)

  /** The output naming: an Android package is always released as
      `<name>.apk`; with Qt 5.13 or earlier it is built as
      `<entrypoint>-debug.apk` under the Gradle output tree, with Qt 5.14 or
      later as `<name>.apk` under `android-build`. iOS gives an Xcode
      project, Windows an executable under `release`. */
  function AppOutput(host: Host, target: string, info: AppInfo, newQt: bool): (o: Output)
    ensures StartsWith(target, "android") ==> o.releasedAs == info.name + ".apk" && EndsWith(o.file, ".apk")
    ensures o.renamed <==> StartsWith(target, "android") && !newQt
    ensures StartsWith(target, "android") && !newQt ==>
      o.file == info.entrypoint + "-debug.apk" &&
      o.dir == PathJoin(PathJoin(PathJoin(host.scriptDir, "build-" + target), info.entrypoint), "build/outputs/apk/debug")
    ensures StartsWith(target, "android") && newQt ==>
      o.file == info.name + ".apk" && o.dir == PathJoin("build-" + target, "android-build")
    ensures !StartsWith(target, "android") ==> o.releasedAs == o.file
    ensures !StartsWith(target, "android") && StartsWith(target, "ios") ==>
      o.file == info.entrypoint + ".xcodeproj" && o.dir == "build-" + target
    ensures !StartsWith(target, "android") && !StartsWith(target, "ios") ==>
      o.file == info.entrypoint &&
      o.dir == (if StartsWith(target, "win") || host.platform == "win32" then PathJoin("build-" + target, "release")
                else "build-" + target)
  {
    var buildDir := "build-" + target;
    if StartsWith(target, "android") then
      if !newQt then
        var file := info.entrypoint + "-debug.apk";
        assert EndsWith(file, ".apk") by { assert file[|file| - 4..] == ".apk"; }
        Output(file, PathJoin(PathJoin(PathJoin(host.scriptDir, buildDir), info.entrypoint), "build/outputs/apk/debug"),
               info.name + ".apk", true)
      else
        var file := info.name + ".apk";
        assert EndsWith(file, ".apk") by { assert file[|file| - 4..] == ".apk"; }
        Output(file, PathJoin(buildDir, "android-build"), file, false)
    else if StartsWith(target, "ios") then
      Output(info.entrypoint + ".xcodeproj", buildDir, info.entrypoint + ".xcodeproj", false)
    else if StartsWith(target, "win") || host.platform == "win32" then
      Output(info.entrypoint, PathJoin(buildDir, "release"), info.entrypoint, false)
    else
      Output(info.entrypoint, buildDir, info.entrypoint, false)
  }

  /** `<package dir>/releases/<timestamp>`, the timestamp given. The script
      creates it as soon as the `.pdy` fields have been read. */
  function ReleaseDir(info: AppInfo, timestamp: string): (d: string)
    ensures d == PathJoinAll([info.packageDir, "releases", timestamp])
  {
    var parts := [info.packageDir, "releases", timestamp];
    assert parts[..2] == [info.packageDir, "releases"] && parts[..2][..1] == [info.packageDir];
    assert PathJoinAll(parts[..2]) == PathJoin(info.packageDir, "releases");
    PathJoin(PathJoin(info.packageDir, "releases"), timestamp)
  }

  /** The built output, as the release step names it. */
  function BuiltPath(o: Output): string
  {
    PathJoin(o.dir, o.file)
  }

  /** Where `shutil.copy(src, d)` puts its copy when `d` is a directory:
      `d` joined with the last component of `src`, so the copy lands
      directly inside `d` whatever directories `src` names. */
  function CopyInto(src: string, d: string): (r: string)
    ensures BaseName(r) == BaseName(src)
    ensures d != [] && d[|d| - 1] != '/' ==> DirName(r) == d
  {
    BaseNameJoin(d, BaseName(src));
    if d != [] && d[|d| - 1] != '/' then
      DirNameJoin(d, BaseName(src));
      PathJoin(d, BaseName(src))
    else PathJoin(d, BaseName(src))
  }

  /** The release step as intended: the output, file or directory, is
      copied into the release directory (which the script has created), and
      an old-Qt Android package is then renamed there from
      `<entrypoint>-debug.apk` to `<name>.apk`. A source path ending in '/'
      has no last component and nothing is copied (exit 1). `present` and
      `isDir` describe the file system once the build is done: `os.rename`
      fails (exit 1) unless its source exists, being the copy just made or a
      path already there, and the directory of its target exists. */
  function ReleaseCorrected(o: Output, releaseDir: string, present: string -> bool, isDir: string -> bool)
    : (r: Result<string>)
    ensures r.Exit? ==> r.code == 1
    ensures BaseName(BuiltPath(o)) == [] ==> r.Exit?
    ensures !o.renamed ==> (r.Ok? <==> BaseName(BuiltPath(o)) != [])
    ensures r.Ok? && !o.renamed ==> BaseName(r.value) == BaseName(o.file)
    ensures r.Ok? && !o.renamed && releaseDir != [] && releaseDir[|releaseDir| - 1] != '/' ==>
      DirName(r.value) == releaseDir
    ensures r.Ok? && o.renamed ==> r.value == PathJoin(releaseDir, o.releasedAs)
    ensures o.renamed && BaseName(BuiltPath(o)) != [] ==>
      var from := PathJoin(releaseDir, o.file);
      var to := PathJoin(releaseDir, o.releasedAs);
      (r.Ok? <==>
         (from == CopyInto(BuiltPath(o), releaseDir) || present(from)) &&
         (DirName(to) == releaseDir || isDir(DirName(to))))
  {
    BaseNameJoinAny(o.dir, o.file);
    var copied := CopyInto(BuiltPath(o), releaseDir);
    if BaseName(BuiltPath(o)) == [] then Exit(1)
    else if !o.renamed then Ok(copied)
    else
      var from := PathJoin(releaseDir, o.file);
      var to := PathJoin(releaseDir, o.releasedAs);
      if (from == copied || present(from)) && (DirName(to) == releaseDir || isDir(DirName(to))) then Ok(to)
      else Exit(1)
  }

  /** For plain names, with no '/' in the built file or the released name,
      the release lands in the release directory under the released name,
      whatever the file system holds. */
  lemma ReleasePlainNames(o: Output, releaseDir: string, present: string -> bool, isDir: string -> bool)
    requires o.file != [] && '/' !in o.file && '/' !in o.releasedAs
    requires !o.renamed ==> o.releasedAs == o.file
    requires releaseDir != [] && releaseDir[|releaseDir| - 1] != '/'
    ensures ReleaseCorrected(o, releaseDir, present, isDir) == Ok(PathJoin(releaseDir, o.releasedAs))
  {
    BaseNameJoin(o.dir, o.file);
    DirNameJoin(releaseDir, o.releasedAs);
  }

  /** The release step as written: `shutil.copy` of the built output into
      the release directory, followed for an old-Qt Android package by the
      rename. `shutil.copy` opens its source as a file, so a directory
      raises IsADirectoryError and the script exits with 1; otherwise it
      does what is intended. */
  function Release(o: Output, releaseDir: string, present: string -> bool, isDir: string -> bool)
    : (r: Result<string>)
    ensures isDir(BuiltPath(o)) ==> r == Exit(1)
    ensures !isDir(BuiltPath(o)) ==> r == ReleaseCorrected(o, releaseDir, present, isDir)
  {
    if isDir(BuiltPath(o)) then Exit(1) else ReleaseCorrected(o, releaseDir, present, isDir)
  }

  /** Whatever directories the built file name holds (an entry point
      `a/b:main` gives the desktop output `a/b.py`), a copy that is not
      renamed lands directly in the release directory under the file's last
      component (`b.py`). */
  lemma ReleaseKeepsBaseName(o: Output, releaseDir: string, present: string -> bool, isDir: string -> bool)
    requires !o.renamed && !isDir(BuiltPath(o)) && BaseName(o.file) != []
    ensures Release(o, releaseDir, present, isDir) == Ok(PathJoin(releaseDir, BaseName(o.file)))
  {
    BaseNameJoinAny(o.dir, o.file);
  }

  /** An iOS build leaves `<entrypoint>.xcodeproj`, which is a directory; the
      release step as written then fails with exit 1 after a successful
      build, where the intended release copies the project into the release
      directory. */
  lemma IosReleaseFails(host: Host, target: string, info: AppInfo, newQt: bool, releaseDir: string)
    requires StartsWith(target, "ios") && !StartsWith(target, "android")
    requires host.isDir(BuiltPath(AppOutput(host, target, info, newQt)))
    ensures var o := AppOutput(host, target, info, newQt);
      && o.file == info.entrypoint + ".xcodeproj"
      && Release(o, releaseDir, host.pathExists, host.isDir) == Exit(1)
      && var r := ReleaseCorrected(o, releaseDir, host.pathExists, host.isDir);
      && r.Ok? && BaseName(r.value) == BaseName(o.file)
      && (releaseDir != [] && releaseDir[|releaseDir| - 1] != '/' ==> DirName(r.value) == releaseDir)
  {
    var o := AppOutput(host, target, info, newQt);
    var file := info.entrypoint + ".xcodeproj";
    assert file[|file| - 1] == 'j';
    BaseNameNonEmpty(file);
    BaseNameJoinAny(o.dir, o.file);
  }

  /** The whole script. It stops with exit code 1 or 2 before running
      anything when a check fails; otherwise it runs its plan. Once the
      `.pdy` fields are read the release directory present (`releaseDir`);
      after a full run the output is copied there (`released`), which fails
      with exit 1 when the output is a directory. */
  method BuildAppScript(cl: CommandLine, host: Host, root: Element, timestamp: string,
                        outcome: seq<string> -> CallOutcome)
    returns (ran: seq<seq<string>>, exit: Option<int>, output: Option<Output>,
             releaseDir: Option<string>, released: Option<Result<string>>)
    ensures RanInOrder(ran, exit, outcome)
    ensures exit.Some? ==> exit.value != 0 && output.None? && released.None?
    ensures var read := ReadAppInfo(host.pathExists(PdyPath(host)), root);
      releaseDir == if read.Ok? then Some(ReleaseDir(read.value, timestamp)) else None
    ensures Prepare(cl, host, root).Exit? ==> ran == [] && exit == Some(Prepare(cl, host, root).code)
    ensures Prepare(cl, host, root).Ok? ==>
      var s := Prepare(cl, host, root).value;
      var plan := AppPlan(cl, host, s);
      && |ran| <= |plan| && ran == plan[..|ran|]
      && (exit.Some? ==> ran != [])
      && (exit.None? ==>
            var o := AppOutput(host, s.target, s.info, host.isFile(SettingsFile(s.info.name)));
            && ran == plan && output == Some(o)
            && released == Some(Release(o, ReleaseDir(s.info, timestamp), host.pathExists, host.isDir)))
  {
    var read := ReadAppInfo(host.pathExists(PdyPath(host)), root);
    releaseDir := if read.Ok? then Some(ReleaseDir(read.value, timestamp)) else None;
    released := None;
    var prepared := Prepare(cl, host, root);
    if prepared.Exit? {
      ran, exit, output := [], Some(prepared.code), None;
      return;
    }
    var info := read.value;
    var target := ChooseTarget(cl.target, host.platform, Is32(host.env), host.pointerSize).value;
    var dirs := SourceDirs(cl.sourceDirs, cl.installedQtDir, host.abspath);
    ran, exit, output := RunAppPlan(cl, host, Setup(info, target, dirs), outcome);
    if exit.None? {
      var o := output.value;
      released := Some(Release(o, releaseDir.value, host.pathExists, host.isDir));
    }
  }

  /** The commands, from the sysroot to packaging: what runs is always a
      prefix of `AppPlan`, ending at the first command that fails, whose
      status becomes the exit code. On success it names the output. */
  method RunAppPlan(cl: CommandLine, host: Host, s: Setup, outcome: seq<string> -> CallOutcome)
    returns (ran: seq<seq<string>>, exit: Option<int>, output: Option<Output>)
    ensures RanInOrder(ran, exit, outcome)
    ensures exit.Some? ==> exit.value != 0 && output.None? && ran != []
    ensures |ran| <= |AppPlan(cl, host, s)| && ran == AppPlan(cl, host, s)[..|ran|]
    ensures exit.None? ==>
      ran == AppPlan(cl, host, s) &&
      output == Some(AppOutput(host, s.target, s.info, host.isFile(SettingsFile(s.info.name))))
  {
    output := None;
    AppPlanSteps(cl, host, s);
    ran, exit := RunAppHead(cl, host, s, outcome);
    if exit.Some? {
      return;
    }
    var newQt;
    ran, exit, newQt := RunMakeSteps(cl, host, s, ran, outcome);
    if exit.Some? {
      return;
    }
    AppOutputQtFlag(host, s.target, s.info);
    output := Some(AppOutput(host, s.target, s.info, newQt));
  }

  /** Only an Android build's output depends on the Qt version. */
  lemma AppOutputQtFlag(host: Host, target: string, info: AppInfo)
    ensures !StartsWith(target, "android") ==> AppOutput(host, target, info, true) == AppOutput(host, target, info, false)
  {
  }

  /** The sysroot (unless `--no-sysroot`), the application build and qmake. */
  method RunAppHead(cl: CommandLine, host: Host, s: Setup, outcome: seq<string> -> CallOutcome)
    returns (ran: seq<seq<string>>, exit: Option<int>)
    ensures RanInOrder(ran, exit, outcome)
    ensures exit.Some? ==> exit.value != 0 && ran != []
    ensures |ran| <= |AppPlan(cl, host, s)| && ran == AppPlan(cl, host, s)[..|ran|]
    ensures exit.None? ==> |ran| == (if cl.noSysroot then 2 else 3)
  {
    ran, exit := [], None;
    ghost var plan := AppPlan(cl, host, s);
    AppPlanHead(cl, host, s);
    if !cl.noSysroot {
      var args := SysrootArgs(s.target, s.dirs, cl.quiet, cl.verbose);
      ran, exit := RunPlanned(plan, ran, exit, args, outcome);
      if exit.Some? {
        return;
      }
    }
    ran, exit := RunPlanned(plan, ran, exit, BuildCommand(host, s.target), outcome);
    if exit.Some? {
      return;
    }
    ran, exit := RunPlanned(plan, ran, exit, [PathJoin(HostBinDir(host, s.target), "qmake")], outcome);
  }

  /** make (unless the target is iOS) and the Android packaging; the flag
      returned says whether the Qt 5.14 `apk` step was taken. */
  method RunMakeSteps(cl: CommandLine, host: Host, s: Setup, ran0: seq<seq<string>>, outcome: seq<string> -> CallOutcome)
    returns (ran: seq<seq<string>>, exit: Option<int>, newQt: bool)
    requires RanInOrder(ran0, None, outcome)
    requires |ran0| == (if cl.noSysroot then 2 else 3) && ran0 == AppPlan(cl, host, s)[..|ran0|]
    ensures RanInOrder(ran, exit, outcome)
    ensures exit.Some? ==> exit.value != 0 && ran != []
    ensures |ran| <= |AppPlan(cl, host, s)| && ran == AppPlan(cl, host, s)[..|ran|]
    ensures exit.None? ==> ran == AppPlan(cl, host, s)
    ensures exit.None? && StartsWith(s.target, "android") ==> newQt == host.isFile(SettingsFile(s.info.name))
  {
    ran, exit, newQt := ran0, None, false;
    ghost var plan := AppPlan(cl, host, s);
    AppPlanSteps(cl, host, s);
    if StartsWith(s.target, "android") {
      AndroidRunsMake(s.target);
    }
    if !StartsWith(s.target, "ios") {
      var make := MakeTool(host.platform);
      ran, exit := RunPlanned(plan, ran, exit, [make], outcome);
      if exit.Some? {
        return;
      }
      if StartsWith(s.target, "android") {
        ran, exit, newQt := RunAndroidSteps(plan, |ran0| + 1, host, s, ran, outcome);
      }
    }
  }

  /** `make apk --debug` when Qt 5.14's deployment-settings file is there;
      otherwise `make install` into the entry point's directory and
      androiddeployqt from the sysroot. */
  method RunAndroidSteps(ghost plan: seq<seq<string>>, ghost k: nat, host: Host, s: Setup,
                         ran0: seq<seq<string>>, outcome: seq<string> -> CallOutcome)
    returns (ran: seq<seq<string>>, exit: Option<int>, newQt: bool)
    requires RanInOrder(ran0, None, outcome)
    requires var steps := AndroidSteps(MakeTool(host.platform), s.info, HostBinDir(host, s.target),
                                       host.isFile(SettingsFile(s.info.name)));
      && |ran0| == k && |plan| == k + |steps| && ran0 == plan[..k]
      && forall i :: 0 <= i < |steps| ==> plan[k + i] == steps[i]
    ensures RanInOrder(ran, exit, outcome)
    ensures exit.Some? ==> exit.value != 0 && ran != []
    ensures |ran| <= |plan| && ran == plan[..|ran|]
    ensures exit.None? ==> ran == plan && newQt == host.isFile(SettingsFile(s.info.name))
  {
    ran, exit := ran0, None;
    var make := MakeTool(host.platform);
    var hostBinDir := HostBinDir(host, s.target);
    ghost var steps := AndroidSteps(make, s.info, hostBinDir, host.isFile(SettingsFile(s.info.name)));
    assert plan[k] == steps[0];
    if host.isFile(SettingsFile(s.info.name)) {
      ran, exit := RunPlanned(plan, ran, exit, [make, "apk", "--debug"], outcome);
      newQt := true;
    } else {
      newQt := false;
      ran, exit := RunPlanned(plan, ran, exit, [make, "INSTALL_ROOT=" + s.info.entrypoint, "install"], outcome);
      if exit.Some? {
        return;
      }
      assert plan[k + 1] == steps[1];
      ran, exit := RunPlanned(plan, ran, exit,
        [PathJoin(hostBinDir, "androiddeployqt"), "--gradle", "--verbose",
         "--input", "android-lib" + s.info.name + ".so-deployment-settings.json",
         "--output", s.info.entrypoint], outcome);
    }
    assert exit.None? ==> |ran| == |plan|;
  }
}
