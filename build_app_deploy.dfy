/** pyqtdeploy-app/build-app.py: the same target choice, Qt-directory check,
    source directories and sysroot command as utils/build_app.py, for the
    fixed project `example-pyqt5-app.pdy`; an Android build always packages
    with make install and androiddeployqt. It takes the same command line
    and host as `BuildApp`, of which it uses the platform, environment,
    pointer size, the script's directory and `abspath`. */
module BuildAppDeploy {
  import opened Wrappers
  import opened PyStrings
  import opened BuildCommon
  import BuildApp

  const Project: string := "example-pyqt5-app"

  /** Everything decided before the first command runs. */
  datatype Setup = Setup(target: string, dirs: seq<string>)

  /** The target (exit 2 on an unsupported platform), then the Qt-directory
      check for the mobile targets (exit 2), then the source directories. */
  function Prepare(cl: BuildApp.CommandLine, host: BuildApp.Host): (r: Result<Setup>)
    ensures r.Exit? ==> r.code == 2
    ensures var target := ChooseTarget(cl.target, host.platform, Is32(host.env), host.pointerSize);
      && (target.Exit? ==> r.Exit?)
      && (target.Ok? ==> (r.Exit? <==> target.value in MobileTargets && !Truthy(cl.installedQtDir)))
      && (r.Ok? ==> r.value == Setup(target.value, SourceDirList(cl.sourceDirs, cl.installedQtDir, host.abspath)))
  {
    match ChooseTarget(cl.target, host.platform, Is32(host.env), host.pointerSize)
    case Exit(code) => Exit(code)
    case Ok(target) =>
      if target in MobileTargets && !Truthy(cl.installedQtDir) then Exit(2)
      else Ok(Setup(target, SourceDirList(cl.sourceDirs, cl.installedQtDir, host.abspath)))
  }

  function DeployBuildCommand(target: string): seq<string>
  {
    ["pyqtdeploy-build", "--target", target, "--sysroot", "sysroot-" + target,
     "--build-dir", "build-" + target, Project + ".pdy"]
  }

  /** The commands after qmake: none for iOS; make; and for Android make
      install into the project's directory, then androiddeployqt. */
  function DeployMakeSteps(host: BuildApp.Host, target: string): seq<seq<string>>
  {
    if !RunsMake(target) then []
    else
      var make := MakeTool(host.platform);
      [[make]] +
        (if StartsWith(target, "android")
         then [[make, "INSTALL_ROOT=" + Project, "install"],
               [PathJoin(BuildApp.HostBinDir(host, target), "androiddeployqt"), "--gradle",
                "--input", "android-lib" + Project + ".so-deployment-settings.json", "--output", Project]]
         else [])
  }

  /** Every command the script runs when each succeeds, in order. */
  function DeployPlan(cl: BuildApp.CommandLine, host: BuildApp.Host, s: Setup): seq<seq<string>>
  {
    (if cl.noSysroot then [] else [SysrootCommand(s.target, s.dirs, cl.quiet, cl.verbose)]) +
      [DeployBuildCommand(s.target), [PathJoin(BuildApp.HostBinDir(host, s.target), "qmake")]] +
      DeployMakeSteps(host, s.target)
  }

  /** The plan builds the sysroot first unless told not to, then always
      builds `example-pyqt5-app.pdy` into `build-T` and runs the sysroot's
      qmake; make follows unless the target is iOS, and for Android make
      install and androiddeployqt come after make, in that order. */
  lemma DeployPlanSteps(cl: BuildApp.CommandLine, host: BuildApp.Host, s: Setup)
    ensures var plan := DeployPlan(cl, host, s);
      var k := if cl.noSysroot then 0 else 1;
      var make := MakeTool(host.platform);
      && (!cl.noSysroot ==> plan[0] == SysrootCommand(s.target, s.dirs, cl.quiet, cl.verbose))
      && plan[k] == DeployBuildCommand(s.target)
      && plan[k][|plan[k]| - 1] == Project + ".pdy" && plan[k][6] == "build-" + s.target
      && plan[k + 1] == [PathJoin(BuildApp.HostBinDir(host, s.target), "qmake")]
      && (StartsWith(s.target, "ios") ==> |plan| == k + 2)
      && (!StartsWith(s.target, "ios") ==> plan[k + 2] == [make])
      && (!StartsWith(s.target, "ios") && !StartsWith(s.target, "android") ==> |plan| == k + 3)
      && (StartsWith(s.target, "android") ==>
            |plan| == k + 5 && plan[k + 3] == [make, "INSTALL_ROOT=" + Project, "install"] &&
            plan[k + 4][0] == PathJoin(BuildApp.HostBinDir(host, s.target), "androiddeployqt"))
  {
    var plan := DeployPlan(cl, host, s);
    var k := if cl.noSysroot then 0 else 1;
    var head := if cl.noSysroot then [] else [SysrootCommand(s.target, s.dirs, cl.quiet, cl.verbose)];
    assert |head| == k;
    assert plan[k] == DeployBuildCommand(s.target);
    if StartsWith(s.target, "android") {
      AndroidRunsMake(s.target);
    }
  }

  /** Where the built example is found. */
  datatype Output = Output(file: string, dir: string)

  /** An Android debug package under the Gradle output tree, an Xcode
      project for iOS, an executable elsewhere (under `release` on
      Windows). */
  function DeployOutput(host: BuildApp.Host, target: string): (o: Output)
    ensures StartsWith(target, "android") ==>
      o == Output(Project + "-debug.apk", PathJoin("build-" + target, Project + "/build/outputs/apk/debug"))
    ensures !StartsWith(target, "android") && StartsWith(target, "ios") ==>
      o == Output(Project + ".xcodeproj", "build-" + target)
    ensures !StartsWith(target, "android") && !StartsWith(target, "ios") ==>
      o.file == Project &&
      o.dir == (if StartsWith(target, "win") || host.platform == "win32" then PathJoin("build-" + target, "release")
                else "build-" + target)
  {
    var buildDir := "build-" + target;
    if StartsWith(target, "android") then
      Output(Project + "-debug.apk", PathJoin(buildDir, Project + "/build/outputs/apk/debug"))
    else if StartsWith(target, "ios") then Output(Project + ".xcodeproj", buildDir)
    else if StartsWith(target, "win") || host.platform == "win32" then Output(Project, PathJoin(buildDir, "release"))
    else Output(Project, buildDir)
  }

  /** The whole script: exit code 2 before anything runs when a check
      fails; otherwise a prefix of its plan, ending at the first failing
      command, whose status becomes the exit code. */
  method BuildAppDeployScript(cl: BuildApp.CommandLine, host: BuildApp.Host, outcome: seq<string> -> CallOutcome)
    returns (ran: seq<seq<string>>, exit: Option<int>, output: Option<Output>)
    ensures RanInOrder(ran, exit, outcome)
    ensures exit.Some? ==> exit.value != 0 && output.None?
    ensures Prepare(cl, host).Exit? ==> ran == [] && exit == Some(2)
    ensures Prepare(cl, host).Ok? ==>
      var s := Prepare(cl, host).value;
      var plan := DeployPlan(cl, host, s);
      && |ran| <= |plan| && ran == plan[..|ran|]
      && (exit.Some? ==> ran != [])
      && (exit.None? ==> ran == plan && output == Some(DeployOutput(host, s.target)))
  {
    ran, exit, output := [], None, None;
    var prepared := Prepare(cl, host);
    if prepared.Exit? {
      exit := Some(prepared.code);
      return;
    }
    var target := ChooseTarget(cl.target, host.platform, Is32(host.env), host.pointerSize).value;
    var dirs := SourceDirs(cl.sourceDirs, cl.installedQtDir, host.abspath);
    var s := Setup(target, dirs);
    ran, exit := RunDeployHead(cl, host, s, outcome);
    if exit.Some? {
      return;
    }
    ran, exit := RunDeployMakeSteps(cl, host, s, ran, outcome);
    if exit.Some? {
      return;
    }
    output := Some(DeployOutput(host, target));
  }

  /** The sysroot (unless `--no-sysroot`), the build and qmake. */
  method RunDeployHead(cl: BuildApp.CommandLine, host: BuildApp.Host, s: Setup, outcome: seq<string> -> CallOutcome)
    returns (ran: seq<seq<string>>, exit: Option<int>)
    ensures RanInOrder(ran, exit, outcome)
    ensures exit.Some? ==> exit.value != 0 && ran != []
    ensures |ran| <= |DeployPlan(cl, host, s)| && ran == DeployPlan(cl, host, s)[..|ran|]
    ensures exit.None? ==> |ran| == (if cl.noSysroot then 2 else 3)
  {
    ran, exit := [], None;
    ghost var plan := DeployPlan(cl, host, s);
    DeployPlanSteps(cl, host, s);
    if !cl.noSysroot {
      var args := SysrootArgs(s.target, s.dirs, cl.quiet, cl.verbose);
      ran, exit := RunPlanned(plan, ran, exit, args, outcome);
      if exit.Some? {
        return;
      }
    }
    ran, exit := RunPlanned(plan, ran, exit, DeployBuildCommand(s.target), outcome);
    if exit.Some? {
      return;
    }
    ran, exit := RunPlanned(plan, ran, exit, [PathJoin(BuildApp.HostBinDir(host, s.target), "qmake")], outcome);
  }

  /** make (unless the target is iOS), and for Android make install and
      androiddeployqt. */
  method RunDeployMakeSteps(cl: BuildApp.CommandLine, host: BuildApp.Host, s: Setup, ran0: seq<seq<string>>,
                            outcome: seq<string> -> CallOutcome)
    returns (ran: seq<seq<string>>, exit: Option<int>)
    requires RanInOrder(ran0, None, outcome)
    requires |ran0| == (if cl.noSysroot then 2 else 3) && ran0 == DeployPlan(cl, host, s)[..|ran0|]
    ensures RanInOrder(ran, exit, outcome)
    ensures exit.Some? ==> exit.value != 0 && ran != []
    ensures |ran| <= |DeployPlan(cl, host, s)| && ran == DeployPlan(cl, host, s)[..|ran|]
    ensures exit.None? ==> ran == DeployPlan(cl, host, s)
  {
    ran, exit := ran0, None;
    ghost var plan := DeployPlan(cl, host, s);
    DeployPlanSteps(cl, host, s);
    if !StartsWith(s.target, "ios") {
      var make := MakeTool(host.platform);
      ran, exit := RunPlanned(plan, ran, exit, [make], outcome);
      if exit.Some? {
        return;
      }
      if StartsWith(s.target, "android") {
        ran, exit := RunPlanned(plan, ran, exit, [make, "INSTALL_ROOT=" + Project, "install"], outcome);
        if exit.Some? {
          return;
        }
        ran, exit := RunPlanned(plan, ran, exit,
          [PathJoin(BuildApp.HostBinDir(host, s.target), "androiddeployqt"), "--gradle",
           "--input", "android-lib" + Project + ".so-deployment-settings.json", "--output", Project], outcome);
      }
    }
  }
}
