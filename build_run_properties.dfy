/**
 * What a whole run of the build task promises: the gate on PGO support,
 * the order of validation, compilation and packaging, the single compiler
 * call, and which branches run profiles, report success or warn about
 * stale profiles.
 */
module BuildRunProperties {
  import opened BuildModel
  import opened BuildLogic
  import opened BuildSpec
  import opened BuildProperties
  import opened BuildStepProperties

  // ---------------------------------------------------------------------------
  // What a step may add to the trace

  /** Which of the restricted kinds of event a step may add. */
  datatype Allowance = Allowance(profileRun: bool, staleWarning: bool, buildSuccess: bool)

  predicate IsBuildSuccess(e: Event)
  {
    e.Log? && e.key == BuildSuccess
  }

  /**
   * An event a step after compilation may add: never a validation or a
   * compiler call, and a profile run, a stale-profile warning or a success
   * report only when allowed.
   */
  predicate Permitted(e: Event, a: Allowance)
  {
    && !e.Validate? && !e.Compile?
    && (e.CollectProfile? ==> a.profileRun)
    && (IsStaleWarning(e) ==> a.staleWarning)
    && (IsBuildSuccess(e) ==> a.buildSuccess)
  }

  /** `u` is `t` followed by permitted events only. */
  predicate AddsOnly(t: seq<Event>, u: seq<Event>, a: Allowance)
  {
    |t| <= |u| && u[..|t|] == t && forall i :: |t| <= i < |u| ==> Permitted(u[i], a)
  }

  predicate Within(a: Allowance, b: Allowance)
  {
    (a.profileRun ==> b.profileRun) && (a.staleWarning ==> b.staleWarning) && (a.buildSuccess ==> b.buildSuccess)
  }

  const Quiet := Allowance(false, false, false)
  const Reporting := Allowance(false, false, true)

  lemma AddsOnlyAppend(t: seq<Event>, d: seq<Event>, a: Allowance)
    requires forall i :: 0 <= i < |d| ==> Permitted(d[i], a)
    ensures AddsOnly(t, t + d, a)
  {
    assert (t + d)[..|t|] == t;
    forall i | |t| <= i < |t + d| ensures Permitted((t + d)[i], a) {
      assert (t + d)[i] == d[i - |t|];
    }
  }

  lemma {:induction false} AddsOnlyTrans(t: seq<Event>, u: seq<Event>, v: seq<Event>, a: Allowance)
    requires AddsOnly(t, u, a) && AddsOnly(u, v, a)
    ensures AddsOnly(t, v, a)
  {
    assert v[..|t|] == v[..|u|][..|t|];
    forall i | |t| <= i < |v| ensures Permitted(v[i], a) {
      if i < |u| {
        assert v[i] == v[..|u|][i];
      }
    }
  }

  lemma AddsOnlyWeaken(t: seq<Event>, u: seq<Event>, a: Allowance, b: Allowance)
    requires AddsOnly(t, u, a) && Within(a, b)
    ensures AddsOnly(t, u, b)
  {
    forall i | |t| <= i < |u| ensures Permitted(u[i], b) {
      assert Permitted(u[i], a);
    }
  }

  // ---------------------------------------------------------------------------
  // The steps after compilation

  lemma DoAdds(env: Env, t: seq<Event>, op: Event, a: Allowance)
    requires Permitted(op, a)
    ensures AddsOnly(t, Do(env, t, op).trace, a)
  {
    AddsOnlyAppend(t, [op], a);
  }

  lemma ToolAdds(env: Env, t: seq<Event>, call: Event, key: string, a: Allowance)
    requires Permitted(call, a)
    ensures AddsOnly(t, Tool(env, t, call, key).trace, a)
  {
    AddsOnlyAppend(t, [call], a);
  }

  lemma XPackArgsAdds(env: Env, t: seq<Event>, options: PackagerOptions, rspFile: string)
    ensures AddsOnly(t, XPackArgsRun(env, t, options, rspFile).trace, Quiet)
  {
    if env.jet.since11_3 {
      AddsOnlyAppend(t, [WriteLines(rspFile, options.argFileLines)], Quiet);
    } else {
      AddsOnlyAppend(t, [], Quiet);
    }
  }

  /** The service scripts step copies the helper executable and writes files, nothing else. */
  lemma ServiceScriptsAdds(env: Env, t: seq<Event>, appDir: string)
    ensures AddsOnly(t, WinServiceScriptsRun(env, t, appDir).trace, Quiet)
    ensures var s := WinServiceScriptsRun(env, t, appDir);
      forall i :: |t| <= i < |s.trace| ==> s.trace[i].Copy? || s.trace[i].WriteLines?
  {
    var s := WinServiceScriptsRun(env, t, appDir);
    var ops := [Copy(IsrvSource(env), Path(appDir, "isrv.exe")),
                WriteLines(Path(appDir, env.project.outputName + ".rsp"), env.gen.isrvArgs),
                WriteLines(Path(appDir, "install.bat"), env.gen.installBat),
                WriteLines(Path(appDir, "uninstall.bat"), env.gen.uninstallBat)];
    assert |t| < |s.trace| <= |t| + 4 && s.trace == t + ops[..|s.trace| - |t|];
    AddsOnlyAppend(t, ops[..|s.trace| - |t|], Quiet);
  }

  /** createAppOrProfileDir adds the response file, the packager call and the service files only. */
  lemma CreateAppOrProfileDirAdds(env: Env, t: seq<Event>, buildDir: string, dir: string)
    ensures AddsOnly(t, CreateAppOrProfileDirRun(env, t, buildDir, dir).trace, Quiet)
  {
    var a := XPackArgsRun(env, t, env.gen.directoryOptions, CommonRspFile(env, buildDir, ".SFD"));
    XPackArgsAdds(env, t, env.gen.directoryOptions, CommonRspFile(env, buildDir, ".SFD"));
    if a.result.Ok? {
      var p := Tool(env, a.trace, Pack(buildDir, DirectoryPackArgs(env, a.result.value)), PackageFailure);
      ToolAdds(env, a.trace, Pack(buildDir, DirectoryPackArgs(env, a.result.value)), PackageFailure, Quiet);
      AddsOnlyTrans(t, a.trace, p.trace, Quiet);
      if p.result.Ok? && env.project.appType == WindowsService {
        ServiceScriptsAdds(env, p.trace, dir);
        AddsOnlyTrans(t, p.trace, WinServiceScriptsRun(env, p.trace, dir).trace, Quiet);
      }
    }
  }

  /** zipBuild neither reports success nor warns: it deletes, renames or compresses only. */
  lemma ZipBuildAdds(env: Env, t: seq<Event>, packageDir: string)
    ensures AddsOnly(t, ZipBuildRun(env, t, packageDir).trace, Quiet)
  {
    var r := ZipBuildRun(env, t, packageDir);
    ZipBuildSteps(env, t, packageDir);
    if UseXPackZipping(env) {
      if !env.toProfile {
        var d := DeleteOldZipRun(env, t);
        AddsOnlyAppend(t, if env.oracle.zipTargetExists then [Delete(ZipTarget(env))] else [], Quiet);
        if d.result.Ok? {
          AddsOnlyAppend(d.trace, [Rename(packageDir + ".zip", ZipTarget(env))], Quiet);
          AddsOnlyTrans(t, d.trace, r.trace, Quiet);
        }
      } else {
        AddsOnlyAppend(t, [], Quiet);
      }
    } else {
      AddsOnlyAppend(t, [InfoLog("JetBuildTask.ZipApp.Info", []), CompressZip(packageDir, ZipTarget(env))], Quiet);
    }
  }

  lemma TarGzAdds(env: Env, t: seq<Event>, packageDir: string)
    ensures AddsOnly(t, TarGzRun(env, t, packageDir).trace, Reporting)
  {
    var target := TarGzTarget(env);
    var c := Do(env, t + [InfoLog("JetBuildTask.ArchiveApp.Info", [])], CompressTarGz(packageDir, target));
    if c.result.Err? {
      AddsOnlyAppend(t, [InfoLog("JetBuildTask.ArchiveApp.Info", []), CompressTarGz(packageDir, target)], Reporting);
    } else {
      AddsOnlyAppend(t, [InfoLog("JetBuildTask.ArchiveApp.Info", []), CompressTarGz(packageDir, target),
                         InfoLog(BuildSuccess, []), InfoLog("JetBuildTask.GetArchive.Info", [Text(target)])], Reporting);
    }
  }

  lemma PackWithEIAdds(env: Env, t: seq<Event>, buildDir: string)
    ensures AddsOnly(t, PackWithEIRun(env, t, buildDir).trace, Reporting)
  {
    var a := XPackArgsRun(env, t, env.gen.installerOptions, InstallerRspFile(env, buildDir));
    XPackArgsAdds(env, t, env.gen.installerOptions, InstallerRspFile(env, buildDir));
    AddsOnlyWeaken(t, a.trace, Quiet, Reporting);
    if a.result.Ok? {
      var p := Tool(env, a.trace, Pack(buildDir, a.result.value), PackageFailure);
      if p.result.Err? {
        AddsOnlyAppend(a.trace, [Pack(buildDir, a.result.value)], Reporting);
      } else {
        AddsOnlyAppend(a.trace, [Pack(buildDir, a.result.value), InfoLog(BuildSuccess, []),
                                 InfoLog("JetBuildTask.GetEI.Info", [Text(InstallerTarget(env))])], Reporting);
      }
      AddsOnlyTrans(t, a.trace, PackWithEIRun(env, t, buildDir).trace, Reporting);
    }
  }

  lemma BundleTreeAdds(env: Env, t: seq<Event>)
    ensures AddsOnly(t, BundleTreeRun(env, t).trace, Quiet)
  {
    var r := BundleTreeRun(env, t);
    BundleTreeEvents(env, t);
    AddsOnlyAppend(t, r.trace[|t|..], Quiet);
    assert t + r.trace[|t|..] == r.trace;
  }

  /** The bundle tree step creates and cleans directories and writes Info.plist, nothing else. */
  lemma BundleTreeEvents(env: Env, t: seq<Event>)
    ensures var r := BundleTreeRun(env, t);
      && |t| < |r.trace| && r.trace[..|t|] == t
      && forall i :: |t| <= i < |r.trace| ==> r.trace[i].Mkdir? || r.trace[i].CleanDir? || r.trace[i].WriteText?
  {
    var r := BundleTreeRun(env, t);
    var ops := [Mkdir(AppBundle(env)), CleanDir(AppBundle(env)), Mkdir(BundleContents(env)), Mkdir(BundleMacOs(env)),
                Mkdir(BundleResources(env)),
                WriteText(Path(BundleContents(env), "Info.plist"), PropertyList(env.project.outputName, env.project.osx))];
    assert |t| < |r.trace| <= |t| + 6 && r.trace == t + ops[..|r.trace| - |t|];
  }

  lemma BundlePackAdds(env: Env, t: seq<Event>, buildDir: string)
    ensures AddsOnly(t, BundlePackRun(env, t, buildDir).trace, Quiet)
  {
    var a := XPackArgsRun(env, t, env.gen.bundleOptions, CommonRspFile(env, buildDir, ".OSXBundle"));
    XPackArgsAdds(env, t, env.gen.bundleOptions, CommonRspFile(env, buildDir, ".OSXBundle"));
    if a.result.Ok? {
      var p := Tool(env, a.trace, Pack(buildDir, a.result.value), PackageFailure);
      ToolAdds(env, a.trace, Pack(buildDir, a.result.value), PackageFailure, Quiet);
      AddsOnlyTrans(t, a.trace, p.trace, Quiet);
      if p.result.Ok? && env.project.osx.icon.Some? {
        var icon := env.project.osx.icon.value;
        DoAdds(env, p.trace, Copy(icon.path, Path(BundleResources(env), icon.name)), Quiet);
        AddsOnlyTrans(t, p.trace, BundlePackRun(env, t, buildDir).trace, Quiet);
      }
    }
  }

  lemma SigningAdds(env: Env, t: seq<Event>)
    ensures AddsOnly(t, SigningRun(env, t).trace, Quiet)
  {
    var s := SigningRun(env, t);
    SigningOrder(env, t);
    forall i | |t| <= i < |s.trace| ensures Permitted(s.trace[i], Quiet) {
      SigningEventAt(env, t, i);
    }
  }

  /** The signing chain adds calls of codesign and productbuild and log lines, nothing else. */
  lemma SigningEvents(env: Env, t: seq<Event>)
    ensures var s := SigningRun(env, t);
      forall i :: |t| <= i < |s.trace| ==> s.trace[i].CodeSign? || s.trace[i].ProductBuild? || s.trace[i].Log?
  {
    var s := SigningRun(env, t);
    forall i | |t| <= i < |s.trace| ensures s.trace[i].CodeSign? || s.trace[i].ProductBuild? || s.trace[i].Log? {
      SigningEventAt(env, t, i);
    }
  }

  lemma SigningEventAt(env: Env, t: seq<Event>, i: int)
    requires |t| <= i < |SigningRun(env, t).trace|
    ensures Permitted(SigningRun(env, t).trace[i], Quiet)
    ensures var e := SigningRun(env, t).trace[i]; e.CodeSign? || e.ProductBuild? || e.Log?
  {
    var s := SigningRun(env, t);
    match env.project.osx.developerId
    case None =>
      assert s.trace == t + [Log(Warn, NoDeveloperId, [])];
    case Some(developerId) =>
      var sign := InfoLog("JetBuildTask.SigningOSXBundle.Info", []);
      var c := CodeSignCall(env, developerId);
      var creating := InfoLog("JetBuildTask.CreatingOSXInstaller.Info", []);
      if c in env.oracle.failing || env.oracle.exitCode(c) != 0 {
        assert s.trace == t + [sign, c];
      } else {
        match env.project.osx.publisherId
        case None =>
          assert s.trace == t + [sign, c, creating, Log(Warn, NoPublisherId, [])];
        case Some(publisherId) =>
          assert s.trace == t + [sign, c, creating, ProductBuildCall(env, publisherId)];
      }
  }

  /** The end of createOSXAppBundle: the signing chain, then the report once it succeeds. */
  lemma SigningAndReportAdds(env: Env, u: seq<Event>)
    ensures var signing := SigningRun(env, u);
      && AddsOnly(u, signing.trace, Reporting)
      && (signing.result.Ok? ==> AddsOnly(u, BundleReport(env, signing.trace, signing.result.value).trace, Reporting))
  {
    var signing := SigningRun(env, u);
    SigningAdds(env, u);
    AddsOnlyWeaken(u, signing.trace, Quiet, Reporting);
    if signing.result.Ok? {
      var appPkg := signing.result.value;
      var artifact := if appPkg.Some? then appPkg.value else AppBundle(env);
      var key := if appPkg.Some? then "JetBuildTask.GetOSXPackage.Info" else "JetBuildTask.GetOSXBundle.Info";
      AddsOnlyAppend(signing.trace, [InfoLog(BuildSuccess, []), InfoLog(key, [Text(artifact)])], Reporting);
      AddsOnlyTrans(u, signing.trace, BundleReport(env, signing.trace, appPkg).trace, Reporting);
    }
  }

  lemma CreateOsxAppBundleAdds(env: Env, t: seq<Event>, buildDir: string)
    ensures AddsOnly(t, CreateOsxAppBundleRun(env, t, buildDir).trace, Reporting)
  {
    var tree := BundleTreeRun(env, t);
    BundleTreeAdds(env, t);
    if tree.result.Ok? {
      var pack := BundlePackRun(env, tree.trace, buildDir);
      BundlePackAdds(env, tree.trace, buildDir);
      AddsOnlyTrans(t, tree.trace, pack.trace, Quiet);
      if pack.result.Ok? {
        AddsOnlyWeaken(t, pack.trace, Quiet, Reporting);
        SigningAndReportAdds(env, pack.trace);
        AddsOnlyTrans(t, pack.trace, CreateOsxAppBundleRun(env, t, buildDir).trace, Reporting);
      } else {
        AddsOnlyWeaken(t, pack.trace, Quiet, Reporting);
      }
    } else {
      AddsOnlyWeaken(t, tree.trace, Quiet, Reporting);
    }
  }

  lemma PackageFormatAdds(env: Env, t: seq<Event>, buildDir: string, packageDir: string)
    ensures AddsOnly(t, PackageFormatRun(env, t, buildDir, packageDir).trace, Reporting)
  {
    match env.project.packaging
    case Zip =>
      var z := ZipBuildRun(env, t, packageDir);
      ZipBuildAdds(env, t, packageDir);
      AddsOnlyWeaken(t, z.trace, Quiet, Reporting);
      if z.result.Ok? {
        AddsOnlyAppend(z.trace, [InfoLog(BuildSuccess, []), InfoLog("JetBuildTask.GetZip.Info", [Text(z.result.value)])], Reporting);
        AddsOnlyTrans(t, z.trace, PackageFormatRun(env, t, buildDir, packageDir).trace, Reporting);
      }
    case TarGz => TarGzAdds(env, t, packageDir);
    case ExcelsiorInstaller => PackWithEIAdds(env, t, buildDir);
    case OsxAppBundle => CreateOsxAppBundleAdds(env, t, buildDir);
    case Directory =>
      AddsOnlyAppend(t, [InfoLog(BuildSuccess, []), InfoLog("JetBuildTask.GetDir.Info", [Text(packageDir)])], Reporting);
  }

  lemma PackageBuildAdds(env: Env, t: seq<Event>, buildDir: string, packageDir: string)
    ensures AddsOnly(t, PackageBuildRun(env, t, buildDir, packageDir).trace, Reporting)
  {
    var r := PackageFormatRun(env, t, buildDir, packageDir);
    PackageFormatAdds(env, t, buildDir, packageDir);
    if r.result.Ok? && env.project.slimDown.Some? {
      AddsOnlyAppend(r.trace, [SlimDownNote(env, env.project.slimDown.value)], Reporting);
      AddsOnlyTrans(t, r.trace, PackageBuildRun(env, t, buildDir, packageDir).trace, Reporting);
    }
  }

  /** The staleness check adds stale-profile warnings and nothing else. */
  lemma StaleWarningsAdds(p: Project, t: seq<Event>)
    ensures AddsOnly(t, StaleProfileWarnings(p, t), Allowance(false, true, false))
    ensures var u := StaleProfileWarnings(p, t); forall i :: |t| <= i < |u| ==> IsStaleWarning(u[i])
  {
    StaleProfileWarningsAppend(p, t);
    WarningsAreStaleWarnings(p);
    AddsOnlyAppend(t, Warnings(p), Allowance(false, true, false));
  }

  lemma LocalProfilingAdds(env: Env, t: seq<Event>, dir: string)
    ensures AddsOnly(t, LocalProfilingRun(env, t, dir).trace, Allowance(IsRunnable(env.project.appType), false, false))
  {
    var a := Allowance(IsRunnable(env.project.appType), false, false);
    var imageDir := env.project.execProfiles.profilingImageDir;
    match env.project.appType
    case WindowsService => AddsOnlyAppend(t, [InfoLog("JetApi.Profile.WinService", [Text(imageDir)])], a);
    case DynamicLibrary => AddsOnlyAppend(t, [InfoLog("JetApi.Profile.DynamicLibrary", [Text(imageDir)])], a);
    case _ =>
      var c := Do(env, t, CollectProfile(dir));
      if c.result.Err? {
        AddsOnlyAppend(t, [CollectProfile(dir)], a);
      } else {
        var report := if env.oracle.profileCollected then InfoLog(ProfileCollected, []) else Log(Error, ProfileNotCollected, []);
        AddsOnlyAppend(t, [CollectProfile(dir), report], a);
      }
  }

  /** The profiling branch: it runs profiles only locally and for runnable types, and never reports a build success. */
  lemma ProfilingAdds(env: Env, t: seq<Event>, buildDir: string, dir: string)
    ensures AddsOnly(t, ProfilingRun(env, t, buildDir, dir).trace,
                     Allowance(env.project.profileLocally && IsRunnable(env.project.appType), false, false))
  {
    var a := Allowance(env.project.profileLocally && IsRunnable(env.project.appType), false, false);
    var m := Do(env, t, Mkdir(env.project.execProfiles.outputDir));
    DoAdds(env, t, Mkdir(env.project.execProfiles.outputDir), a);
    if m.result.Ok? {
      if env.project.profileLocally {
        LocalProfilingAdds(env, m.trace, dir);
      } else {
        var z := ZipBuildRun(env, m.trace, buildDir);
        ZipBuildAdds(env, m.trace, buildDir);
        AddsOnlyWeaken(m.trace, z.trace, Quiet, a);
        if z.result.Ok? {
          AddsOnlyAppend(z.trace, [NotLocallyNote(env, z.result.value)], a);
          AddsOnlyTrans(m.trace, z.trace, ProfilingRun(env, t, buildDir, dir).trace, a);
        }
      }
      AddsOnlyTrans(t, m.trace, ProfilingRun(env, t, buildDir, dir).trace, a);
    }
  }

  /** The production branch: it packages, then warns about stale profiles; it never runs a profile. */
  lemma ProductionAdds(env: Env, t: seq<Event>, buildDir: string, dir: string)
    ensures AddsOnly(t, ProductionRun(env, t, buildDir, dir).trace, Allowance(false, true, true))
  {
    var a := Allowance(false, true, true);
    var p := PackageBuildRun(env, t, buildDir, dir);
    PackageBuildAdds(env, t, buildDir, dir);
    AddsOnlyWeaken(t, p.trace, Reporting, a);
    if p.result.Ok? {
      StaleWarningsAdds(env.project, p.trace);
      AddsOnlyWeaken(p.trace, StaleProfileWarnings(env.project, p.trace), Allowance(false, true, false), a);
      AddsOnlyTrans(t, p.trace, ProductionRun(env, t, buildDir, dir).trace, a);
    }
  }

  // ---------------------------------------------------------------------------
  // The whole run

  /** The events up to the compiler call, in the order execute performs them. */
  function PrepareEvents(env: Env): seq<Event>
  {
    var buildDir := env.project.buildDir;
    [ Validate, CreateBuildDir(buildDir), CleanDir(AppOrProfileDir(env)), Stage(StagingFor(env.project.appType)),
      WriteText(Path(buildDir, ProjectFileName(env.project)), PlainText(env.gen.projectFile)),
      CompileCall(env, buildDir) ]
  }

  /**
   * The preparation performs a prefix of PrepareEvents, stopping at the
   * first failure; it succeeds exactly when all of them ran and the compiler
   * exited with 0, and a compiler that exits otherwise fails the run with
   * the build failure.
   */
  lemma PrepareAndCompileShape(env: Env, t: seq<Event>)
    ensures var p := PrepareAndCompileRun(env, t); var all := t + PrepareEvents(env);
      && |t| < |p.trace| <= |all| && p.trace == all[..|p.trace|]
      && (p.result.Ok? <==>
            p.trace == all && CompileCall(env, env.project.buildDir) !in env.oracle.failing
            && env.oracle.exitCode(CompileCall(env, env.project.buildDir)) == 0)
      && (p.trace == all && CompileCall(env, env.project.buildDir) !in env.oracle.failing
          && env.oracle.exitCode(CompileCall(env, env.project.buildDir)) != 0 ==>
            p.result == Err(TaskFailure(BuildFailure)))
  {
    var p := PrepareAndCompileRun(env, t);
    var all := t + PrepareEvents(env);
    assert |p.trace| == |all| ==> p.trace == all;
    assert p.trace == all[..|p.trace|];
  }

  /**
   * The structure of a run that passes the PGO gate: the preparation, then,
   * only if the compiler succeeded, permitted events alone, where profile
   * runs belong to local profiling of a runnable type, and stale-profile
   * warnings and success reports to production runs.
   */
  lemma ExecuteShape(env: Env, t: seq<Event>)
    requires !(env.toProfile && !env.jet.pgoSupported)
    ensures var r := ExecuteRun(env, t); var p := PrepareAndCompileRun(env, t);
      && |p.trace| <= |r.trace| && r.trace[..|p.trace|] == p.trace
      && (p.result.Err? ==> r == Run(p.trace, Err(p.result.failure)))
      && (p.result.Ok? ==>
            AddsOnly(p.trace, r.trace,
                     Allowance(env.toProfile && env.project.profileLocally && IsRunnable(env.project.appType),
                               !env.toProfile, !env.toProfile)))
  {
    var p := PrepareAndCompileRun(env, t);
    if p.result.Ok? {
      var a := Allowance(env.toProfile && env.project.profileLocally && IsRunnable(env.project.appType), !env.toProfile, !env.toProfile);
      var buildDir := env.project.buildDir;
      var dir := AppOrProfileDir(env);
      var c := CreateAppOrProfileDirRun(env, p.trace, buildDir, dir);
      CreateAppOrProfileDirAdds(env, p.trace, buildDir, dir);
      AddsOnlyWeaken(p.trace, c.trace, Quiet, a);
      if c.result.Ok? {
        if env.toProfile {
          ProfilingAdds(env, c.trace, buildDir, dir);
        } else {
          ProductionAdds(env, c.trace, buildDir, dir);
        }
        AddsOnlyTrans(p.trace, c.trace, ExecuteRun(env, t).trace, a);
      }
    }
  }

  /** A profiling run without PGO support fails at once: nothing is validated, written or run. */
  lemma ExecuteWithoutPgo(env: Env, t: seq<Event>)
    requires env.toProfile && !env.jet.pgoSupported
    ensures ExecuteRun(env, t) == Run(t, Err(TaskFailure(PgoNotSupported)))
  {
  }

  /** Otherwise validation is the first thing a run does. */
  lemma ExecuteValidatesFirst(env: Env, t: seq<Event>)
    requires !(env.toProfile && !env.jet.pgoSupported)
    ensures var r := ExecuteRun(env, t); |r.trace| > |t| && r.trace[..|t| + 1] == t + [Validate]
  {
    var r := ExecuteRun(env, t);
    PrepareAndCompileShape(env, t);
    ExecuteShape(env, t);
    PreparationEventsIn(env, t, r.trace);
    assert r.trace[..|t|] == t;
  }

  /**
   * The events of the preparation, seen in any trace that extends it: they
   * are PrepareEvents in order, and none of them packs, runs a profile,
   * reports success or warns about a stale profile.
   */
  lemma PreparationEventsIn(env: Env, t: seq<Event>, u: seq<Event>)
    requires var p := PrepareAndCompileRun(env, t); |p.trace| <= |u| && u[..|p.trace|] == p.trace
    ensures forall i :: |t| <= i < |PrepareAndCompileRun(env, t).trace| ==>
      && u[i] == PrepareEvents(env)[i - |t|]
      && !u[i].Pack? && !u[i].CollectProfile? && !IsBuildSuccess(u[i]) && !IsStaleWarning(u[i])
  {
    var p := PrepareAndCompileRun(env, t);
    PrepareAndCompileShape(env, t);
    forall i | |t| <= i < |p.trace| ensures u[i] == PrepareEvents(env)[i - |t|] {
      assert u[i] == u[..|p.trace|][i] == (t + PrepareEvents(env))[i];
    }
  }

  /**
   * A run calls the compiler at most once, always with the project file of
   * the output name, and a successful run calls it exactly once.
   */
  lemma ExecuteCompilesOnce(env: Env, t: seq<Event>)
    ensures var r := ExecuteRun(env, t);
      && (forall i :: |t| <= i < |r.trace| && r.trace[i].Compile? ==>
            i == |t| + 5 && r.trace[i] == Compile(env.project.buildDir, ["=p", env.project.outputName + ".prj", env.gen.vmPropOpt]))
      && (r.result.Ok? ==> |r.trace| > |t| + 5 && r.trace[|t| + 5] == CompileCall(env, env.project.buildDir))
  {
    if !(env.toProfile && !env.jet.pgoSupported) {
      var r := ExecuteRun(env, t);
      PrepareAndCompileShape(env, t);
      ExecuteShape(env, t);
      PreparationEventsIn(env, t, r.trace);
    }
  }

  /**
   * A compiler that exits with a non-zero status, once the preparation got
   * that far, ends the run with the build failure: nothing is packed.
   */
  lemma ExecuteCompileFailure(env: Env, t: seq<Event>)
    requires !(env.toProfile && !env.jet.pgoSupported)
    requires forall i :: 0 <= i < 5 ==> PrepareEvents(env)[i] !in env.oracle.failing
    requires CompileCall(env, env.project.buildDir) !in env.oracle.failing
    requires env.oracle.exitCode(CompileCall(env, env.project.buildDir)) != 0
    ensures ExecuteRun(env, t) == Run(t + PrepareEvents(env), Err(TaskFailure(BuildFailure)))
    ensures forall i :: |t| <= i < |ExecuteRun(env, t).trace| ==> !ExecuteRun(env, t).trace[i].Pack?
  {
    var e := PrepareEvents(env);
    assert e[0] !in env.oracle.failing && e[1] !in env.oracle.failing && e[2] !in env.oracle.failing;
    assert e[3] !in env.oracle.failing && e[4] !in env.oracle.failing;
    PrepareAndCompileShape(env, t);
    ExecuteShape(env, t);
    PreparationEventsIn(env, t, ExecuteRun(env, t).trace);
  }

  /** The packager runs only once the compiler has run and exited with 0. */
  lemma ExecutePacksOnlyAfterCompile(env: Env, t: seq<Event>)
    ensures var r := ExecuteRun(env, t);
      forall i :: |t| <= i < |r.trace| && r.trace[i].Pack? ==>
        && |t| + 5 < i && r.trace[|t| + 5] == CompileCall(env, env.project.buildDir)
        && env.oracle.exitCode(CompileCall(env, env.project.buildDir)) == 0
  {
    if !(env.toProfile && !env.jet.pgoSupported) {
      var r := ExecuteRun(env, t);
      var p := PrepareAndCompileRun(env, t);
      PrepareAndCompileShape(env, t);
      ExecuteShape(env, t);
      PreparationEventsIn(env, t, r.trace);
      if p.result.Ok? {
        assert r.trace[|t| + 5] == PrepareEvents(env)[5];
      }
    }
  }

  /**
   * Stale-profile warnings come from production runs alone, and only at the
   * end: a successful production run ends with exactly Warnings, issued on
   * the trace packageBuild left, and none comes earlier.
   */
  lemma ExecuteStaleWarnings(env: Env, t: seq<Event>)
    ensures var r := ExecuteRun(env, t);
      && (env.toProfile || r.result.Err? ==> forall i :: |t| <= i < |r.trace| ==> !IsStaleWarning(r.trace[i]))
      && (!env.toProfile && r.result.Ok? ==>
            var n := |r.trace| - |Warnings(env.project)|;
            && |t| <= n && r.trace[n..] == Warnings(env.project)
            && r.trace[..n] == PackageBuildRun(env, BuildImageRun(env, t).trace, env.project.buildDir, env.project.jetAppDir).trace
            && forall i :: |t| <= i < n ==> !IsStaleWarning(r.trace[i]))
  {
    if !(env.toProfile && !env.jet.pgoSupported) {
      var r := ExecuteRun(env, t);
      var p := PrepareAndCompileRun(env, t);
      ExecuteShape(env, t);
      PreparationEventsIn(env, t, r.trace);
      if !env.toProfile && r.result.Ok? {
        ProductionWarningsLast(env, t);
      } else if p.result.Ok? && !env.toProfile {
        ProductionFailureWarnsNot(env, t);
      }
    }
  }

  /** A failing production run has not reached the staleness check. */
  lemma ProductionFailureWarnsNot(env: Env, t: seq<Event>)
    requires !env.toProfile && PrepareAndCompileRun(env, t).result.Ok?
    ensures var r := ExecuteRun(env, t); var p := PrepareAndCompileRun(env, t);
      r.result.Err? ==> forall i :: |p.trace| <= i < |r.trace| ==> !IsStaleWarning(r.trace[i])
  {
    var p := PrepareAndCompileRun(env, t);
    var r := ExecuteRun(env, t);
    var buildDir := env.project.buildDir;
    var dir := AppOrProfileDir(env);
    var c := CreateAppOrProfileDirRun(env, p.trace, buildDir, dir);
    CreateAppOrProfileDirAdds(env, p.trace, buildDir, dir);
    if c.result.Ok? {
      var pk := PackageBuildRun(env, c.trace, buildDir, dir);
      PackageBuildAdds(env, c.trace, buildDir, dir);
      AddsOnlyWeaken(p.trace, c.trace, Quiet, Reporting);
      AddsOnlyTrans(p.trace, c.trace, pk.trace, Reporting);
    }
  }

  /** A successful production branch is what packageBuild left, then exactly Warnings. */
  lemma ProductionTrace(env: Env, t: seq<Event>, buildDir: string, dir: string)
    ensures var r := ProductionRun(env, t, buildDir, dir); var pk := PackageBuildRun(env, t, buildDir, dir);
      && AddsOnly(t, pk.trace, Reporting)
      && (r.result.Ok? ==> r.trace == pk.trace + Warnings(env.project))
  {
    var pk := PackageBuildRun(env, t, buildDir, dir);
    PackageBuildAdds(env, t, buildDir, dir);
    StaleProfileWarningsAppend(env.project, pk.trace);
  }

  /** A successful production run ends with the staleness warnings, after what packageBuild did. */
  lemma ProductionWarningsLast(env: Env, t: seq<Event>)
    requires !env.toProfile
    ensures var r := ExecuteRun(env, t);
      r.result.Ok? ==>
        var n := |r.trace| - |Warnings(env.project)|;
        && |t| <= n && r.trace[n..] == Warnings(env.project)
        && r.trace[..n] == PackageBuildRun(env, BuildImageRun(env, t).trace, env.project.buildDir, env.project.jetAppDir).trace
        && forall i :: |t| <= i < n ==> !IsStaleWarning(r.trace[i])
  {
    var r := ExecuteRun(env, t);
    if r.result.Ok? {
      var p := PrepareAndCompileRun(env, t);
      var b := BuildImageRun(env, t);
      var buildDir := env.project.buildDir;
      var dir := env.project.jetAppDir;
      var pk := PackageBuildRun(env, b.trace, buildDir, dir);
      assert p.result.Ok? && b.result.Ok?;
      assert r == ProductionRun(env, b.trace, buildDir, dir);
      ProductionTrace(env, b.trace, buildDir, dir);
      CreateAppOrProfileDirAdds(env, p.trace, buildDir, dir);
      AddsOnlyWeaken(p.trace, b.trace, Quiet, Reporting);
      AddsOnlyTrans(p.trace, b.trace, pk.trace, Reporting);
      PrepareAndCompileShape(env, t);
      PreparationEventsIn(env, t, pk.trace);
      assert r.trace[..|pk.trace|] == pk.trace;
      assert r.trace[|pk.trace|..] == Warnings(env.project);
      forall i | |t| <= i < |pk.trace| ensures !IsStaleWarning(r.trace[i]) {
        assert r.trace[i] == pk.trace[i];
      }
    }
  }

  /** Profiles are run only by a local-profiling run of a runnable type. */
  lemma ExecuteRunsProfilesOnlyLocally(env: Env, t: seq<Event>)
    ensures var r := ExecuteRun(env, t);
      forall i :: |t| <= i < |r.trace| && r.trace[i].CollectProfile? ==>
        env.toProfile && env.project.profileLocally && IsRunnable(env.project.appType)
  {
    if !(env.toProfile && !env.jet.pgoSupported) {
      var r := ExecuteRun(env, t);
      ExecuteShape(env, t);
      PreparationEventsIn(env, t, r.trace);
    }
  }

  /**
   * A remote-profiling run never runs a profile and reports no build
   * success; when it succeeds its value is the zip next to the profiling image.
   */
  lemma ExecuteRemoteProfiling(env: Env, t: seq<Event>)
    requires env.toProfile && !env.project.profileLocally
    ensures var r := ExecuteRun(env, t);
      && (forall i :: |t| <= i < |r.trace| ==> !r.trace[i].CollectProfile? && !IsBuildSuccess(r.trace[i]))
      && (r.result.Ok? ==> r.result.value == Some(env.project.jetAppToProfileDir + ".zip"))
  {
    if env.jet.pgoSupported {
      var r := ExecuteRun(env, t);
      ExecuteShape(env, t);
      PreparationEventsIn(env, t, r.trace);
      if r.result.Ok? {
        var b := BuildImageRun(env, t);
        var m := Do(env, b.trace, Mkdir(env.project.execProfiles.outputDir));
        ZipBuildTarget(env, m.trace, env.project.buildDir);
      }
    }
  }

  /**
   * A successful remote-profiling run is the image build, the profile output
   * directory, zipBuild of the build directory, and the note naming the zip:
   * nothing is packaged and no profile is checked for staleness.
   */
  lemma ExecuteRemoteProfilingTrace(env: Env, t: seq<Event>)
    requires env.toProfile && !env.project.profileLocally
    ensures var r := ExecuteRun(env, t);
      var m := Do(env, BuildImageRun(env, t).trace, Mkdir(env.project.execProfiles.outputDir));
      r.result.Ok? ==> r.trace == ZipBuildRun(env, m.trace, env.project.buildDir).trace + [NotLocallyNote(env, ZipTarget(env))]
  {
    var r := ExecuteRun(env, t);
    if r.result.Ok? {
      var m := Do(env, BuildImageRun(env, t).trace, Mkdir(env.project.execProfiles.outputDir));
      ZipBuildTarget(env, m.trace, env.project.buildDir);
    }
  }

  /**
   * The value of a successful run: the packaging kind's artifact for a
   * production run, the zip of a remote-profiling run, nothing for a
   * local-profiling run.
   */
  lemma ExecuteArtifact(env: Env, t: seq<Event>)
    ensures var r := ExecuteRun(env, t);
      r.result.Ok? ==>
        r.result.value ==
          if !env.toProfile then Some(PackageArtifact(env, env.project.jetAppDir))
          else if env.project.profileLocally then None
          else Some(env.project.jetAppToProfileDir + ".zip")
  {
    var r := ExecuteRun(env, t);
    if r.result.Ok? {
      var b := BuildImageRun(env, t);
      var buildDir := env.project.buildDir;
      if !env.toProfile {
        PackageBuildArtifact(env, b.trace, buildDir, env.project.jetAppDir);
      } else {
        var m := Do(env, b.trace, Mkdir(env.project.execProfiles.outputDir));
        if env.project.profileLocally {
          LocalProfilingShape(env, m.trace, AppOrProfileDir(env));
        } else {
          ZipBuildTarget(env, m.trace, buildDir);
        }
      }
    }
  }
}
