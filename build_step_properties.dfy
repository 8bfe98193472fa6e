/**
 * What the individual packaging and profiling steps of the build task
 * promise, proved about their reference runs in module BuildSpec.
 */
module BuildStepProperties {
  import opened BuildModel
  import opened BuildLogic
  import opened BuildSpec

  // ---------------------------------------------------------------------------
  // Packager arguments

  /**
   * Since 11.3 the option lines go to the response file, and the argument
   * list is the one for use with a response file followed by
   * `-arg-file <rsp>`; a response file that cannot be written fails with
   * "Cannot create file <rsp>". Before 11.3 nothing is written and the
   * argument list is the one for use without a response file.
   */
  lemma XPackArgsShape(env: Env, t: seq<Event>, options: PackagerOptions, rspFile: string)
    ensures var r := XPackArgsRun(env, t, options, rspFile);
      if env.jet.since11_3 then
        && r.trace == t + [WriteLines(rspFile, options.argFileLines)]
        && (r.result.Ok? <==> WriteLines(rspFile, options.argFileLines) !in env.oracle.failing)
        && (r.result.Ok? ==>
              var args := r.result.value;
              |args| >= 2 && args[..|args| - 2] == options.argsWithArgFile && args[|args| - 2..] == ["-arg-file", rspFile])
        && (r.result.Err? ==> r.result.failure == TaskFailure("Cannot create file " + rspFile))
      else
        r == Run(t, Ok(options.argsWithoutArgFile))
  {
    if env.jet.since11_3 {
      var r := XPackArgsRun(env, t, options, rspFile);
      if r.result.Ok? {
        var args := r.result.value;
        assert args == options.argsWithArgFile + ["-arg-file", rspFile];
        assert args[..|args| - 2] == options.argsWithArgFile;
        assert args[|args| - 2..] == ["-arg-file", rspFile];
      }
    }
  }

  /** The response files are named after the output, in the build directory. */
  lemma RspFileNames(env: Env, buildDir: string, suffix: string)
    ensures CommonRspFile(env, buildDir, suffix) == buildDir + "/" + env.project.outputName + suffix + ".xpack"
    ensures InstallerRspFile(env, buildDir) == buildDir + "/" + env.project.outputName + ".EI.xpack"
  {
  }

  // ---------------------------------------------------------------------------
  // The self-contained directory

  /** The files a step writes or copies into place, in order. */
  function Destinations(s: seq<Event>): (d: seq<string>)
    ensures |d| <= |s|
  {
    if s == [] then []
    else
      var rest := Destinations(s[1..]);
      match s[0]
      case Copy(_, to) => [to] + rest
      case WriteLines(path, _) => [path] + rest
      case WriteText(path, _) => [path] + rest
      case _ => rest
  }

  /** The files that make a Windows service installable, in the order they are created. */
  function ServiceFiles(env: Env, appDir: string): seq<string>
  {
    [Path(appDir, "isrv.exe"), Path(appDir, env.project.outputName + ".rsp"),
     Path(appDir, "install.bat"), Path(appDir, "uninstall.bat")]
  }

  /**
   * Once the packager has run: a failing exit status ends the step with the
   * package failure and nothing after the packager call; a non-service adds
   * nothing more; a service gets exactly the helper executable, its response
   * file and the two scripts, or the script-creation failure.
   */
  lemma CreateAppOrProfileDirShape(env: Env, t: seq<Event>, buildDir: string, dir: string)
    ensures var a := XPackArgsRun(env, t, env.gen.directoryOptions, CommonRspFile(env, buildDir, ".SFD"));
      var r := CreateAppOrProfileDirRun(env, t, buildDir, dir);
      a.result.Err? ==> r == Run(a.trace, Err(a.result.failure))
    ensures var a := XPackArgsRun(env, t, env.gen.directoryOptions, CommonRspFile(env, buildDir, ".SFD"));
      var r := CreateAppOrProfileDirRun(env, t, buildDir, dir);
      a.result.Ok? ==>
        var common := a.result.value;
        var pack := Pack(buildDir, if UseXPackZipping(env) then common + ZipBackendArgs else common);
        var u := a.trace + [pack];
        && |r.trace| >= |u| && r.trace[..|u|] == u
        && (pack !in env.oracle.failing && env.oracle.exitCode(pack) != 0 ==> r == Run(u, Err(TaskFailure(PackageFailure))))
        && (env.project.appType != WindowsService ==> r.trace == u)
        && (r.result.Ok? && env.project.appType == WindowsService ==>
              |r.trace| == |u| + 4 && Destinations(r.trace[|u|..]) == ServiceFiles(env, dir))
        && (r.result.Err? && env.project.appType == WindowsService && r.trace != u ==>
              r.result.failure == TaskFailure(ScriptsFailure))
  {
    var a := XPackArgsRun(env, t, env.gen.directoryOptions, CommonRspFile(env, buildDir, ".SFD"));
    if a.result.Ok? {
      var common := a.result.value;
      var pack := Pack(buildDir, if UseXPackZipping(env) then common + ZipBackendArgs else common);
      var u := a.trace + [pack];
      var p := Tool(env, a.trace, pack, PackageFailure);
      assert DirectoryPackArgs(env, common) == pack.args;
      assert p.trace == u;
      var r := CreateAppOrProfileDirRun(env, t, buildDir, dir);
      if p.result.Err? || env.project.appType != WindowsService {
        assert r == p;
      } else {
        var s := WinServiceScriptsRun(env, u, dir);
        assert r.trace == s.trace;
        ServiceScriptsShape(env, u, dir);
      }
    }
  }

  /**
   * The service scripts step extends the trace by its attempted operations
   * only; when it succeeds they are the four service files.
   */
  lemma ServiceScriptsShape(env: Env, t: seq<Event>, appDir: string)
    ensures var s := WinServiceScriptsRun(env, t, appDir);
      && |t| < |s.trace| <= |t| + 4 && s.trace[..|t|] == t
      && (s.result.Ok? ==> |s.trace| == |t| + 4 && Destinations(s.trace[|t|..]) == ServiceFiles(env, appDir))
  {
    var s := WinServiceScriptsRun(env, t, appDir);
    if s.result.Ok? {
      var ops := [Copy(IsrvSource(env), Path(appDir, "isrv.exe")),
                  WriteLines(Path(appDir, env.project.outputName + ".rsp"), env.gen.isrvArgs),
                  WriteLines(Path(appDir, "install.bat"), env.gen.installBat),
                  WriteLines(Path(appDir, "uninstall.bat"), env.gen.uninstallBat)];
      assert s.trace == t + ops;
      assert s.trace[|t|..] == ops;
      CopyAndWritesDestinations(IsrvSource(env), Path(appDir, "isrv.exe"),
        Path(appDir, env.project.outputName + ".rsp"), env.gen.isrvArgs,
        Path(appDir, "install.bat"), env.gen.installBat, Path(appDir, "uninstall.bat"), env.gen.uninstallBat);
    }
  }

  lemma CopyAndWritesDestinations(from: string, to: string, p1: string, l1: seq<string>,
                                  p2: string, l2: seq<string>, p3: string, l3: seq<string>)
    ensures Destinations([Copy(from, to), WriteLines(p1, l1), WriteLines(p2, l2), WriteLines(p3, l3)]) == [to, p1, p2, p3]
  {
    var w3 := [WriteLines(p3, l3)];
    var w2 := [WriteLines(p2, l2)] + w3;
    var w1 := [WriteLines(p1, l1)] + w2;
    var ops := [Copy(from, to)] + w1;
    assert w3[1..] == [];
    assert Destinations(w3) == [p3];
    assert w2[1..] == w3;
    assert Destinations(w2) == [p2, p3];
    assert w1[1..] == w2;
    assert Destinations(w1) == [p1, p2, p3];
    assert ops[1..] == w1;
    assert ops == [Copy(from, to), WriteLines(p1, l1), WriteLines(p2, l2), WriteLines(p3, l3)];
  }

  // ---------------------------------------------------------------------------
  // zipBuild

  /**
   * zipBuild: the target is in the output directory, named after the
   * artifact, on a production run, and next to the profiling image on a
   * profiling run; value of a successful run is always that target.
   */
  lemma ZipBuildTarget(env: Env, t: seq<Event>, packageDir: string)
    ensures ZipTarget(env) ==
      if env.toProfile then env.project.jetAppToProfileDir + ".zip"
      else env.project.jetOutputDir + "/" + env.project.artifactName + ".zip"
    ensures var r := ZipBuildRun(env, t, packageDir); r.result.Ok? ==> r.result.value == ZipTarget(env)
  {
  }

  /**
   * zipBuild compresses the directory itself exactly when the packager does
   * not zip it, and it deletes and renames only on a production run that
   * uses packager zipping.
   */
  lemma ZipBuildSteps(env: Env, t: seq<Event>, packageDir: string)
    ensures var r := ZipBuildRun(env, t, packageDir); var target := ZipTarget(env);
      && |r.trace| >= |t| && r.trace[..|t|] == t
      && (CompressZip(packageDir, target) in r.trace[|t|..] <==> !UseXPackZipping(env))
      && (forall i :: |t| <= i < |r.trace| ==>
            (r.trace[i].CompressZip? ==> !UseXPackZipping(env) && r.trace[i] == CompressZip(packageDir, target))
            && (r.trace[i].Delete? || r.trace[i].Rename? ==> UseXPackZipping(env) && !env.toProfile))
  {
    var r := ZipBuildRun(env, t, packageDir);
    var target := ZipTarget(env);
    if UseXPackZipping(env) {
      if !env.toProfile {
        var d := DeleteOldZipRun(env, t);
        var rename := Rename(packageDir + ".zip", target);
        var added := if env.oracle.zipTargetExists then [Delete(target)] else [];
        assert d.trace == t + added;
        if d.result.Ok? {
          assert r.trace == t + added + [rename];
          assert r.trace[|t|..] == added + [rename];
        } else {
          assert r.trace[|t|..] == added;
        }
      }
    } else {
      var log := InfoLog("JetBuildTask.ZipApp.Info", []);
      assert r.trace == t + [log] + [CompressZip(packageDir, target)];
      assert r.trace[|t|..] == [log, CompressZip(packageDir, target)];
    }
  }
  /**
   * With packager zipping a production run ends by renaming the packager's
   * zip onto the target, and a profiling run does nothing; each error is the
   * one its branch raises.
   */
  lemma ZipBuildOutcome(env: Env, t: seq<Event>, packageDir: string)
    ensures var r := ZipBuildRun(env, t, packageDir); var target := ZipTarget(env);
      && (UseXPackZipping(env) && !env.toProfile && r.result.Ok? ==>
            |r.trace| > 0 && r.trace[|r.trace| - 1] == Rename(packageDir + ".zip", target))
      && (UseXPackZipping(env) && env.toProfile ==> r == Run(t, Ok(target)))
      && (r.result.Err? ==>
            if UseXPackZipping(env) then r.result.failure in {IoFailure(UnableToDelete), IoFailure(UnableToRename)}
            else r.result.failure == RaisedBy(CompressZip(packageDir, target)))
  {
  }


  // ---------------------------------------------------------------------------
  // The macOS signing chain

  /** The signing events a trace holds. */
  predicate IsSigningTool(e: Event)
  {
    e.CodeSign? || e.ProductBuild?
  }

  /** Without a developer identity nothing is signed: one warning, and no installer package. */
  lemma SigningWithoutDeveloperId(env: Env, t: seq<Event>)
    requires env.project.osx.developerId.None?
    ensures var s := SigningRun(env, t);
      && s.result == Ok(None)
      && s.trace == t + [Log(Warn, NoDeveloperId, [])]
      && forall i :: |t| <= i < |s.trace| ==> !IsSigningTool(s.trace[i])
  {
  }

  /**
   * With a developer identity but no publisher identity, the bundle is
   * signed, a warning follows, and no installer package is built.
   */
  lemma SigningWithDeveloperIdOnly(env: Env, t: seq<Event>, developerId: string)
    requires env.project.osx.developerId == Some(developerId) && env.project.osx.publisherId.None?
    requires CodeSignCall(env, developerId) !in env.oracle.failing && env.oracle.exitCode(CodeSignCall(env, developerId)) == 0
    ensures var s := SigningRun(env, t);
      && s.result == Ok(None)
      && s.trace == t + [InfoLog("JetBuildTask.SigningOSXBundle.Info", []), CodeSignCall(env, developerId),
                         InfoLog("JetBuildTask.CreatingOSXInstaller.Info", []), Log(Warn, NoPublisherId, [])]
  {
  }

  /** With both identities the bundle is signed, then the installer package built from it. */
  lemma SigningWithBothIds(env: Env, t: seq<Event>, developerId: string, publisherId: string)
    requires env.project.osx.developerId == Some(developerId) && env.project.osx.publisherId == Some(publisherId)
    requires CodeSignCall(env, developerId) !in env.oracle.failing && env.oracle.exitCode(CodeSignCall(env, developerId)) == 0
    requires ProductBuildCall(env, publisherId) !in env.oracle.failing && env.oracle.exitCode(ProductBuildCall(env, publisherId)) == 0
    ensures var s := SigningRun(env, t);
      && s.result == Ok(Some(AppPkg(env)))
      && s.trace == t + [InfoLog("JetBuildTask.SigningOSXBundle.Info", []), CodeSignCall(env, developerId),
                         InfoLog("JetBuildTask.CreatingOSXInstaller.Info", []), ProductBuildCall(env, publisherId)]
  {
  }

  /** A non-zero exit status of either tool is fatal, with that tool's failure key. */
  lemma SigningFailures(env: Env, t: seq<Event>)
    ensures var s := SigningRun(env, t); var osx := env.project.osx;
      && (osx.developerId.Some? && CodeSignCall(env, osx.developerId.value) !in env.oracle.failing
          && env.oracle.exitCode(CodeSignCall(env, osx.developerId.value)) != 0 ==>
            s.result == Err(TaskFailure(CodeSignFailure)))
      && (osx.developerId.Some? && osx.publisherId.Some?
          && CodeSignCall(env, osx.developerId.value) !in env.oracle.failing
          && env.oracle.exitCode(CodeSignCall(env, osx.developerId.value)) == 0
          && ProductBuildCall(env, osx.publisherId.value) !in env.oracle.failing
          && env.oracle.exitCode(ProductBuildCall(env, osx.publisherId.value)) != 0 ==>
            s.result == Err(TaskFailure(OsxPackagingFailure)))
  {
  }

  /**
   * Whatever the outcome, the chain only extends the trace, and it builds an
   * installer package only after signing the bundle with the developer identity.
   */
  lemma SigningOrder(env: Env, t: seq<Event>)
    ensures var s := SigningRun(env, t);
      && |s.trace| >= |t| && s.trace[..|t|] == t
      && (forall i :: |t| <= i < |s.trace| && s.trace[i].ProductBuild? ==>
            env.project.osx.developerId.Some? && CodeSignCall(env, env.project.osx.developerId.value) in s.trace[|t|..i])
  {
    var s := SigningRun(env, t);
    match env.project.osx.developerId
    case None =>
    case Some(developerId) =>
      var sign := InfoLog("JetBuildTask.SigningOSXBundle.Info", []);
      var c := CodeSignCall(env, developerId);
      var creating := InfoLog("JetBuildTask.CreatingOSXInstaller.Info", []);
      if c in env.oracle.failing || env.oracle.exitCode(c) != 0 {
        assert s.trace[|t|..] == [sign, c];
      } else {
        match env.project.osx.publisherId
        case None =>
          assert s.trace[|t|..] == [sign, c, creating, Log(Warn, NoPublisherId, [])];
        case Some(publisherId) =>
          assert s.trace[|t|..] == [sign, c, creating, ProductBuildCall(env, publisherId)];
          assert s.trace[|t|..|t| + 3] == [sign, c, creating];
          forall i | |t| <= i < |s.trace| && s.trace[i].ProductBuild?
            ensures c in s.trace[|t|..i]
          {
            assert i == |t| + 3;
          }
      }
  }

  /** The chain succeeds with the installer package exactly when both identities are set. */
  lemma SigningPackage(env: Env, t: seq<Event>)
    ensures var s := SigningRun(env, t);
      s.result.Ok? ==>
        s.result.value == if env.project.osx.developerId.Some? && env.project.osx.publisherId.Some? then Some(AppPkg(env)) else None
  {
  }

  /**
   * The bundle step reports the installer package exactly when both
   * identities are set, and the bundle otherwise.
   */
  lemma OsxAppBundleArtifact(env: Env, t: seq<Event>, buildDir: string)
    ensures var r := CreateOsxAppBundleRun(env, t, buildDir);
      r.result.Ok? ==>
        r.result.value == (if env.project.osx.developerId.Some? && env.project.osx.publisherId.Some? then AppPkg(env) else AppBundle(env))
  {
    var r := CreateOsxAppBundleRun(env, t, buildDir);
    if r.result.Ok? {
      var tree := BundleTreeRun(env, t);
      var pack := BundlePackRun(env, tree.trace, buildDir);
      SigningPackage(env, pack.trace);
    }
  }

  /**
   * The bundle's packager call: a failing argument step or a non-zero exit
   * status ends the step, with the package failure for the exit status.
   */
  lemma BundlePackFailure(env: Env, t: seq<Event>, buildDir: string)
    ensures var a := XPackArgsRun(env, t, env.gen.bundleOptions, CommonRspFile(env, buildDir, ".OSXBundle"));
      var r := BundlePackRun(env, t, buildDir);
      && (a.result.Err? ==> r == Run(a.trace, Err(a.result.failure)))
      && (a.result.Ok? && Pack(buildDir, a.result.value) !in env.oracle.failing
          && env.oracle.exitCode(Pack(buildDir, a.result.value)) != 0 ==>
            r == Run(a.trace + [Pack(buildDir, a.result.value)], Err(TaskFailure(PackageFailure))))
  {
  }

  /**
   * createOSXAppBundle fails with the failure of its first failing part: the
   * tree, the packager call or the signing chain, and reports nothing then.
   */
  lemma OsxAppBundleFailures(env: Env, t: seq<Event>, buildDir: string)
    ensures var tree := BundleTreeRun(env, t); var r := CreateOsxAppBundleRun(env, t, buildDir);
      && (tree.result.Err? ==> r == Run(tree.trace, Err(tree.result.failure)))
      && (tree.result.Ok? ==>
            var pack := BundlePackRun(env, tree.trace, buildDir);
            && (pack.result.Err? ==> r == Run(pack.trace, Err(pack.result.failure)))
            && (pack.result.Ok? ==>
                  var signing := SigningRun(env, pack.trace);
                  signing.result.Err? ==> r == Run(signing.trace, Err(signing.result.failure))))
  {
  }

  /** The Info.plist is written into Contents of the bundle, from the output name and the bundle settings. */
  lemma OsxBundleWritesInfoPlist(env: Env, t: seq<Event>)
    ensures var tree := BundleTreeRun(env, t);
      tree.result.Ok? ==>
        tree.trace[|tree.trace| - 1] ==
          WriteText(AppBundle(env) + "/Contents/Info.plist", PropertyList(env.project.outputName, env.project.osx))
  {
    var tree := BundleTreeRun(env, t);
    assert Path(BundleContents(env), "Info.plist") == AppBundle(env) + "/Contents/Info.plist";
  }

  // ---------------------------------------------------------------------------
  // packageBuild

  /** The artifact each packaging kind reports. */
  function PackageArtifact(env: Env, packageDir: string): string
  {
    match env.project.packaging
    case Zip => ZipTarget(env)
    case TarGz => TarGzTarget(env)
    case ExcelsiorInstaller => InstallerTarget(env)
    case OsxAppBundle =>
      if env.project.osx.developerId.Some? && env.project.osx.publisherId.Some? then AppPkg(env) else AppBundle(env)
    case Directory => packageDir
  }

  /**
   * A successful packageBuild reports its kind's artifact and ends with the
   * slim-down note when the build is slimmed down.
   */
  lemma PackageBuildArtifact(env: Env, t: seq<Event>, buildDir: string, packageDir: string)
    ensures var r := PackageBuildRun(env, t, buildDir, packageDir);
      r.result.Ok? ==>
        && r.result.value == PackageArtifact(env, packageDir)
        && (env.project.slimDown.Some? ==> |r.trace| > 0 && r.trace[|r.trace| - 1] == SlimDownNote(env, env.project.slimDown.value))
  {
    PackageFormatArtifact(env, t, buildDir, packageDir);
  }

  lemma PackageFormatArtifact(env: Env, t: seq<Event>, buildDir: string, packageDir: string)
    ensures var r := PackageFormatRun(env, t, buildDir, packageDir);
      r.result.Ok? ==> r.result.value == PackageArtifact(env, packageDir)
  {
    match env.project.packaging
    case Zip => ZipBuildTarget(env, t, packageDir);
    case TarGz =>
    case ExcelsiorInstaller =>
    case OsxAppBundle => OsxAppBundleArtifact(env, t, buildDir);
    case Directory =>
  }

  /** The installer is packed with the installer's own packager arguments, and is the artifact. */
  lemma PackWithEIShape(env: Env, t: seq<Event>, buildDir: string)
    ensures var a := XPackArgsRun(env, t, env.gen.installerOptions, InstallerRspFile(env, buildDir));
      var r := PackWithEIRun(env, t, buildDir);
      && (a.result.Ok? ==> |r.trace| > |a.trace| && r.trace[..|a.trace| + 1] == a.trace + [Pack(buildDir, a.result.value)])
      && (r.result.Ok? ==> r.result.value == InstallerTarget(env))
      && (a.result.Ok? && Pack(buildDir, a.result.value) !in env.oracle.failing && env.oracle.exitCode(Pack(buildDir, a.result.value)) != 0 ==>
            r == Run(a.trace + [Pack(buildDir, a.result.value)], Err(TaskFailure(PackageFailure))))
  {
    var a := XPackArgsRun(env, t, env.gen.installerOptions, InstallerRspFile(env, buildDir));
    if a.result.Ok? {
      var p := Tool(env, a.trace, Pack(buildDir, a.result.value), PackageFailure);
      var r := PackWithEIRun(env, t, buildDir);
      assert r.trace[..|a.trace| + 1] == p.trace;
    }
  }

  // ---------------------------------------------------------------------------
  // Local profiling

  /**
   * Local profiling runs the image exactly once for the types that can be
   * run, never for a Windows service or a dynamic library; a profile that
   * was not collected is reported as an error without failing the run.
   */
  lemma LocalProfilingShape(env: Env, t: seq<Event>, dir: string)
    ensures var r := LocalProfilingRun(env, t, dir);
      && |r.trace| > |t| && r.trace[..|t|] == t
      && (r.result.Ok? ==> r.result.value == None)
      && (IsRunnable(env.project.appType) ==>
            r.trace[|t|] == CollectProfile(dir)
            && forall i :: |t| < i < |r.trace| ==> !r.trace[i].CollectProfile?)
      && (!IsRunnable(env.project.appType) ==>
            r.result.Ok? && forall i :: |t| <= i < |r.trace| ==> !r.trace[i].CollectProfile?)
      && (IsRunnable(env.project.appType) && CollectProfile(dir) !in env.oracle.failing && !env.oracle.profileCollected ==>
            r == Run(t + [CollectProfile(dir), Log(Error, ProfileNotCollected, [])], Ok(None)))
  {
  }
}
