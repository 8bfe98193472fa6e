/**
 * The build task as an object: it keeps the build directory it creates and
 * the trace of everything it has done, and each method is proved to extend
 * the trace exactly as the corresponding reference run in BuildSpec does.
 */
module JetBuild {
  import opened BuildModel
  import opened BuildLogic
  import opened BuildSpec

  class JetBuildTask {
    const jet: Toolchain
    const project: Project
    const gen: Generated
    const oracle: Oracle
    const toProfile: bool

    /** Unset until execute creates the build directory. */
    var buildDir: Option<string>

    /** Everything the build task has done so far, oldest first. */
    var trace: seq<Event>

    function Environment(): Env
    {
      Env(jet, project, gen, oracle, toProfile)
    }

    constructor (jet: Toolchain, project: Project, gen: Generated, oracle: Oracle, profile: bool)
      ensures this.jet == jet && this.project == project && this.gen == gen
      ensures this.oracle == oracle && this.toProfile == profile
      ensures buildDir == None && trace == []
    {
      this.jet := jet;
      this.project := project;
      this.gen := gen;
      this.oracle := oracle;
      this.toProfile := profile;
      buildDir := None;
      trace := [];
    }

    // Primitive steps.

    /** Records an event that cannot fail (a log line). */
    method Note(e: Event)
      modifies this`trace
      ensures trace == old(trace) + [e]
    {
      trace := trace + [e];
    }

    /** Attempts an operation that may fail. */
    method Perform(op: Event) returns (ok: bool)
      modifies this`trace
      ensures var s := Do(Environment(), old(trace), op); trace == s.trace && (ok <==> s.result.Ok?)
    {
      trace := trace + [op];
      ok := op !in oracle.failing;
    }

    /** Runs an external tool and checks its exit status. */
    method RunTool(call: Event, failureKey: string) returns (r: Outcome<()>)
      modifies this`trace
      ensures var s := Tool(Environment(), old(trace), call, failureKey); trace == s.trace && r == s.result
    {
      trace := trace + [call];
      if call in oracle.failing {
        r := Err(RaisedBy(call));
      } else if oracle.exitCode(call) != 0 {
        r := Err(TaskFailure(failureKey));
      } else {
        r := Ok(());
      }
    }

    // Compilation.

    /** createJetCompilerProject: returns the project file's name. */
    method CreateJetCompilerProject() returns (r: Outcome<string>)
      requires buildDir.Some?
      modifies this`trace
      ensures var s := CreateJetCompilerProjectRun(Environment(), old(trace), buildDir.value);
        trace == s.trace && r == if s.result.Ok? then Ok(ProjectFileName(project)) else Err(s.result.failure)
    {
      var prj := project.outputName + ".prj";
      var op := WriteText(Path(buildDir.value, prj), PlainText(gen.projectFile));
      var ok := Perform(op);
      if !ok {
        return Err(RaisedBy(op));
      }
      return Ok(prj);
    }

    /** compile. */
    method Compile(dir: string) returns (r: Outcome<()>)
      requires buildDir.Some?
      modifies this`trace
      ensures var s := CompileRun(Environment(), old(trace), buildDir.value, dir); trace == s.trace && r == s.result
    {
      var prj := CreateJetCompilerProject();
      if prj.Err? {
        return Err(prj.failure);
      }
      r := RunTool(Event.Compile(dir, ["=p", prj.value, gen.vmPropOpt]), BuildFailure);
    }

    // Packager arguments.

    /** getXPackArgs. */
    method GetXPackArgs(options: PackagerOptions, rspFile: string) returns (r: Outcome<seq<string>>)
      modifies this`trace
      ensures var s := XPackArgsRun(Environment(), old(trace), options, rspFile); trace == s.trace && r == s.result
    {
      if jet.since11_3 {
        var ok := Perform(WriteLines(rspFile, options.argFileLines));
        if !ok {
          return Err(TaskFailure("Cannot create file " + rspFile));
        }
        var xpackArgs := options.argsWithArgFile;
        xpackArgs := xpackArgs + ["-arg-file"];
        xpackArgs := xpackArgs + [rspFile];
        assert xpackArgs == options.argsWithArgFile + ["-arg-file", rspFile];
        return Ok(xpackArgs);
      } else {
        return Ok(options.argsWithoutArgFile);
      }
    }

    /** getCommonXPackArgs, given the options generated for the target directory. */
    method GetCommonXPackArgs(options: PackagerOptions, buildDir: string, suffix: string) returns (r: Outcome<seq<string>>)
      modifies this`trace
      ensures var s := XPackArgsRun(Environment(), old(trace), options, CommonRspFile(Environment(), buildDir, suffix));
        trace == s.trace && r == s.result
    {
      var rspFile := Path(buildDir, project.outputName + suffix + ".xpack");
      r := GetXPackArgs(options, rspFile);
    }

    /** getExcelsiorInstallerXPackArgs. */
    method GetExcelsiorInstallerXPackArgs(buildDir: string) returns (r: Outcome<seq<string>>)
      modifies this`trace
      ensures var s := XPackArgsRun(Environment(), old(trace), gen.installerOptions, InstallerRspFile(Environment(), buildDir));
        trace == s.trace && r == s.result
    {
      var rspFile := Path(buildDir, project.outputName + ".EI.xpack");
      r := GetXPackArgs(gen.installerOptions, rspFile);
    }

    // The self-contained directory.

    /** createAppOrProfileDir. */
    method CreateAppOrProfileDir(buildDir: string, appOrProfileDir: string) returns (r: Outcome<()>)
      modifies this`trace
      ensures var s := CreateAppOrProfileDirRun(Environment(), old(trace), buildDir, appOrProfileDir); trace == s.trace && r == s.result
    {
      var args := GetCommonXPackArgs(gen.directoryOptions, buildDir, ".SFD");
      if args.Err? {
        return Err(args.failure);
      }
      var xpackArgs := args.value;
      if UseXPackZipping(Environment()) {
        xpackArgs := xpackArgs + ["-backend"];
        xpackArgs := xpackArgs + ["self-contained-directory"];
        xpackArgs := xpackArgs + ["-zip"];
      }
      assert xpackArgs == DirectoryPackArgs(Environment(), args.value);
      r := RunTool(Pack(buildDir, xpackArgs), PackageFailure);
      if r.Err? {
        return;
      }
      if project.appType == WindowsService {
        var scripts := CreateWinServiceInstallScripts(appOrProfileDir);
        if scripts.Err? {
          return Err(TaskFailure(ScriptsFailure));
        }
      }
    }

    /** createWinServiceInstallScripts. */
    method CreateWinServiceInstallScripts(appDir: string) returns (r: Outcome<()>)
      modifies this`trace
      ensures var s := WinServiceScriptsRun(Environment(), old(trace), appDir); trace == s.trace && r == s.result
    {
      var copy := Copy(Path(Path(jet.jetHome, "bin"), "isrv.exe"), Path(appDir, "isrv.exe"));
      var ok := Perform(copy);
      if !ok {
        return Err(RaisedBy(copy));
      }
      var rspFile := project.outputName + ".rsp";
      var rsp := WriteLines(Path(appDir, rspFile), gen.isrvArgs);
      ok := Perform(rsp);
      if !ok {
        return Err(RaisedBy(rsp));
      }
      var install := WriteLines(Path(appDir, "install.bat"), gen.installBat);
      ok := Perform(install);
      if !ok {
        return Err(RaisedBy(install));
      }
      var uninstall := WriteLines(Path(appDir, "uninstall.bat"), gen.uninstallBat);
      ok := Perform(uninstall);
      if !ok {
        return Err(RaisedBy(uninstall));
      }
      return Ok(());
    }

    // Excelsior Installer.

    /** packWithEI. */
    method PackWithEI(buildDir: string) returns (r: Outcome<string>)
      modifies this`trace
      ensures var s := PackWithEIRun(Environment(), old(trace), buildDir); trace == s.trace && r == s.result
    {
      var target := Path(project.jetOutputDir, jet.mangleExeName(project.artifactName));
      var args := GetExcelsiorInstallerXPackArgs(buildDir);
      if args.Err? {
        return Err(args.failure);
      }
      var packed := RunTool(Pack(buildDir, args.value), PackageFailure);
      if packed.Err? {
        return Err(packed.failure);
      }
      Note(InfoLog(BuildSuccess, []));
      Note(InfoLog("JetBuildTask.GetEI.Info", [Text(target)]));
      return Ok(target);
    }

    // macOS application bundle.

    /** createOSXAppBundle. */
    method CreateOsxAppBundle(buildDir: string) returns (r: Outcome<string>)
      modifies this`trace
      ensures var s := CreateOsxAppBundleRun(Environment(), old(trace), buildDir); trace == s.trace && r == s.result
    {
      var tree := MakeBundleTree();
      if tree.Err? {
        return Err(tree.failure);
      }
      var packed := PackBundle(buildDir);
      if packed.Err? {
        return Err(packed.failure);
      }
      var appBundle := Path(project.jetOutputDir, project.osx.fileName + ".app");
      var signed := SignBundle(appBundle);
      if signed.Err? {
        return Err(signed.failure);
      }
      var appPkg := signed.value;
      Note(InfoLog(BuildSuccess, []));
      if appPkg.Some? {
        Note(InfoLog("JetBuildTask.GetOSXPackage.Info", [Text(appPkg.value)]));
        r := Ok(appPkg.value);
      } else {
        Note(InfoLog("JetBuildTask.GetOSXBundle.Info", [Text(appBundle)]));
        r := Ok(appBundle);
      }
    }

    /**
     * The signing chain of createOSXAppBundle, ending with the local `appPkg`:
     * the installer package, once one is built.
     */
    method SignBundle(appBundle: string) returns (r: Outcome<Option<string>>)
      requires appBundle == AppBundle(Environment())
      modifies this`trace
      ensures var s := SigningRun(Environment(), old(trace)); trace == s.trace && r == s.result
    {
      var appPkg: Option<string> := None;
      if project.osx.developerId.Some? {
        Note(InfoLog("JetBuildTask.SigningOSXBundle.Info", []));
        var signed := RunTool(CodeSign(["--verbose", "--force", "--deep", "--sign", project.osx.developerId.value, appBundle]),
                              CodeSignFailure);
        if signed.Err? {
          return Err(signed.failure);
        }
        Note(InfoLog("JetBuildTask.CreatingOSXInstaller.Info", []));
        if project.osx.publisherId.Some? {
          appPkg := Some(Path(project.jetOutputDir, project.artifactName + ".pkg"));
          var built := RunTool(ProductBuild(["--sign", project.osx.publisherId.value, "--component", appBundle,
                                             project.osx.installPath, appPkg.value]),
                               OsxPackagingFailure);
          if built.Err? {
            return Err(built.failure);
          }
        } else {
          Note(Log(Warn, NoPublisherId, []));
        }
      } else {
        Note(Log(Warn, NoDeveloperId, []));
      }
      return Ok(appPkg);
    }

    /** The bundle's directory tree and its Info.plist (the first part of createOSXAppBundle). */
    method MakeBundleTree() returns (r: Outcome<()>)
      modifies this`trace
      ensures var s := BundleTreeRun(Environment(), old(trace)); trace == s.trace && r == s.result
    {
      var appBundle := Path(project.jetOutputDir, project.osx.fileName + ".app");
      var ok := Perform(Mkdir(appBundle));
      if !ok {
        return Err(RaisedBy(Mkdir(appBundle)));
      }
      ok := Perform(CleanDir(appBundle));
      if !ok {
        return Err(RaisedBy(CleanDir(appBundle)));
      }
      var contents := Path(appBundle, "Contents");
      ok := Perform(Mkdir(contents));
      if !ok {
        return Err(RaisedBy(Mkdir(contents)));
      }
      var contentsMacOs := Path(contents, "MacOS");
      ok := Perform(Mkdir(contentsMacOs));
      if !ok {
        return Err(RaisedBy(Mkdir(contentsMacOs)));
      }
      var contentsResources := Path(contents, "Resources");
      ok := Perform(Mkdir(contentsResources));
      if !ok {
        return Err(RaisedBy(Mkdir(contentsResources)));
      }
      var plist := WriteText(Path(contents, "Info.plist"), PropertyList(project.outputName, project.osx));
      ok := Perform(plist);
      if !ok {
        return Err(RaisedBy(plist));
      }
      return Ok(());
    }

    /** Packs into Contents/MacOS and copies the icon (the middle part of createOSXAppBundle). */
    method PackBundle(buildDir: string) returns (r: Outcome<()>)
      modifies this`trace
      ensures var s := BundlePackRun(Environment(), old(trace), buildDir); trace == s.trace && r == s.result
    {
      var args := GetCommonXPackArgs(gen.bundleOptions, buildDir, ".OSXBundle");
      if args.Err? {
        return Err(args.failure);
      }
      r := RunTool(Pack(buildDir, args.value), PackageFailure);
      if r.Err? {
        return;
      }
      if project.osx.icon.Some? {
        var icon := project.osx.icon.value;
        var copy := Copy(icon.path, Path(Path(Path(Path(project.jetOutputDir, project.osx.fileName + ".app"), "Contents"), "Resources"), icon.name));
        var ok := Perform(copy);
        if !ok {
          return Err(RaisedBy(copy));
        }
      }
    }

    // Archives.

    /** zipBuild. */
    method ZipBuild(packageDir: string) returns (r: Outcome<string>)
      modifies this`trace
      ensures var s := ZipBuildRun(Environment(), old(trace), packageDir); trace == s.trace && r == s.result
    {
      var targetZip := if toProfile then project.jetAppToProfileDir + ".zip"
                       else Path(project.jetOutputDir, project.artifactName + ".zip");
      if UseXPackZipping(Environment()) {
        if !toProfile {
          if oracle.zipTargetExists {
            var deleted := Perform(Delete(targetZip));
            if !deleted && oracle.existsAfterFailedDelete {
              return Err(IoFailure(UnableToDelete));
            }
          }
          var renamed := Perform(Rename(packageDir + ".zip", targetZip));
          if !renamed && !oracle.existsAfterFailedRename {
            return Err(IoFailure(UnableToRename));
          }
        }
      } else {
        Note(InfoLog("JetBuildTask.ZipApp.Info", []));
        var ok := Perform(CompressZip(packageDir, targetZip));
        if !ok {
          return Err(RaisedBy(CompressZip(packageDir, targetZip)));
        }
      }
      return Ok(targetZip);
    }

    // Dispatch on the packaging kind.

    /** packageBuild; returns the reported artifact. */
    method PackageBuild(buildDir: string, packageDir: string) returns (r: Outcome<string>)
      modifies this`trace
      ensures var s := PackageBuildRun(Environment(), old(trace), buildDir, packageDir); trace == s.trace && r == s.result
    {
      match project.packaging {
        case Zip =>
          r := ZipBuild(packageDir);
          if r.Err? {
            return;
          }
          Note(InfoLog(BuildSuccess, []));
          Note(InfoLog("JetBuildTask.GetZip.Info", [Text(r.value)]));
        case TarGz =>
          Note(InfoLog("JetBuildTask.ArchiveApp.Info", []));
          var targetArchive := Path(project.jetOutputDir, project.artifactName + ".tar.gz");
          var ok := Perform(CompressTarGz(packageDir, targetArchive));
          if !ok {
            return Err(RaisedBy(CompressTarGz(packageDir, targetArchive)));
          }
          Note(InfoLog(BuildSuccess, []));
          Note(InfoLog("JetBuildTask.GetArchive.Info", [Text(targetArchive)]));
          r := Ok(targetArchive);
        case ExcelsiorInstaller =>
          r := PackWithEI(buildDir);
          if r.Err? {
            return;
          }
        case OsxAppBundle =>
          r := CreateOsxAppBundle(buildDir);
          if r.Err? {
            return;
          }
        case Directory =>
          Note(InfoLog(BuildSuccess, []));
          Note(InfoLog("JetBuildTask.GetDir.Info", [Text(packageDir)]));
          r := Ok(packageDir);
      }
      if project.slimDown.Some? {
        Note(InfoLog("JetBuildTask.SlimDown.Info",
                     [Text(Path(project.jetOutputDir, project.slimDown.value.detachedPackage)),
                      Text(project.slimDown.value.detachedBaseUrl)]));
      }
    }

    // Profiles.

    /** collectProfile: runs the instrumented image once. */
    method CollectProfile(profileDir: string) returns (ok: bool)
      modifies this`trace
      ensures var s := Do(Environment(), old(trace), Event.CollectProfile(profileDir)); trace == s.trace && (ok <==> s.result.Ok?)
    {
      ok := Perform(Event.CollectProfile(profileDir));
    }

    /** checkProfileUpToDate. */
    method CheckProfileUpToDate(profile: ProfileFile, warnKey: string)
      modifies this`trace
      ensures trace == ProfileCheck(project, old(trace), profile, warnKey)
    {
      if profile.present {
        var daysBefore := DaysBetween(profile.lastModified, project.mainArtifactModified);
        if daysBefore >= project.execProfiles.daysToWarn {
          Note(Log(Warn, warnKey, [Text(profile.path), Number(daysBefore)]));
        }
      }
    }

    /** checkProfilesUpToDate. */
    method CheckProfilesUpToDate()
      modifies this`trace
      ensures trace == StaleProfileWarnings(project, old(trace))
    {
      var execProfiles := project.execProfiles;
      if execProfiles.daysToWarn > 0 {
        CheckProfileUpToDate(execProfiles.startup, TestRunRecollect);
        CheckProfileUpToDate(execProfiles.usg, TestRunRecollect);
        CheckProfileUpToDate(execProfiles.jprofile, PgoRecollect);
      }
    }

    // The whole run.

    /**
     * execute. Returns the reported artifact of a production run, the zip of
     * a remote-profiling run, and nothing for a local-profiling run.
     */
    method Execute() returns (r: Outcome<Option<string>>)
      modifies this
      ensures var s := ExecuteRun(Environment(), old(trace)); trace == s.trace && r == s.result
      ensures buildDir == old(buildDir) || buildDir == Some(project.buildDir)
      ensures r.Ok? ==> buildDir == Some(project.buildDir)
    {
      if toProfile && !jet.pgoSupported {
        return Err(TaskFailure(PgoNotSupported));
      }
      var prepared := PrepareAndCompile();
      if prepared.Err? {
        return Err(prepared.failure);
      }
      var appOrProfileDir := if toProfile then project.jetAppToProfileDir else project.jetAppDir;
      var image := CreateAppOrProfileDir(buildDir.value, appOrProfileDir);
      if image.Err? {
        return Err(image.failure);
      }
      if toProfile {
        r := Profile(appOrProfileDir);
      } else {
        var packaged := PackageBuild(buildDir.value, appOrProfileDir);
        if packaged.Err? {
          return Err(packaged.failure);
        }
        CheckProfilesUpToDate();
        r := Ok(Some(packaged.value));
      }
    }

    /** The steps of execute up to and including the compiler call. */
    method PrepareAndCompile() returns (r: Outcome<()>)
      modifies this
      ensures var s := PrepareAndCompileRun(Environment(), old(trace)); trace == s.trace && r == s.result
      ensures buildDir == old(buildDir) || buildDir == Some(project.buildDir)
      ensures r.Ok? ==> buildDir == Some(project.buildDir)
    {
      var ok := Perform(Validate);
      if !ok {
        return Err(RaisedBy(Validate));
      }
      ok := Perform(CreateBuildDir(project.buildDir));
      if !ok {
        return Err(RaisedBy(CreateBuildDir(project.buildDir)));
      }
      buildDir := Some(project.buildDir);
      var appOrProfileDir := if toProfile then project.jetAppToProfileDir else project.jetAppDir;
      ok := Perform(CleanDir(appOrProfileDir));
      if !ok {
        return Err(RaisedBy(CleanDir(appOrProfileDir)));
      }
      var staging := match project.appType
        case Plain => CopyClasspathEntries
        case DynamicLibrary => CopyClasspathEntries
        case WindowsService => CopyClasspathEntries
        case Tomcat => CopyTomcatAndWar
        case SpringBoot => CopySpringBootArtifact;
      ok := Perform(Stage(staging));
      if !ok {
        return Err(RaisedBy(Stage(staging)));
      }
      r := Compile(buildDir.value);
    }

    /** The profiling branch of execute. */
    method Profile(appOrProfileDir: string) returns (r: Outcome<Option<string>>)
      requires buildDir.Some?
      modifies this`trace
      ensures var s := ProfilingRun(Environment(), old(trace), buildDir.value, appOrProfileDir); trace == s.trace && r == s.result
    {
      var ok := Perform(Mkdir(project.execProfiles.outputDir));
      if !ok {
        return Err(RaisedBy(Mkdir(project.execProfiles.outputDir)));
      }
      if project.profileLocally {
        r := ProfileLocally(appOrProfileDir);
      } else {
        var zipFile := ZipBuild(buildDir.value);
        if zipFile.Err? {
          return Err(zipFile.failure);
        }
        Note(InfoLog("JetApi.Profile.NotLocally",
                     [Text(project.execProfiles.profilingImageDir), Text(zipFile.value),
                      Text(project.execProfiles.jprofile.name), Text(project.execProfiles.outputDir)]));
        r := Ok(Some(zipFile.value));
      }
    }

    /** The local-profiling part of execute. */
    method ProfileLocally(appOrProfileDir: string) returns (r: Outcome<Option<string>>)
      modifies this`trace
      ensures var s := LocalProfilingRun(Environment(), old(trace), appOrProfileDir); trace == s.trace && r == s.result
    {
      match project.appType {
        case WindowsService =>
          Note(InfoLog("JetApi.Profile.WinService", [Text(project.execProfiles.profilingImageDir)]));
        case DynamicLibrary =>
          Note(InfoLog("JetApi.Profile.DynamicLibrary", [Text(project.execProfiles.profilingImageDir)]));
        case _ =>
          var ok := CollectProfile(appOrProfileDir);
          if !ok {
            return Err(RaisedBy(Event.CollectProfile(appOrProfileDir)));
          }
          if oracle.profileCollected {
            Note(InfoLog(ProfileCollected, []));
          } else {
            Note(Log(Error, ProfileNotCollected, []));
          }
      }
      return Ok(None);
    }
  }
}
