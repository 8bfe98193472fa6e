/**
 * The reference behaviour of each step of the build task. A step is a
 * function of the environment and of the trace before it; it returns the
 * trace after it and how it ended. A failing step ends the enclosing one
 * at once, as an exception does. The imperative task in module JetBuild is
 * proved to leave exactly these traces and outcomes.
 */
module BuildSpec {
  import opened BuildModel
  import opened BuildLogic

  // Message keys the build task reports.
  const PgoNotSupported := "JetApi.PGONotSupported.Failure"
  const BuildFailure := "JetBuildTask.Build.Failure"
  const PackageFailure := "JetBuildTask.Package.Failure"
  const ScriptsFailure := "JetBuildTask.WinServiceScriptsCreation.Failure"
  const CodeSignFailure := "JetBuildTask.OSX.CodeSign.Failure"
  const OsxPackagingFailure := "JetBuildTask.OSX.Packaging.Failure"
  const UnableToDelete := "JetApi.UnableToDelete.Error"
  const UnableToRename := "JetBuildTask.UnableToRename.Error"
  const BuildSuccess := "JetBuildTask.Build.Success"
  const NoDeveloperId := "JetBuildTask.NoDeveloperId.Warning"
  const NoPublisherId := "JetBuildTask.NoPublisherId.Warning"
  const TestRunRecollect := "JetApi.TestRun.RecollectProfile.Warning"
  const PgoRecollect := "JetApi.PGO.RecollectProfile.Warning"
  const ProfileCollected := "JetApi.Profile.ProfileCollected"
  const ProfileNotCollected := "JetApi.Profile.ProfileNotCollected"

  /** The arguments that make the packager zip the self-contained directory. */
  const ZipBackendArgs: seq<string> := ["-backend", "self-contained-directory", "-zip"]

  function InfoLog(key: string, params: seq<Arg>): Event
  {
    Log(Info, key, params)
  }

  /** Attempts one operation, which the oracle may make fail. */
  function Do(env: Env, t: seq<Event>, op: Event): Run<()>
  {
    Run(t + [op], if op in env.oracle.failing then Err(RaisedBy(op)) else Ok(()))
  }

  /** Runs one external tool; a non-zero exit status fails with `failureKey`. */
  function Tool(env: Env, t: seq<Event>, call: Event, failureKey: string): Run<()>
  {
    Run(t + [call],
        if call in env.oracle.failing then Err(RaisedBy(call))
        else if env.oracle.exitCode(call) != 0 then Err(TaskFailure(failureKey))
        else Ok(()))
  }

  // Compilation.

  function ProjectFileName(p: Project): string
  {
    p.outputName + ".prj"
  }

  /** The one compiler call of a run. */
  function CompileCall(env: Env, dir: string): Event
  {
    Compile(dir, ["=p", ProjectFileName(env.project), env.gen.vmPropOpt])
  }

  /** createJetCompilerProject: writes the compiler project file into the build directory. */
  function CreateJetCompilerProjectRun(env: Env, t: seq<Event>, buildDir: string): Run<()>
  {
    Do(env, t, WriteText(Path(buildDir, ProjectFileName(env.project)), PlainText(env.gen.projectFile)))
  }

  /** compile: the project file, then the compiler. */
  function CompileRun(env: Env, t: seq<Event>, buildDir: string, dir: string): Run<()>
  {
    var p := CreateJetCompilerProjectRun(env, t, buildDir);
    if p.result.Err? then p else Tool(env, p.trace, CompileCall(env, dir), BuildFailure)
  }

  // Packager arguments.

  /** getXPackArgs: since 11.3 the options go to a response file named on the command line. */
  function XPackArgsRun(env: Env, t: seq<Event>, options: PackagerOptions, rspFile: string): Run<seq<string>>
  {
    if env.jet.since11_3 then
      var write := WriteLines(rspFile, options.argFileLines);
      Run(t + [write],
          if write in env.oracle.failing then Err(TaskFailure("Cannot create file " + rspFile))
          else Ok(options.argsWithArgFile + ["-arg-file", rspFile]))
    else
      Run(t, Ok(options.argsWithoutArgFile))
  }

  function CommonRspFile(env: Env, buildDir: string, suffix: string): string
  {
    Path(buildDir, env.project.outputName + suffix + ".xpack")
  }

  function InstallerRspFile(env: Env, buildDir: string): string
  {
    Path(buildDir, env.project.outputName + ".EI.xpack")
  }

  // The self-contained directory.

  /** The packager arguments for the self-contained directory, given the common ones. */
  function DirectoryPackArgs(env: Env, common: seq<string>): seq<string>
  {
    common + (if UseXPackZipping(env) then ZipBackendArgs else [])
  }

  function IsrvSource(env: Env): string
  {
    Path(Path(env.jet.jetHome, "bin"), "isrv.exe")
  }

  /** createWinServiceInstallScripts: the helper executable and three script files. */
  function WinServiceScriptsRun(env: Env, t: seq<Event>, appDir: string): Run<()>
  {
    var s1 := Do(env, t, Copy(IsrvSource(env), Path(appDir, "isrv.exe")));
    if s1.result.Err? then s1 else
    var s2 := Do(env, s1.trace, WriteLines(Path(appDir, env.project.outputName + ".rsp"), env.gen.isrvArgs));
    if s2.result.Err? then s2 else
    var s3 := Do(env, s2.trace, WriteLines(Path(appDir, "install.bat"), env.gen.installBat));
    if s3.result.Err? then s3 else
    Do(env, s3.trace, WriteLines(Path(appDir, "uninstall.bat"), env.gen.uninstallBat))
  }

  /** createAppOrProfileDir. */
  function CreateAppOrProfileDirRun(env: Env, t: seq<Event>, buildDir: string, dir: string): Run<()>
  {
    var a := XPackArgsRun(env, t, env.gen.directoryOptions, CommonRspFile(env, buildDir, ".SFD"));
    if a.result.Err? then Run(a.trace, Err(a.result.failure)) else
    var p := Tool(env, a.trace, Pack(buildDir, DirectoryPackArgs(env, a.result.value)), PackageFailure);
    if p.result.Err? || env.project.appType != WindowsService then p else
    var s := WinServiceScriptsRun(env, p.trace, dir);
    if s.result.Err? then Run(s.trace, Err(TaskFailure(ScriptsFailure))) else s
  }

  // Excelsior Installer.

  function InstallerTarget(env: Env): string
  {
    Path(env.project.jetOutputDir, env.jet.mangleExeName(env.project.artifactName))
  }

  /** packWithEI: the reported artifact is the installer. */
  function PackWithEIRun(env: Env, t: seq<Event>, buildDir: string): Run<string>
  {
    var a := XPackArgsRun(env, t, env.gen.installerOptions, InstallerRspFile(env, buildDir));
    if a.result.Err? then Run(a.trace, Err(a.result.failure)) else
    var p := Tool(env, a.trace, Pack(buildDir, a.result.value), PackageFailure);
    if p.result.Err? then Run(p.trace, Err(p.result.failure)) else
    var target := InstallerTarget(env);
    Run(p.trace + [InfoLog(BuildSuccess, [])] + [InfoLog("JetBuildTask.GetEI.Info", [Text(target)])], Ok(target))
  }

  // macOS application bundle.

  function AppBundle(env: Env): string
  {
    Path(env.project.jetOutputDir, env.project.osx.fileName + ".app")
  }

  function BundleContents(env: Env): string
  {
    Path(AppBundle(env), "Contents")
  }

  function BundleMacOs(env: Env): string
  {
    Path(BundleContents(env), "MacOS")
  }

  function BundleResources(env: Env): string
  {
    Path(BundleContents(env), "Resources")
  }

  function AppPkg(env: Env): string
  {
    Path(env.project.jetOutputDir, env.project.artifactName + ".pkg")
  }

  /** The bundle tree and its Info.plist. */
  function BundleTreeRun(env: Env, t: seq<Event>): Run<()>
  {
    var s1 := Do(env, t, Mkdir(AppBundle(env)));
    if s1.result.Err? then s1 else
    var s2 := Do(env, s1.trace, CleanDir(AppBundle(env)));
    if s2.result.Err? then s2 else
    var s3 := Do(env, s2.trace, Mkdir(BundleContents(env)));
    if s3.result.Err? then s3 else
    var s4 := Do(env, s3.trace, Mkdir(BundleMacOs(env)));
    if s4.result.Err? then s4 else
    var s5 := Do(env, s4.trace, Mkdir(BundleResources(env)));
    if s5.result.Err? then s5 else
    Do(env, s5.trace, WriteText(Path(BundleContents(env), "Info.plist"), PropertyList(env.project.outputName, env.project.osx)))
  }

  /** Packs the executable into Contents/MacOS and copies the icon. */
  function BundlePackRun(env: Env, t: seq<Event>, buildDir: string): Run<()>
  {
    var a := XPackArgsRun(env, t, env.gen.bundleOptions, CommonRspFile(env, buildDir, ".OSXBundle"));
    if a.result.Err? then Run(a.trace, Err(a.result.failure)) else
    var p := Tool(env, a.trace, Pack(buildDir, a.result.value), PackageFailure);
    if p.result.Err? then p else
    match env.project.osx.icon
    case None => p
    case Some(icon) => Do(env, p.trace, Copy(icon.path, Path(BundleResources(env), icon.name)))
  }

  function CodeSignCall(env: Env, developerId: string): Event
  {
    CodeSign(["--verbose", "--force", "--deep", "--sign", developerId, AppBundle(env)])
  }

  function ProductBuildCall(env: Env, publisherId: string): Event
  {
    ProductBuild(["--sign", publisherId, "--component", AppBundle(env), env.project.osx.installPath, AppPkg(env)])
  }

  /** The signing chain; its value is the installer package, when one is built. */
  function SigningRun(env: Env, t: seq<Event>): Run<Option<string>>
  {
    match env.project.osx.developerId
    case None => Run(t + [Log(Warn, NoDeveloperId, [])], Ok(None))
    case Some(developerId) =>
      var c := Tool(env, t + [InfoLog("JetBuildTask.SigningOSXBundle.Info", [])], CodeSignCall(env, developerId), CodeSignFailure);
      if c.result.Err? then Run(c.trace, Err(c.result.failure)) else
      var u := c.trace + [InfoLog("JetBuildTask.CreatingOSXInstaller.Info", [])];
      match env.project.osx.publisherId
      case None => Run(u + [Log(Warn, NoPublisherId, [])], Ok(None))
      case Some(publisherId) =>
        var b := Tool(env, u, ProductBuildCall(env, publisherId), OsxPackagingFailure);
        if b.result.Err? then Run(b.trace, Err(b.result.failure)) else Run(b.trace, Ok(Some(AppPkg(env))))
  }

  /** The closing report: the installer package if there is one, else the bundle. */
  function BundleReport(env: Env, t: seq<Event>, appPkg: Option<string>): Run<string>
  {
    var artifact := if appPkg.Some? then appPkg.value else AppBundle(env);
    var key := if appPkg.Some? then "JetBuildTask.GetOSXPackage.Info" else "JetBuildTask.GetOSXBundle.Info";
    Run(t + [InfoLog(BuildSuccess, [])] + [InfoLog(key, [Text(artifact)])], Ok(artifact))
  }

  /** createOSXAppBundle. */
  function CreateOsxAppBundleRun(env: Env, t: seq<Event>, buildDir: string): Run<string>
  {
    var tree := BundleTreeRun(env, t);
    if tree.result.Err? then Run(tree.trace, Err(tree.result.failure)) else
    var pack := BundlePackRun(env, tree.trace, buildDir);
    if pack.result.Err? then Run(pack.trace, Err(pack.result.failure)) else
    var signing := SigningRun(env, pack.trace);
    if signing.result.Err? then Run(signing.trace, Err(signing.result.failure)) else
    BundleReport(env, signing.trace, signing.result.value)
  }

  // Archives.

  /** The zip file zipBuild produces. */
  function ZipTarget(env: Env): string
  {
    if env.toProfile then env.project.jetAppToProfileDir + ".zip"
    else Path(env.project.jetOutputDir, env.project.artifactName + ".zip")
  }

  /** Removing a zip file already at the target: failing only if it is still there. */
  function DeleteOldZipRun(env: Env, t: seq<Event>): Run<()>
  {
    var delete := Delete(ZipTarget(env));
    if !env.oracle.zipTargetExists then Run(t, Ok(()))
    else Run(t + [delete],
             if delete in env.oracle.failing && env.oracle.existsAfterFailedDelete then Err(IoFailure(UnableToDelete))
             else Ok(()))
  }

  /** Moving the packager's zip onto the target: failing only if the target is then absent. */
  function RenameZipRun(env: Env, t: seq<Event>, packageDir: string): Run<()>
  {
    var rename := Rename(packageDir + ".zip", ZipTarget(env));
    Run(t + [rename],
        if rename in env.oracle.failing && !env.oracle.existsAfterFailedRename then Err(IoFailure(UnableToRename))
        else Ok(()))
  }

  /** zipBuild: its value is the zip file. */
  function ZipBuildRun(env: Env, t: seq<Event>, packageDir: string): Run<string>
  {
    var target := ZipTarget(env);
    if UseXPackZipping(env) then
      if env.toProfile then Run(t, Ok(target)) else
      var d := DeleteOldZipRun(env, t);
      if d.result.Err? then Run(d.trace, Err(d.result.failure)) else
      var r := RenameZipRun(env, d.trace, packageDir);
      if r.result.Err? then Run(r.trace, Err(r.result.failure)) else Run(r.trace, Ok(target))
    else
      var c := Do(env, t + [InfoLog("JetBuildTask.ZipApp.Info", [])], CompressZip(packageDir, target));
      if c.result.Err? then Run(c.trace, Err(c.result.failure)) else Run(c.trace, Ok(target))
  }

  function TarGzTarget(env: Env): string
  {
    Path(env.project.jetOutputDir, env.project.artifactName + ".tar.gz")
  }

  /** The .tar.gz branch of packageBuild. */
  function TarGzRun(env: Env, t: seq<Event>, packageDir: string): Run<string>
  {
    var target := TarGzTarget(env);
    var c := Do(env, t + [InfoLog("JetBuildTask.ArchiveApp.Info", [])], CompressTarGz(packageDir, target));
    if c.result.Err? then Run(c.trace, Err(c.result.failure)) else
    Run(c.trace + [InfoLog(BuildSuccess, [])] + [InfoLog("JetBuildTask.GetArchive.Info", [Text(target)])], Ok(target))
  }

  // Dispatch on the packaging kind.

  /** The packaging step proper; its value is the reported artifact. */
  function PackageFormatRun(env: Env, t: seq<Event>, buildDir: string, packageDir: string): Run<string>
  {
    match env.project.packaging
    case Zip =>
      var z := ZipBuildRun(env, t, packageDir);
      if z.result.Err? then z
      else Run(z.trace + [InfoLog(BuildSuccess, [])] + [InfoLog("JetBuildTask.GetZip.Info", [Text(z.result.value)])], z.result)
    case TarGz => TarGzRun(env, t, packageDir)
    case ExcelsiorInstaller => PackWithEIRun(env, t, buildDir)
    case OsxAppBundle => CreateOsxAppBundleRun(env, t, buildDir)
    case Directory =>
      Run(t + [InfoLog(BuildSuccess, [])] + [InfoLog("JetBuildTask.GetDir.Info", [Text(packageDir)])], Ok(packageDir))
  }

  /** The note on the detached package of a slimmed-down build. */
  function SlimDownNote(env: Env, s: SlimDown): Event
  {
    InfoLog("JetBuildTask.SlimDown.Info", [Text(Path(env.project.jetOutputDir, s.detachedPackage)), Text(s.detachedBaseUrl)])
  }

  /** packageBuild. */
  function PackageBuildRun(env: Env, t: seq<Event>, buildDir: string, packageDir: string): Run<string>
  {
    var r := PackageFormatRun(env, t, buildDir, packageDir);
    if r.result.Err? then r else
    match env.project.slimDown
    case None => r
    case Some(s) => Run(r.trace + [SlimDownNote(env, s)], r.result)
  }

  // Profiles.

  /** checkProfileUpToDate: the trace after it. */
  function ProfileCheck(p: Project, t: seq<Event>, profile: ProfileFile, warnKey: string): seq<Event>
  {
    if profile.present then
      var days := DaysBetween(profile.lastModified, p.mainArtifactModified);
      if days >= p.execProfiles.daysToWarn then t + [Log(Warn, warnKey, [Text(profile.path), Number(days)])] else t
    else t
  }

  /** checkProfilesUpToDate: the trace after it. */
  function StaleProfileWarnings(p: Project, t: seq<Event>): seq<Event>
  {
    var profiles := p.execProfiles;
    if profiles.daysToWarn > 0 then
      ProfileCheck(p, ProfileCheck(p, ProfileCheck(p, t, profiles.startup, TestRunRecollect), profiles.usg, TestRunRecollect),
                   profiles.jprofile, PgoRecollect)
    else t
  }

  /** Application types whose image the build task runs to collect a profile. */
  predicate IsRunnable(t: ApplicationType)
  {
    t == Plain || t == Tomcat || t == SpringBoot
  }

  /** Local profiling: run the image, or say how to do it by hand. */
  function LocalProfilingRun(env: Env, t: seq<Event>, dir: string): Run<Option<string>>
  {
    var imageDir := env.project.execProfiles.profilingImageDir;
    match env.project.appType
    case WindowsService => Run(t + [InfoLog("JetApi.Profile.WinService", [Text(imageDir)])], Ok(None))
    case DynamicLibrary => Run(t + [InfoLog("JetApi.Profile.DynamicLibrary", [Text(imageDir)])], Ok(None))
    case _ =>
      var c := Do(env, t, CollectProfile(dir));
      if c.result.Err? then Run(c.trace, Err(c.result.failure)) else
      var report := if env.oracle.profileCollected then InfoLog(ProfileCollected, []) else Log(Error, ProfileNotCollected, []);
      Run(c.trace + [report], Ok(None))
  }

  /** The report of a remote-profiling run: where the image is and what to send back. */
  function NotLocallyNote(env: Env, zip: string): Event
  {
    var profiles := env.project.execProfiles;
    InfoLog("JetApi.Profile.NotLocally",
            [Text(profiles.profilingImageDir), Text(zip), Text(profiles.jprofile.name), Text(profiles.outputDir)])
  }

  /** The profiling branch of execute; its value is the zip of a remote-profiling run. */
  function ProfilingRun(env: Env, t: seq<Event>, buildDir: string, dir: string): Run<Option<string>>
  {
    var m := Do(env, t, Mkdir(env.project.execProfiles.outputDir));
    if m.result.Err? then Run(m.trace, Err(m.result.failure))
    else if env.project.profileLocally then LocalProfilingRun(env, m.trace, dir)
    else
      var z := ZipBuildRun(env, m.trace, buildDir);
      if z.result.Err? then Run(z.trace, Err(z.result.failure))
      else Run(z.trace + [NotLocallyNote(env, z.result.value)], Ok(Some(z.result.value)))
  }

  /** The production branch of execute: package, then warn about stale profiles. */
  function ProductionRun(env: Env, t: seq<Event>, buildDir: string, dir: string): Run<Option<string>>
  {
    var p := PackageBuildRun(env, t, buildDir, dir);
    if p.result.Err? then Run(p.trace, Err(p.result.failure))
    else Run(StaleProfileWarnings(env.project, p.trace), Ok(Some(p.result.value)))
  }

  // The whole run.

  /** The directory the self-contained image goes to. */
  function AppOrProfileDir(env: Env): string
  {
    if env.toProfile then env.project.jetAppToProfileDir else env.project.jetAppDir
  }

  function StagingFor(t: ApplicationType): Staging
  {
    match t
    case Plain => CopyClasspathEntries
    case DynamicLibrary => CopyClasspathEntries
    case WindowsService => CopyClasspathEntries
    case Tomcat => CopyTomcatAndWar
    case SpringBoot => CopySpringBootArtifact
  }

  /** Validate, create and clean the directories, stage the inputs, compile. */
  function PrepareAndCompileRun(env: Env, t: seq<Event>): Run<()>
  {
    var buildDir := env.project.buildDir;
    var s1 := Do(env, t, Validate);
    if s1.result.Err? then s1 else
    var s2 := Do(env, s1.trace, CreateBuildDir(buildDir));
    if s2.result.Err? then s2 else
    var s3 := Do(env, s2.trace, CleanDir(AppOrProfileDir(env)));
    if s3.result.Err? then s3 else
    var s4 := Do(env, s3.trace, Stage(StagingFor(env.project.appType)));
    if s4.result.Err? then s4 else
    CompileRun(env, s4.trace, buildDir, buildDir)
  }

  /** Everything up to and including the self-contained directory. */
  function BuildImageRun(env: Env, t: seq<Event>): Run<()>
  {
    var p := PrepareAndCompileRun(env, t);
    if p.result.Err? then p else CreateAppOrProfileDirRun(env, p.trace, env.project.buildDir, AppOrProfileDir(env))
  }

  /**
   * execute. Its value is the reported artifact of a production run, the zip
   * of a remote-profiling run, and nothing for a local-profiling run.
   */
  function ExecuteRun(env: Env, t: seq<Event>): Run<Option<string>>
  {
    if env.toProfile && !env.jet.pgoSupported then Run(t, Err(TaskFailure(PgoNotSupported))) else
    var b := BuildImageRun(env, t);
    if b.result.Err? then Run(b.trace, Err(b.result.failure))
    else if env.toProfile then ProfilingRun(env, b.trace, env.project.buildDir, AppOrProfileDir(env))
    else ProductionRun(env, b.trace, env.project.buildDir, AppOrProfileDir(env))
  }
}
