/**
 * The values a run of the Excelsior JET build task works on: the toolchain,
 * the project configuration, the outputs of the collaborators whose code is
 * not part of this model, the oracle that answers for the outside world, and
 * the trace of events a run leaves behind.
 */
module BuildModel {

  datatype Option<T> = None | Some(value: T)

  /** The kinds of application the build task can build. */
  datatype ApplicationType = Plain | DynamicLibrary | WindowsService | Tomcat | SpringBoot

  /**
   * The packaging kinds the build task dispatches on. `Directory` stands for every
   * other packaging kind: the self-contained directory is the artifact.
   */
  datatype PackagingType = Zip | TarGz | ExcelsiorInstaller | OsxAppBundle | Directory

  /**
   * What the build task asks of the installed toolchain: its version gates, PGO
   * support, its home directory and the target OS's executable-name mangling.
   */
  datatype Toolchain = Toolchain(
    since11_3: bool,
    since12_0: bool,
    pgoSupported: bool,
    jetHome: string,
    mangleExeName: string -> string)

  datatype SlimDown = SlimDown(detachedPackage: string, detachedBaseUrl: string)

  /** An icon file: its path and its file name. */
  datatype Icon = Icon(path: string, name: string)

  datatype OsxBundle = OsxBundle(
    fileName: string,
    bundleName: string,
    identifier: string,
    version: string,
    shortVersion: string,
    icon: Option<Icon>,
    highResolutionCapable: bool,
    developerId: Option<string>,
    publisherId: Option<string>,
    installPath: string)

  /** A profile file as the file system reports it. */
  datatype ProfileFile = ProfileFile(path: string, name: string, present: bool, lastModified: int)

  datatype ExecProfiles = ExecProfiles(
    outputDir: string,
    profilingImageDir: string,
    startup: ProfileFile,
    usg: ProfileFile,
    jprofile: ProfileFile,
    daysToWarn: int)

  /** The validated project configuration. */
  datatype Project = Project(
    appType: ApplicationType,
    packaging: PackagingType,
    profileLocally: bool,
    outputName: string,
    artifactName: string,
    jetOutputDir: string,
    jetAppDir: string,
    jetAppToProfileDir: string,
    buildDir: string,
    mainArtifactModified: int,
    slimDown: Option<SlimDown>,
    diskFootprintReduction: bool,
    osx: OsxBundle,
    execProfiles: ExecProfiles)

  /**
   * What the packager-options generator makes of one set of options: the
   * lines of the response file, the argument list used together with a
   * response file, and the argument list used without one.
   */
  datatype PackagerOptions = PackagerOptions(
    argFileLines: seq<string>,
    argsWithArgFile: seq<string>,
    argsWithoutArgFile: seq<string>)

  /** The outputs of the compiler-, packager- and service-script generators. */
  datatype Generated = Generated(
    projectFile: string,
    vmPropOpt: string,
    directoryOptions: PackagerOptions,
    bundleOptions: PackagerOptions,
    installerOptions: PackagerOptions,
    isrvArgs: seq<string>,
    installBat: seq<string>,
    uninstallBat: seq<string>)

  datatype Level = Info | Warn | Error

  datatype Arg = Text(text: string) | Number(number: int)

  /** The inputs staged for the compiler, one kind per group of application types. */
  datatype Staging = CopyClasspathEntries | CopyTomcatAndWar | CopySpringBootArtifact

  /**
   * What a text file is written with: text the build task receives from a
   * collaborator, or the Info.plist of a bundle, named by what it is made
   * from (its text is BuildLogic.InfoPlist of these).
   */
  datatype Content = PlainText(text: string) | PropertyList(outputName: string, bundle: OsxBundle)

  /** One observable step of a run. */
  datatype Event =
    | Validate
    | CreateBuildDir(path: string)
    | CleanDir(path: string)
    | Stage(staging: Staging)
    | Mkdir(path: string)
    | WriteText(path: string, content: Content)
    | WriteLines(path: string, lines: seq<string>)
    | Copy(from: string, to: string)
    | Compile(dir: string, args: seq<string>)
    | Pack(dir: string, args: seq<string>)
    | CodeSign(args: seq<string>)
    | ProductBuild(args: seq<string>)
    | CollectProfile(dir: string)
    | CompressZip(source: string, target: string)
    | CompressTarGz(source: string, target: string)
    | Delete(path: string)
    | Rename(from: string, to: string)
    | Log(level: Level, key: string, params: seq<Arg>)

  /**
   * The outside world. `exitCode` is the exit status of each external tool
   * call. An attempted operation in `failing` does not succeed: an operation
   * that throws (a tool that cannot be started, a file that cannot be
   * written, a failing validation) throws, and `File.delete`/`File.renameTo`
   * return false. The remaining fields are the file-existence answers the
   * task asks for.
   */
  datatype Oracle = Oracle(
    exitCode: Event -> int,
    failing: set<Event>,
    profileCollected: bool,
    zipTargetExists: bool,
    existsAfterFailedDelete: bool,
    existsAfterFailedRename: bool)

  /** Everything a run depends on. */
  datatype Env = Env(jet: Toolchain, project: Project, gen: Generated, oracle: Oracle, toProfile: bool)

  /** How a run can fail. */
  datatype Failure =
    | TaskFailure(message: string)  // a task failure carrying a message key (or literal text)
    | IoFailure(message: string)    // an I/O exception the build task raises itself, with its message key
    | RaisedBy(op: Event)           // the exception raised by that operation, propagated

  datatype Outcome<T> = Ok(value: T) | Err(failure: Failure)

  /**
   * A step of a run, seen from outside: the trace once the step is over
   * (everything done before it, then what it did) and how the step ended.
   */
  datatype Run<T> = Run(trace: seq<Event>, result: Outcome<T>)

  /** `new File(dir, name)`; paths are absolute throughout. */
  function Path(dir: string, name: string): string
  {
    dir + "/" + name
  }
}
