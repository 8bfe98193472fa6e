# Excelsior JET build task, modelled in Dafny

This project models the build task of the Excelsior JET API: the object that
turns a Java project into a native image. It validates the project, compiles
it with the JET AOT compiler and packs a self-contained directory with the
`xpack` packager. Then it either packages the result or runs a profiling
cycle. A production run packages the result as a zip, a tar.gz, an Excelsior
Installer setup or a macOS application bundle, then warns about stale
execution profiles. A profiling run collects profiles, either locally or by
shipping a profiling image. The model also covers the small stack-trace
support setting, which is printed in lower case and parsed case-insensitively.

The build task is a trace machine. Every file-system operation, log line, packager
call and external-tool call the build task attempts is an `Event`. The build task appends
each event to its trace, including the attempt that fails. The outside world
is an `Env`: the toolchain's capabilities, the project's configuration, the
outputs of the argument generators, and an `Oracle` that says which
operations fail, what exit status each tool returns and whether a profile
appeared.

- `BuildModel` holds the data model: application and packaging types, toolchain, project, macOS bundle and profile settings, events, outcomes and the environment.
- `BuildLogic` holds the pure decisions:
  - `UseXPackZipping`, with Java's operator precedence kept;
  - the day count between modification times, with Java's truncating `long` division;
  - the Info.plist text, plus a structured view of the entries it is meant to hold.
- `BuildSpec` holds one reference function per operation of the build task. Each takes the trace before the step and returns the trace after it with the step's outcome (`Run`).
- `JetBuild.JetBuildTask` is the build task as a class:
  - it has the build directory and the trace as mutable fields;
  - each method is imperative code over those fields;
  - each method is proved to leave exactly the trace, and return exactly the result, of its reference function.
- `BuildProperties`, `BuildStepProperties` and `BuildRunProperties` prove what the build task promises about those reference runs, and so about the methods:
  - the zipping rule;
  - stale-profile warnings;
  - the Info.plist contents;
  - the order of signing and packaging;
  - the artifacts that are reported;
  - the single compiler call;
  - which branches may run profiles, report success or warn.
- `StackTraceSupport` models the enum, its `toString` and `fromString`, with round trip and case-insensitivity.

`useXPackZipping` allows packager zipping for a profiling run only when
profiling is remote (`JetBuildTask.java:91-92`), because `&&` binds tighter
than `||` there. `BuildProperties.UseXPackZippingByRunKind` states the
predicate by cases of the run kind.

## Model

| member | source | states |
|---|---|---|
| JetBuild.JetBuildTask.constructor | src/main/java/com/excelsiorjet/api/tasks/JetBuildTask.java:57-63 | keeps the toolchain, the project and the profile flag; no build directory yet and nothing done |
| JetBuild.JetBuildTask.CreateJetCompilerProject | src/main/java/com/excelsiorjet/api/tasks/JetBuildTask.java:70-78 | writes the generated project file `<outputName>.prj` into the build directory and returns its name, or fails with the write's error |
| JetBuild.JetBuildTask.Compile | src/main/java/com/excelsiorjet/api/tasks/JetBuildTask.java:83-88 | writes the project file, then calls the compiler once with `=p`, the file and the VM property option; a non-zero exit is the build failure |
| JetBuild.JetBuildTask.GetXPackArgs | src/main/java/com/excelsiorjet/api/tasks/JetBuildTask.java:102-116 | leaves the trace and result of the response-file step, whose shape XPackArgsShape proves |
| JetBuild.JetBuildTask.GetCommonXPackArgs | src/main/java/com/excelsiorjet/api/tasks/JetBuildTask.java:118-122 | the response-file step with `<outputName><suffix>.xpack` in the build directory |
| JetBuild.JetBuildTask.GetExcelsiorInstallerXPackArgs | src/main/java/com/excelsiorjet/api/tasks/JetBuildTask.java:160-164 | the response-file step with the installer options and `<outputName>.EI.xpack` |
| JetBuild.JetBuildTask.CreateAppOrProfileDir | src/main/java/com/excelsiorjet/api/tasks/JetBuildTask.java:128-146 | leaves the trace and result of the self-contained-directory step, whose shape CreateAppOrProfileDirShape proves |
| JetBuild.JetBuildTask.CreateWinServiceInstallScripts | src/main/java/com/excelsiorjet/api/tasks/JetBuildTask.java:148-158 | copies the service helper, writes its response file and the install and uninstall scripts, stopping at the first failure |
| JetBuild.JetBuildTask.PackWithEI | src/main/java/com/excelsiorjet/api/tasks/JetBuildTask.java:170-178 | packs the installer with the installer arguments and reports the mangled target; a non-zero exit is the package failure |
| JetBuild.JetBuildTask.CreateOsxAppBundle | src/main/java/com/excelsiorjet/api/tasks/JetBuildTask.java:180-263 | the bundle tree, the pack, the signing chain and the report, as the reference run does them |
| JetBuild.JetBuildTask.MakeBundleTree | src/main/java/com/excelsiorjet/api/tasks/JetBuildTask.java:181-222 | creates and cleans the `.app` directory, creates Contents, MacOS and Resources, and writes the Info.plist text |
| JetBuild.JetBuildTask.PackBundle | src/main/java/com/excelsiorjet/api/tasks/JetBuildTask.java:224-232 | packs into Contents/MacOS and copies the icon into Resources when there is one |
| JetBuild.JetBuildTask.SignBundle | src/main/java/com/excelsiorjet/api/tasks/JetBuildTask.java:234-255 | the signing chain; its value is the installer package once one is built |
| JetBuild.JetBuildTask.ZipBuild | src/main/java/com/excelsiorjet/api/tasks/JetBuildTask.java:265-284 | leaves the trace and result of the zip step, whose steps, outcome and target ZipBuildSteps, ZipBuildOutcome and ZipBuildTarget prove |
| JetBuild.JetBuildTask.PackageBuild | src/main/java/com/excelsiorjet/api/tasks/JetBuildTask.java:286-315 | dispatches on the packaging kind and adds the slim-down note; its artifact is what PackageBuildArtifact proves |
| JetBuild.JetBuildTask.CollectProfile | src/main/java/com/excelsiorjet/api/tasks/JetBuildTask.java:317-319 | runs the instrumented image once; succeeds iff the run does not fail |
| JetBuild.JetBuildTask.CheckProfileUpToDate | src/main/java/com/excelsiorjet/api/tasks/JetBuildTask.java:325-333 | warns about one profile iff it exists and is at least the threshold in days old |
| JetBuild.JetBuildTask.CheckProfilesUpToDate | src/main/java/com/excelsiorjet/api/tasks/JetBuildTask.java:335-342 | the three profile checks, only for a positive threshold; StaleProfileWarningsAppend states the warnings |
| JetBuild.JetBuildTask.Execute | src/main/java/com/excelsiorjet/api/tasks/JetBuildTask.java:351-421 | leaves exactly the trace and result of the whole run; the build directory is set whenever the run succeeds |
| JetBuild.JetBuildTask.PrepareAndCompile | src/main/java/com/excelsiorjet/api/tasks/JetBuildTask.java:356-384 | validation, build directory, cleaning, staging by application type and compilation; the build directory is set when it succeeds |
| JetBuild.JetBuildTask.Profile | src/main/java/com/excelsiorjet/api/tasks/JetBuildTask.java:388-416 | creates the profile output directory, then profiles locally or zips the build for remote profiling |
| JetBuild.JetBuildTask.ProfileLocally | src/main/java/com/excelsiorjet/api/tasks/JetBuildTask.java:390-410 | instructions only for a service or a library; otherwise one profile run and a collected or not-collected report |
| BuildProperties.UseXPackZippingByRunKind | src/main/java/com/excelsiorjet/api/tasks/JetBuildTask.java:90-100 | a production run zips with the packager only with the zip packaging, a profiling run only when profiling is remote, each with the toolchain conditions |
| BuildProperties.NoXPackZippingForServicesOrOldToolchains | src/main/java/com/excelsiorjet/api/tasks/JetBuildTask.java:93-94 | never for a Windows service, never before JET 11.3 |
| BuildProperties.NoXPackZippingWhenProfilingLocally | src/main/java/com/excelsiorjet/api/tasks/JetBuildTask.java:91-92 | never for local profiling, whatever the packaging |
| BuildProperties.XPackZippingWorkaroundBefore12 | src/main/java/com/excelsiorjet/api/tasks/JetBuildTask.java:95-99 | before 12.0 slim-down or disk-footprint reduction rule it out; from 12.0 on neither matters |
| BuildProperties.DaysBetweenTruncates | src/main/java/com/excelsiorjet/api/tasks/JetBuildTask.java:321-323 | the day count is the exact difference truncated toward zero, bounded on both sides |
| BuildProperties.DaysBetweenAntisymmetric | src/main/java/com/excelsiorjet/api/tasks/JetBuildTask.java:321-323 | swapping the two files negates the day count |
| BuildProperties.DaysBetweenWithinADayBefore | src/main/java/com/excelsiorjet/api/tasks/JetBuildTask.java:321-323 | a main artifact less than a day older than the profile is 0 days apart, not -1 |
| BuildProperties.DaysBetweenWholeDays | src/main/java/com/excelsiorjet/api/tasks/JetBuildTask.java:321-323 | `days` whole days plus less than a day of milliseconds is exactly `days` days |
| BuildProperties.StaleProfileWarningsAppend | src/main/java/com/excelsiorjet/api/tasks/JetBuildTask.java:325-342 | the check appends exactly the warnings of the startup, usg and jprofile files in that order when the threshold is positive, nothing otherwise |
| BuildProperties.WarningsAreStaleWarnings | src/main/java/com/excelsiorjet/api/tasks/JetBuildTask.java:325-342 | the check adds at most three events, each a stale-profile warning, and none for a threshold that is not positive |
| BuildProperties.StaleProfileScenario | src/main/java/com/excelsiorjet/api/tasks/JetBuildTask.java:325-333 | a profile `days` whole days older than the main artifact is reported iff `days` reaches the threshold |
| BuildProperties.InfoPlistRendersEntries | src/main/java/com/excelsiorjet/api/tasks/JetBuildTask.java:195-221 | the Info.plist text is the property list of exactly the intended entries: package type, executable, name, identifier, versions, then icon and high-resolution flag when configured |
| BuildProperties.InfoPlistIconKey | src/main/java/com/excelsiorjet/api/tasks/JetBuildTask.java:214-216 | Info.plist names an icon file iff the bundle has an icon, and names that icon |
| BuildProperties.InfoPlistHighResolutionKey | src/main/java/com/excelsiorjet/api/tasks/JetBuildTask.java:217-219 | Info.plist declares high-resolution support iff the bundle is configured so |
| BuildStepProperties.XPackArgsShape | src/main/java/com/excelsiorjet/api/tasks/JetBuildTask.java:102-116 | since 11.3 the options go to the response file and the arguments end with `-arg-file <rsp>`, and a failed write is "Cannot create file <rsp>"; before 11.3 nothing is written |
| BuildStepProperties.RspFileNames | src/main/java/com/excelsiorjet/api/tasks/JetBuildTask.java:118-122 | the response files are named after the output name, in the build directory |
| BuildStepProperties.CreateAppOrProfileDirShape | src/main/java/com/excelsiorjet/api/tasks/JetBuildTask.java:128-146 | the packager gets the common arguments plus the zip backend arguments iff packager zipping; a failing exit ends the step; only a service gets its four files or the script failure |
| BuildStepProperties.ServiceScriptsShape | src/main/java/com/excelsiorjet/api/tasks/JetBuildTask.java:148-158 | the scripts step only extends the trace; on success it has put exactly the four service files in place, in order |
| BuildStepProperties.ZipBuildTarget | src/main/java/com/excelsiorjet/api/tasks/JetBuildTask.java:266-267 | the target is the artifact's zip in the output directory on a production run, and the zip next to the profiling image on a profiling run; success returns it |
| BuildStepProperties.ZipBuildSteps | src/main/java/com/excelsiorjet/api/tasks/JetBuildTask.java:268-284 | zipBuild only extends the trace; it compresses the directory itself iff the packager did not zip, and deletes and renames only on a production run with packager zipping |
| BuildStepProperties.ZipBuildOutcome | src/main/java/com/excelsiorjet/api/tasks/JetBuildTask.java:268-284 | with packager zipping a production run ends with the rename onto the target and a profiling run does nothing; a failure is the delete or rename failure with packager zipping, the compression's own otherwise |
| BuildStepProperties.SigningWithoutDeveloperId | src/main/java/com/excelsiorjet/api/tasks/JetBuildTask.java:235-254 | no developer identity: one warning, nothing signed, no package |
| BuildStepProperties.SigningWithDeveloperIdOnly | src/main/java/com/excelsiorjet/api/tasks/JetBuildTask.java:235-252 | the bundle is signed with the developer identity, then a warning about the publisher identity, no package |
| BuildStepProperties.SigningWithBothIds | src/main/java/com/excelsiorjet/api/tasks/JetBuildTask.java:235-249 | the bundle is signed, then the installer package is built from it with the publisher identity and install path |
| BuildStepProperties.SigningFailures | src/main/java/com/excelsiorjet/api/tasks/JetBuildTask.java:237-249 | a codesign exiting non-zero fails with the code-signing failure; a productbuild exiting non-zero after a successful codesign fails with the packaging failure |
| BuildStepProperties.SigningOrder | src/main/java/com/excelsiorjet/api/tasks/JetBuildTask.java:234-255 | whatever the outcome, the chain only extends the trace, and it builds a package only after signing the bundle with the developer identity |
| BuildStepProperties.SigningPackage | src/main/java/com/excelsiorjet/api/tasks/JetBuildTask.java:242-252 | the chain yields the installer package exactly when both identities are set |
| BuildStepProperties.BundlePackFailure | src/main/java/com/excelsiorjet/api/tasks/JetBuildTask.java:224-227 | a failing argument step ends the bundle's pack step with its failure; a packager exiting non-zero ends it with the package failure |
| BuildStepProperties.OsxAppBundleFailures | src/main/java/com/excelsiorjet/api/tasks/JetBuildTask.java:180-255 | createOSXAppBundle fails with the failure of the tree, the pack or the signing chain, whichever fails first, and reports nothing then |
| BuildStepProperties.OsxAppBundleArtifact | src/main/java/com/excelsiorjet/api/tasks/JetBuildTask.java:256-261 | the bundle step reports the installer package exactly when both identities are set, and the bundle otherwise |
| BuildStepProperties.OsxBundleWritesInfoPlist | src/main/java/com/excelsiorjet/api/tasks/JetBuildTask.java:188-221 | Info.plist is written into the bundle's Contents with the text built from the output name and the bundle settings |
| BuildStepProperties.PackageBuildArtifact | src/main/java/com/excelsiorjet/api/tasks/JetBuildTask.java:286-315 | a successful packaging reports its kind's artifact and ends with the slim-down note when slimming down |
| BuildStepProperties.PackageFormatArtifact | src/main/java/com/excelsiorjet/api/tasks/JetBuildTask.java:287-309 | each packaging kind reports its own artifact: the zip target, the tar.gz, the installer, the bundle or package, or the directory |
| BuildStepProperties.PackWithEIShape | src/main/java/com/excelsiorjet/api/tasks/JetBuildTask.java:170-178 | the installer is packed with its own arguments into the mangled target, which is the artifact |
| BuildStepProperties.LocalProfilingShape | src/main/java/com/excelsiorjet/api/tasks/JetBuildTask.java:390-410 | the image runs exactly once for runnable types, never for a service or a library; a missing profile is reported as an error without failing |
| BuildRunProperties.XPackArgsAdds | src/main/java/com/excelsiorjet/api/tasks/JetBuildTask.java:102-116 | the response-file step only extends the trace, and adds no validation, compiler call, profile run, stale-profile warning or success report |
| BuildRunProperties.ServiceScriptsAdds | src/main/java/com/excelsiorjet/api/tasks/JetBuildTask.java:148-158 | the service scripts step adds only the copy of the helper and file writes, hence no validation, compiler call, profile run, stale-profile warning or success report |
| BuildRunProperties.CreateAppOrProfileDirAdds | src/main/java/com/excelsiorjet/api/tasks/JetBuildTask.java:128-146 | the step only extends the trace, and adds no validation, compiler call, profile run, stale-profile warning or success report |
| BuildRunProperties.ZipBuildAdds | src/main/java/com/excelsiorjet/api/tasks/JetBuildTask.java:265-284 | zipping only extends the trace, and adds no validation, compiler call, profile run, stale-profile warning or success report |
| BuildRunProperties.TarGzAdds | src/main/java/com/excelsiorjet/api/tasks/JetBuildTask.java:293-299 | the tar.gz packaging may report success, and adds no validation, compiler call, profile run or stale-profile warning |
| BuildRunProperties.PackWithEIAdds | src/main/java/com/excelsiorjet/api/tasks/JetBuildTask.java:170-178 | the installer step may report success, and adds no validation, compiler call, profile run or stale-profile warning |
| BuildRunProperties.BundleTreeAdds | src/main/java/com/excelsiorjet/api/tasks/JetBuildTask.java:181-222 | building the bundle tree only extends the trace, and adds no validation, compiler call, profile run, stale-profile warning or success report |
| BuildRunProperties.BundleTreeEvents | src/main/java/com/excelsiorjet/api/tasks/JetBuildTask.java:181-222 | building the bundle tree adds only directory creation, cleaning and the Info.plist write |
| BuildRunProperties.BundlePackAdds | src/main/java/com/excelsiorjet/api/tasks/JetBuildTask.java:224-232 | packing the bundle and copying its icon add no validation, compiler call, profile run, stale-profile warning or success report |
| BuildRunProperties.SigningAdds | src/main/java/com/excelsiorjet/api/tasks/JetBuildTask.java:234-255 | the signing chain only extends the trace, and adds no validation, compiler call, profile run, stale-profile warning or success report |
| BuildRunProperties.SigningEvents | src/main/java/com/excelsiorjet/api/tasks/JetBuildTask.java:234-255 | the signing chain adds only codesign and productbuild calls and log lines |
| BuildRunProperties.SigningAndReportAdds | src/main/java/com/excelsiorjet/api/tasks/JetBuildTask.java:234-261 | the signing chain and the closing report may report success and log the identity warnings, and add no validation, compiler call, profile run or stale-profile warning |
| BuildRunProperties.CreateOsxAppBundleAdds | src/main/java/com/excelsiorjet/api/tasks/JetBuildTask.java:180-263 | the bundle step may report success and may log the identity warnings, and adds no validation, compiler call, profile run or stale-profile warning |
| BuildRunProperties.PackageBuildAdds | src/main/java/com/excelsiorjet/api/tasks/JetBuildTask.java:286-315 | packaging may report success, and adds no validation, compiler call, profile run or stale-profile warning |
| BuildRunProperties.PackageFormatAdds | src/main/java/com/excelsiorjet/api/tasks/JetBuildTask.java:287-309 | each packaging kind may report success, and adds no validation, compiler call, profile run or stale-profile warning |
| BuildRunProperties.StaleWarningsAdds | src/main/java/com/excelsiorjet/api/tasks/JetBuildTask.java:335-342 | the staleness check only extends the trace, and every event it adds is a stale-profile warning |
| BuildRunProperties.LocalProfilingAdds | src/main/java/com/excelsiorjet/api/tasks/JetBuildTask.java:390-410 | local profiling runs a profile only for a runnable type, and adds no validation, compiler call, stale-profile warning or success report |
| BuildRunProperties.ProfilingAdds | src/main/java/com/excelsiorjet/api/tasks/JetBuildTask.java:388-416 | the profiling branch runs profiles only when profiling locally a runnable type, and adds no validation, compiler call, stale-profile warning or success report |
| BuildRunProperties.ProductionAdds | src/main/java/com/excelsiorjet/api/tasks/JetBuildTask.java:417-420 | the production branch adds no validation, compiler call or profile run |
| BuildRunProperties.PrepareAndCompileShape | src/main/java/com/excelsiorjet/api/tasks/JetBuildTask.java:356-384 | performs a prefix of validate, create, clean, stage, write project, compile; succeeds iff all ran and the compiler exited with 0; a non-zero exit is the build failure |
| BuildRunProperties.ExecuteShape | src/main/java/com/excelsiorjet/api/tasks/JetBuildTask.java:351-421 | after the preparation, only if it succeeded, only permitted events: profile runs for local profiling of runnable types, warnings and success reports for production runs |
| BuildRunProperties.ExecuteWithoutPgo | src/main/java/com/excelsiorjet/api/tasks/JetBuildTask.java:352-354 | a profiling run without PGO support fails at once with nothing done |
| BuildRunProperties.ExecuteValidatesFirst | src/main/java/com/excelsiorjet/api/tasks/JetBuildTask.java:356 | otherwise validation is the first event of the run |
| BuildRunProperties.PreparationEventsIn | src/main/java/com/excelsiorjet/api/tasks/JetBuildTask.java:356-384 | the preparation's events are validate, create, clean, stage, write project and compile in order, and none packs, runs a profile, warns or reports success |
| BuildRunProperties.ExecuteCompilesOnce | src/main/java/com/excelsiorjet/api/tasks/JetBuildTask.java:367-384 | the compiler is called at most once, sixth, with the output's project file; a successful run calls it exactly once |
| BuildRunProperties.ExecuteCompileFailure | src/main/java/com/excelsiorjet/api/tasks/JetBuildTask.java:83-88 | a compiler exiting non-zero ends the run with the build failure right after the compiler call; nothing is packed |
| BuildRunProperties.ExecutePacksOnlyAfterCompile | src/main/java/com/excelsiorjet/api/tasks/JetBuildTask.java:372-386 | the packager runs only after the compiler has run and exited with 0 |
| BuildRunProperties.ExecuteStaleWarnings | src/main/java/com/excelsiorjet/api/tasks/JetBuildTask.java:417-420 | stale-profile warnings come from production runs alone, and a successful one ends with exactly those warnings |
| BuildRunProperties.ProductionFailureWarnsNot | src/main/java/com/excelsiorjet/api/tasks/JetBuildTask.java:418-419 | a failing production run has not reached the staleness check |
| BuildRunProperties.ProductionTrace | src/main/java/com/excelsiorjet/api/tasks/JetBuildTask.java:418-419 | a successful production branch is the packaging trace followed by exactly the warnings |
| BuildRunProperties.ProductionWarningsLast | src/main/java/com/excelsiorjet/api/tasks/JetBuildTask.java:417-420 | a successful production run ends with the warnings, after everything packaging did |
| BuildRunProperties.ExecuteRunsProfilesOnlyLocally | src/main/java/com/excelsiorjet/api/tasks/JetBuildTask.java:388-410 | profiles run only in a local-profiling run of a runnable type |
| BuildRunProperties.ExecuteRemoteProfiling | src/main/java/com/excelsiorjet/api/tasks/JetBuildTask.java:411-416 | remote profiling never runs a profile nor reports success; on success its value is the zip next to the profiling image |
| BuildRunProperties.ExecuteRemoteProfilingTrace | src/main/java/com/excelsiorjet/api/tasks/JetBuildTask.java:411-416 | a successful remote-profiling run is the image build, the profile output directory, zipBuild of the build directory and the note naming the zip; nothing is packaged and no staleness check runs |
| BuildRunProperties.ExecuteArtifact | src/main/java/com/excelsiorjet/api/tasks/JetBuildTask.java:386-420 | a successful run's value is the packaging kind's artifact, the remote-profiling zip, or nothing for local profiling |
| StackTraceSupport.ToUpper | src/main/java/com/excelsiorjet/api/tasks/StackTraceSupportType.java:38 | upper-casing keeps the length and maps each letter a-z to A-Z, leaving other characters |
| StackTraceSupport.ToLower | src/main/java/com/excelsiorjet/api/tasks/StackTraceSupportType.java:33 | lower-casing keeps the length and maps each letter A-Z to a-z, leaving other characters |
| StackTraceSupport.ToStringValues | src/main/java/com/excelsiorjet/api/tasks/StackTraceSupportType.java:27-34 | the constants print as "minimal", "full" and "none" |
| StackTraceSupport.RoundTrip | src/main/java/com/excelsiorjet/api/tasks/StackTraceSupportType.java:32-42 | parsing a printed constant gives it back |
| StackTraceSupport.ToStringInjective | src/main/java/com/excelsiorjet/api/tasks/StackTraceSupportType.java:32-34 | no two constants print alike |
| StackTraceSupport.CaseInsensitive | src/main/java/com/excelsiorjet/api/tasks/StackTraceSupportType.java:36-42 | texts that differ only in letter case parse alike |
| StackTraceSupport.ParsesUpperCased | src/main/java/com/excelsiorjet/api/tasks/StackTraceSupportType.java:38 | parsing depends on the upper-cased text alone |
| StackTraceSupport.FromStringValue | src/main/java/com/excelsiorjet/api/tasks/StackTraceSupportType.java:36-42 | a text parses to a constant iff its upper-cased form is that constant's name |
| StackTraceSupport.FromStringNull | src/main/java/com/excelsiorjet/api/tasks/StackTraceSupportType.java:36-42 | null, and every text whose upper-cased form names no constant, parse to null |
| StackTraceSupport.FromStringExamples | src/main/java/com/excelsiorjet/api/tasks/StackTraceSupportType.java:36-42 | "Full" and "minimal" parse; "fulll" and the empty text give null |

## Left out

- File-system operations and subprocesses are events. Their failures, exit statuses and results come from the `Oracle`: nothing is read, written or run.
- These collaborators are not part of this model; their outputs are inputs in `Generated`, or failures chosen by the `Oracle`:
  - CompilerArgsGenerator and PackagerArgsGenerator;
  - WindowsServiceScriptsGenerator;
  - `project.validate`, `createBuildDir` and the staging methods of JetProject;
  - the Utils helpers and CmdLineTool.
- JetBuild.JetBuildTask.constructor: cannot fail. The Java constructor can throw JetTaskFailureException from the constructors of the argument generators, which are not part of this model.
- `mangleExeName` of the target OS is an uninterpreted function in the toolchain.
- Paths are strings joined with `/`. `getAbsolutePath` is the identity, and `File.exists` before and after a delete or rename is an oracle answer.
- Log messages are their message keys with the parameters that matter. The localized texts from Txt are not part of this model, and neither are the `e.toString()` parameter of the script failure and the file names in the delete and rename failures.
- An IOException re-wrapped into a task failure with the same message is one failure kind (`RaisedBy`). Only the `FileNotFoundException` of the response-file write is caught as "Cannot create file"; any other exception propagates untouched.
- Java's `long` overflow of the modification times is not modelled: times are unbounded integers.
- StackTraceSupport.ToUpper: works on ASCII letters only; Java's locale-dependent case mapping of other letters (for example the dotless i) is not modelled.
- StackTraceSupport.ToLower: works on ASCII letters only, for the same reason.
- The `AssertionError` default branches of the switches over the application type cannot be reached with the five types modelled, so they are absent.
- `execute` returns nothing in Java. The model's `Execute` also returns the artifact the run reports, which the lemmas about it use.
- BuildStepProperties.PackageBuildArtifact: states the slim-down note as the last event of a non-empty trace rather than as an event after the step's prefix, to keep the proof small.
- A remote-profiling run zips the build directory (`zipBuild(buildDir)` at `JetBuildTask.java:412`), as the code does.
- PostInstallActionType, JetCompiler, Txt and CmdLineToolTest are not part of this model.
- The wall clock does not appear: modification times are fields of the project.
