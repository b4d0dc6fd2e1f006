# XCFrameworkKit builder, modelled in Dafny

This project models `XCFrameworkBuilder.build()` from XCFrameworkKit. The
builder turns one Xcode project into a fat framework bundle. It checks its
configuration, then removes and recreates `<output>/<name>.framework`. Next it
archives every configured scheme with `xcodebuild`, in a fixed SDK order. It
copies the first archived framework into the output directory. It merges the
first two archived binaries with `lipo`. Last, it copies the second archive's
`Modules` directory into the bundle.

The model is pure. `Build(cfg, shell, developerDirExists)` returns a `Stage`:

- the ordered trace of commands the builder issues, and
- the `Result<(), XCFrameworkError>` it returns.

Process outcomes come from `shell`, an arbitrary total function from a command
to `(isSuccess, stdout, stderr)`. The check that an alternate Xcode's developer
directory exists is the boolean `developerDirExists`.

Files:

- `wrappers.dfy`: `Option` and `Result`.
- `strings.dfy`: `hasSuffix`, `joined(separator:)`, `suffix(_:)`, and quoting.
- `shell.dfy`: programs, commands, process results and the oracle type.
- `builder.dfy`: the configuration, errors, SDKs, validation, `buildScheme`,
  the archive phase, the bundle assembly and `Build`.
- `properties.dfy`: lemmas that relate steps or runs.
- `as_written.dfy`: the code exactly as written at line 139, and the defect it
  has (see Findings).
- `examples.dfy`: two concrete iOS-only builds.

`Build` models the corrected assembly. When only one framework path was
collected, it stops after the `cp` with success. `AsWritten.BuildAsWritten`
models the source as written, which traps instead. The two agree on every
other input (`AsWritten.BuildAgreesWhenNoTrap`).

Normalisation appends `/` only when it is missing, so `"/out//"` keeps both
slashes (`BuilderProperties.RepeatedSlashesKept`).

## Model

| member | source | states |
|---|---|---|
| `Strings.Tail` | Sources/XCFrameworkKit/XCFrameworkBuilder.swift:185 | `suffix(100_000)` keeps exactly min(n, length) characters, and they are the end of the log |
| `XCFrameworkBuilder.SdkFromRawValue` | Sources/XCFrameworkKit/XCFrameworkBuilder.swift:50-58 | reading a raw value gives the SDK with that raw value, or nothing if no SDK has it |
| `BuilderProperties.SdkRawValueRoundTrip` | Sources/XCFrameworkKit/XCFrameworkBuilder.swift:50-58 | every SDK's `-sdk` name reads back as that SDK, so the seven raw values are distinct |
| `XCFrameworkBuilder.Validate` | Sources/XCFrameworkKit/XCFrameworkBuilder.swift:66-93 | fails exactly when some field is missing, with the first error in guard order; otherwise yields both directories ending in "/", the SDK targets, and the compiler arguments (none when unset) |
| `XCFrameworkBuilder.Build` | Sources/XCFrameworkKit/XCFrameworkBuilder.swift:64-84 | no command is issued exactly when validation fails, and then the first missing field's error is returned |
| `BuilderProperties.ValidationFailsFirstMissing` | Sources/XCFrameworkKit/XCFrameworkBuilder.swift:66-84 | with fields missing, the result is an empty trace and the error for the first missing field in the order name, project, scheme, output directory, build directory |
| `XCFrameworkBuilder.WithTrailingSlash` | Sources/XCFrameworkKit/XCFrameworkBuilder.swift:89-92 | the result ends in "/" and extends the input by at most one character; an input already ending in "/" is unchanged |
| `BuilderProperties.TrailingSlashIdempotent` | Sources/XCFrameworkKit/XCFrameworkBuilder.swift:89-92 | normalising twice equals normalising once; a directory with or without its trailing slash normalises the same |
| `BuilderProperties.TrailingSlashIrrelevant` | Sources/XCFrameworkKit/XCFrameworkBuilder.swift:89-93 | giving the output and build directories with or without a trailing slash yields the same trace and the same result |
| `BuilderProperties.RepeatedSlashesKept` | Sources/XCFrameworkKit/XCFrameworkBuilder.swift:89-92 | an existing trailing separator is never collapsed: "/out//" stays "/out//" |
| `XCFrameworkBuilder.Targets` | Sources/XCFrameworkKit/XCFrameworkBuilder.swift:106-123 | the archive list has 2·(watchOS, iOS, tvOS schemes set) + (macOS set) entries, strictly in the order watchOS, watchOS-sim, iOS, iOS-sim, tvOS, tvOS-sim, macOS, each with its family's scheme, and every configured SDK appears |
| `BuilderProperties.FirstFamilyIsMerged` | Sources/XCFrameworkKit/XCFrameworkBuilder.swift:106-119 | the first two archives are the device and simulator SDKs of the first configured family among watchOS, iOS, tvOS; with none set, at most one archive exists |
| `XCFrameworkBuilder.BuildScheme` | Sources/XCFrameworkKit/XCFrameworkBuilder.swift:157-193 | issues `xcode-select <path>` only for a usable alternate Xcode, then one archive command with the argument list; on success it returns exactly one path, `buildPath + scheme + "-" + sdk + ".xcarchive/Products/Library/Frameworks/" + name + ".framework"`; on failure it returns the archive's error |
| `BuilderProperties.ArchiveArgumentsLayout` | Sources/XCFrameworkKit/XCFrameworkBuilder.swift:161-168 | the argument list decodes back: `-project`, the quoted project, `-scheme`, the quoted scheme, `archive`, `SKIP_INSTALL=NO`, the compiler arguments unchanged and in order, `-archivePath`, a path under the build directory ending in ".xcarchive", `-sdk`, the SDK |
| `XCFrameworkBuilder.ArchiveFailureMessage` | Sources/XCFrameworkKit/XCFrameworkBuilder.swift:183-185 | the archive error starts with the captured stderr and ends with at most the last 100,000 characters of stdout |
| `XCFrameworkBuilder.CommandError` | Sources/XCFrameworkKit/XCFrameworkBuilder.swift:97-100 | a failed mkdir/cp/lipo gives `buildError` whose message starts with its stderr and ends with the command and its space-joined arguments in quotes |
| `XCFrameworkBuilder.ArchiveAll` | Sources/XCFrameworkKit/XCFrameworkBuilder.swift:105-123 | on success one framework path is collected per archive, with at least one command issued per archive |
| `BuilderProperties.ArchiveAllSucceeds` | Sources/XCFrameworkKit/XCFrameworkBuilder.swift:105-123 | when every archive succeeds, exactly the commands of each target are issued in order and the collected list is the targets' framework paths in order |
| `BuilderProperties.ArchiveAllStopsAtFirstFailure` | Sources/XCFrameworkKit/XCFrameworkBuilder.swift:105-128 | when archive k is the first to fail, only targets 0..k are archived, and the phase fails with archive k's error |
| `BuilderProperties.FirstFailureExists` | Sources/XCFrameworkKit/XCFrameworkBuilder.swift:105-123 | if any archive fails there is a first failing one, before which all succeed |
| `BuilderProperties.IssuedArchivesOnly` | Sources/XCFrameworkKit/XCFrameworkBuilder.swift:106-123 | the archive phase issues only xcode-select and archive commands, and each archive command is for one of its own targets |
| `XCFrameworkBuilder.Prepare` | Sources/XCFrameworkKit/XCFrameworkBuilder.swift:93-128 | the trace starts with `rm <bundle>` and `mkdir -p <bundle>`; on success it has collected one path per target |
| `BuilderProperties.BuildAfterPrologue` | Sources/XCFrameworkKit/XCFrameworkBuilder.swift:95-151 | once mkdir succeeds, the build is the archive phase followed, only if it succeeds, by the bundle assembly |
| `BuilderProperties.MkdirFailureStops` | Sources/XCFrameworkKit/XCFrameworkBuilder.swift:97-100 | a failed `mkdir -p` ends the build after rm and mkdir, with mkdir's error |
| `BuilderProperties.ArchiveFailureAborts` | Sources/XCFrameworkKit/XCFrameworkBuilder.swift:124-128 | when archive k is the first to fail, the whole build's trace is rm, mkdir and the commands of targets 0..k, and its result is that archive's error |
| `BuilderProperties.ArchiveFailureReport` | Sources/XCFrameworkKit/XCFrameworkBuilder.swift:183-185 | after an archive failure no cp or lipo is in the trace; the error is `buildError` starting with the archive's stderr and ending with at most the last 100,000 stdout characters |
| `XCFrameworkBuilder.Combine` | Sources/XCFrameworkKit/XCFrameworkBuilder.swift:130-151 | issues `cp -r list[0] <output dir>`, then `lipo -create -output <bundle>/name list[0]/name list[1]/name`, then `cp -r list[1]/Modules/ <bundle>/Modules/`; it succeeds exactly when every issued command succeeds, and otherwise stops at the failing one with its error |
| `XCFrameworkBuilder.BuildPlan` | Sources/XCFrameworkKit/XCFrameworkBuilder.swift:86-154 | a validated build begins with rm and mkdir; a successful one also issues at least one command per archive and then the assembly |
| `BuilderProperties.SuccessUsesFirstTwoPaths` | Sources/XCFrameworkKit/XCFrameworkBuilder.swift:130-151 | a successful build's trace is rm, mkdir, every archive in order, then cp of path 0, lipo of paths 0 and 1, and the Modules copy from path 1; with one path, just the cp |
| `BuilderProperties.ArchiveAllAborts` | Sources/XCFrameworkKit/XCFrameworkBuilder.swift:105-128 | the archive phase fails only at its last command, a failed archive preceded by passing checked commands |
| `BuilderProperties.BuildStopsAtFirstFailure` | Sources/XCFrameworkKit/XCFrameworkBuilder.swift:97-151 | after validation the build succeeds exactly when every checked command succeeds; a failed build ends with the failing command and reports that command's error |
| `BuilderProperties.CombineStopsAtFirstFailure` | Sources/XCFrameworkKit/XCFrameworkBuilder.swift:132-151 | appending the bundle assembly to passing commands keeps the abort-on-first-failure shape |
| `BuilderProperties.CombineIssuesCopyAndLipo` | Sources/XCFrameworkKit/XCFrameworkBuilder.swift:130-151 | the bundle assembly issues only cp and lipo, all of them checked |
| `BuilderProperties.ArchiveAllToolchain` | Sources/XCFrameworkKit/XCFrameworkBuilder.swift:174-182 | xcode-select and the developer-directory xcodebuild appear only with a set Xcode path whose developer directory exists; then the default xcodebuild never appears |
| `BuilderProperties.BuildToolchain` | Sources/XCFrameworkKit/XCFrameworkBuilder.swift:174-182 | the same toolchain choice holds for the whole build's trace |
| `BuilderProperties.MissingXcodeFallsBack` | Sources/XCFrameworkKit/XCFrameworkBuilder.swift:174-182 | with a missing developer directory the build is identical to one with no Xcode path at all, so a missing path produces no error |
| `BuilderProperties.MissingXcodePathIsNotAnError` | Sources/XCFrameworkKit/XCFrameworkBuilder.swift:174-182 | the same, from the unvalidated configuration |
| `AsWritten.CombineAsWritten` | Sources/XCFrameworkKit/XCFrameworkBuilder.swift:130-151 | the written assembly traps exactly when one path was collected and its cp succeeded |
| `AsWritten.BuildPlanAsWritten` | Sources/XCFrameworkKit/XCFrameworkBuilder.swift:86-154 | the written build can trap only when exactly one archive is configured |
| `AsWritten.BuildAsWritten` | Sources/XCFrameworkKit/XCFrameworkBuilder.swift:64-155 | the written build can trap only when it validates with exactly one archive target |
| `AsWritten.SinglePathIffMacOSOnly` | Sources/XCFrameworkKit/XCFrameworkBuilder.swift:106-123 | exactly one archive is configured exactly when the macOS scheme is the only scheme set |
| `AsWritten.TrapsExactlyWhenOnePathCollected` | Sources/XCFrameworkKit/XCFrameworkBuilder.swift:139 | the written build traps exactly when one archive is configured and mkdir, that archive and the cp succeed |
| `AsWritten.AgreesWhenNoTrap` | Sources/XCFrameworkKit/XCFrameworkBuilder.swift:130-151 | for a validated plan, whenever the written build does not trap, its trace and result equal the corrected `BuildPlan`'s |
| `AsWritten.BuildAgreesWhenNoTrap` | Sources/XCFrameworkKit/XCFrameworkBuilder.swift:64-151 | from any configuration, whenever the written `build()` does not trap, its trace and result equal the corrected `Build`'s |
| `AsWritten.MacOSOnlyBuildSucceeds` | Sources/XCFrameworkKit/XCFrameworkBuilder.swift:130-135 | corrected: a single-path build whose cp succeeds ends right after that cp with success |
| `AsWritten.MacOSOnlyCounterexample` | Sources/XCFrameworkKit/XCFrameworkBuilder.swift:139 | a macOS-only configuration with every command succeeding traps as written and succeeds when corrected |
| `BuildExamples.IOSOnlyMergesDeviceThenSimulator` | Sources/XCFrameworkKit/XCFrameworkBuilder.swift:139-140 | for name Foo, project Foo.xcodeproj, output /out, build /tmp/build and iOS scheme Foo, with every command succeeding, the build succeeds and lipo merges the iphoneos binary and then the iphonesimulator binary into /out/Foo.framework/Foo |
| `BuildExamples.SimulatorFailureStopsBuild` | Sources/XCFrameworkKit/XCFrameworkBuilder.swift:183-185 | if the iOS-simulator archive fails with "code signing failed", the error starts with that text and no cp or lipo is issued |

## Left out

- Running processes is left out. The `Shell` library's dynamic calls and `ShellTrampoline` are foreign code, so every outcome is the oracle's answer.
- The oracle is a fixed function of the command. It cannot model an environment whose answer changes between two identical commands, such as after `xcode-select` switches the toolchain. The builder never issues the same archive command twice.
- `URL(string:)` and `FileManager().fileExists` at lines 174-176 are filesystem I/O. Both are folded into the single `developerDirExists` boolean.
- The `rm` at line 95 and the `xcode-select` at line 178 appear in the trace. Their results are ignored, as in the source. Line 178 reaches the program through the shell library's dynamic member `usr.xcode_select`; the model names it `xcode-select` throughout, and no message contains that name.
- `print` and verbose logging (lines 86, 137, 153, 158, 169-171, 177, 191) are output only. `verbose` is kept in `Config` but has no effect.
- The `description` strings of `XCFrameworkError` (lines 32-47) are display text and are not modelled.
- The generic `catch` at lines 126-127 is left out. `buildScheme` throws only `XCFrameworkError`, so that branch cannot run.
- Strings.Tail: counts `Character` elements of a `seq<char>`. Swift's `suffix` counts grapheme clusters, and Unicode segmentation is not modelled.
- The initializer at lines 60-62 only runs a configuration closure. `Config` is an immutable record instead.
- Package.swift is a build manifest with no logic. The command-line layer and the Shell, SwiftShell and Commandant libraries are not part of this model.

## Findings

| source | as written | input that shows it | evidently intended | confidence | as-written member | corrected member |
|---|---|---|---|---|---|---|
| Sources/XCFrameworkKit/XCFrameworkBuilder.swift:139 | `frameworksArguments[1]` is read with no length check, here and at line 146 | only `macOSScheme` set, every command succeeding: one path is collected, the `cp` runs, then building the `lipo` arguments traps with index out of range | a single-architecture framework needs no merge: the copied framework is the bundle, and the build succeeds after the `cp` | high that it traps; medium on the intended result; not executed | `AsWritten.MacOSOnlyCounterexample` | `AsWritten.MacOSOnlyBuildSucceeds` |
