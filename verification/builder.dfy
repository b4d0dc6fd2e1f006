/** The pipeline behind `XCFrameworkBuilder.build()`: validate the
    configuration, remove and recreate the bundle directory, archive every
    configured platform in a fixed order, then copy the first archive's
    framework, merge the first two binaries with `lipo` and copy the second
    archive's `Modules` directory. Every process outcome comes from an
    `Oracle`; the result is the ordered trace of commands issued together
    with the `Result` the builder returns. */
module XCFrameworkBuilder {
  import opened Wrappers
  import opened Strings
  import opened Shell

  datatype XCFrameworkError =
    | NameNotFound
    | ProjectNotFound
    | NoSchemesFound
    | BuildDirectoryNotFound
    | OutputDirectoryNotFound
    | BuildError(message: string)

  /** The SDKs the builder archives for, with their `xcodebuild -sdk` names. */
  datatype SDK = IOS | WatchOS | TvOS | MacOS | IOSSim | WatchOSSim | TvOSSim
  {
    function RawValue(): string {
      match this
      case IOS => "iphoneos"
      case WatchOS => "watchos"
      case TvOS => "appletvos"
      case MacOS => "macosx"
      case IOSSim => "iphonesimulator"
      case WatchOSSim => "watchsimulator"
      case TvOSSim => "appletvsimulator"
    }

    /** Position in the archiving order: watchOS, iOS, tvOS, then macOS,
        each device SDK before its simulator. */
    function Rank(): nat {
      match this
      case WatchOS => 0
      case WatchOSSim => 1
      case IOS => 2
      case IOSSim => 3
      case TvOS => 4
      case TvOSSim => 5
      case MacOS => 6
    }
  }

  /** `SDK(rawValue:)`. */
  function SdkFromRawValue(raw: string): (r: Option<SDK>)
    ensures r.Some? ==> r.value.RawValue() == raw
    ensures r.None? ==> forall sdk: SDK :: sdk.RawValue() != raw
  {
    if raw == "iphoneos" then Some(IOS)
    else if raw == "watchos" then Some(WatchOS)
    else if raw == "appletvos" then Some(TvOS)
    else if raw == "macosx" then Some(MacOS)
    else if raw == "iphonesimulator" then Some(IOSSim)
    else if raw == "watchsimulator" then Some(WatchOSSim)
    else if raw == "appletvsimulator" then Some(TvOSSim)
    else None
  }

  /** The builder's public properties. `verbose` only controls logging. */
  datatype Config = Config(
    name: Option<string>,
    project: Option<string>,
    outputDirectory: Option<string>,
    buildDirectory: Option<string>,
    iOSScheme: Option<string>,
    watchOSScheme: Option<string>,
    tvOSScheme: Option<string>,
    macOSScheme: Option<string>,
    xcodePath: Option<string>,
    verbose: bool,
    compilerArguments: Option<seq<string>>)

  predicate HasScheme(cfg: Config) {
    cfg.watchOSScheme.Some? || cfg.iOSScheme.Some? || cfg.macOSScheme.Some? || cfg.tvOSScheme.Some?
  }

  /** The configured scheme that an SDK is archived with. */
  function SchemeFor(cfg: Config, sdk: SDK): Option<string> {
    match sdk
    case WatchOS => cfg.watchOSScheme
    case WatchOSSim => cfg.watchOSScheme
    case IOS => cfg.iOSScheme
    case IOSSim => cfg.iOSScheme
    case TvOS => cfg.tvOSScheme
    case TvOSSim => cfg.tvOSScheme
    case MacOS => cfg.macOSScheme
  }

  /** Every validation error the configuration deserves, in the order the
      guards are written; `build()` reports only the first. */
  function Missing(cfg: Config): seq<XCFrameworkError> {
    (if cfg.name.None? then [NameNotFound] else [])
    + (if cfg.project.None? then [ProjectNotFound] else [])
    + (if !HasScheme(cfg) then [NoSchemesFound] else [])
    + (if cfg.outputDirectory.None? then [OutputDirectoryNotFound] else [])
    + (if cfg.buildDirectory.None? then [BuildDirectoryNotFound] else [])
  }

  /** Appends "/" unless the directory already ends with one. */
  function WithTrailingSlash(dir: string): (r: string)
    ensures HasSuffix(r, "/")
    ensures HasPrefix(r, dir) && |r| <= |dir| + 1
    ensures HasSuffix(dir, "/") ==> r == dir
  {
    if HasSuffix(dir, "/") then dir else dir + "/"
  }

  function Count(b: bool): nat {
    if b then 1 else 0
  }

  /** One archive to make: a scheme built for an SDK. */
  datatype Target = Target(scheme: string, sdk: SDK)

  /** The archives one platform family contributes: each of its SDKs, in
      order, built with the family's scheme when that scheme is set, and
      none when it is not. */
  function Family(scheme: Option<string>, sdks: seq<SDK>): (ts: seq<Target>)
    ensures |ts| == if scheme.Some? then |sdks| else 0
    ensures forall t :: t in ts ==> scheme == Some(t.scheme) && t.sdk in sdks
    ensures scheme.Some? ==> forall i :: 0 <= i < |sdks| ==> ts[i] == Target(scheme.value, sdks[i])
  {
    if scheme.Some? then seq(|sdks|, i requires 0 <= i < |sdks| => Target(scheme.value, sdks[i])) else []
  }

  /** The archives `build()` makes, in order: watchOS and its simulator,
      iOS and its simulator, tvOS and its simulator, macOS; SDKs whose scheme
      is not set are skipped. */
  function Targets(cfg: Config): (ts: seq<Target>)
    ensures |ts| == 2 * (Count(cfg.watchOSScheme.Some?) + Count(cfg.iOSScheme.Some?) + Count(cfg.tvOSScheme.Some?))
                    + Count(cfg.macOSScheme.Some?)
    ensures forall i, j :: 0 <= i < j < |ts| ==> ts[i].sdk.Rank() < ts[j].sdk.Rank()
    ensures forall i :: 0 <= i < |ts| ==> SchemeFor(cfg, ts[i].sdk) == Some(ts[i].scheme)
    ensures forall sdk: SDK :: SchemeFor(cfg, sdk).Some? ==> Target(SchemeFor(cfg, sdk).value, sdk) in ts
  {
    var watch := Family(cfg.watchOSScheme, [WatchOS, WatchOSSim]);
    var phone := Family(cfg.iOSScheme, [IOS, IOSSim]);
    var tv := Family(cfg.tvOSScheme, [TvOS, TvOSSim]);
    var mac := Family(cfg.macOSScheme, [MacOS]);
    TargetsOrdered(cfg, watch, phone, tv, mac);
    TargetsComplete(cfg, watch, phone, tv, mac);
    TargetsSchemes(cfg, watch, phone, tv, mac);
    watch + phone + tv + mac
  }

  /** Each family's SDKs are ranked in their own band, so the families in
      `Targets` order give a strictly increasing run. */
  lemma TargetsOrdered(cfg: Config, watch: seq<Target>, phone: seq<Target>, tv: seq<Target>, mac: seq<Target>)
    requires watch == Family(cfg.watchOSScheme, [WatchOS, WatchOSSim])
    requires phone == Family(cfg.iOSScheme, [IOS, IOSSim])
    requires tv == Family(cfg.tvOSScheme, [TvOS, TvOSSim])
    requires mac == Family(cfg.macOSScheme, [MacOS])
    ensures RankOrdered(watch + phone + tv + mac)
  {
    FamilyBand(cfg.watchOSScheme, [WatchOS, WatchOSSim], 0);
    FamilyBand(cfg.iOSScheme, [IOS, IOSSim], 2);
    FamilyBand(cfg.tvOSScheme, [TvOS, TvOSSim], 4);
    FamilyBand(cfg.macOSScheme, [MacOS], 6);
    RankOrderedConcat(watch, phone, 2);
    BelowConcat(watch, phone, 4);
    RankOrderedConcat(watch + phone, tv, 4);
    BelowConcat(watch + phone, tv, 6);
    RankOrderedConcat(watch + phone + tv, mac, 6);
  }

  /** A family whose SDKs are ranked `lo`, `lo + 1`, … in order is ordered
      and lies in that band. */
  lemma FamilyBand(scheme: Option<string>, sdks: seq<SDK>, lo: nat)
    requires forall i :: 0 <= i < |sdks| ==> sdks[i].Rank() == lo + i
    ensures RankOrdered(Family(scheme, sdks))
    ensures forall t :: t in Family(scheme, sdks) ==> lo <= t.sdk.Rank() < lo + |sdks|
  {
    var ts := Family(scheme, sdks);
    forall t | t in ts
      ensures lo <= t.sdk.Rank() < lo + |sdks|
    {
      var i :| 0 <= i < |sdks| && t.sdk == sdks[i];
    }
  }

  lemma BelowConcat(a: seq<Target>, b: seq<Target>, bound: nat)
    requires forall t :: t in a ==> t.sdk.Rank() < bound
    requires forall t :: t in b ==> t.sdk.Rank() < bound
    ensures forall t :: t in a + b ==> t.sdk.Rank() < bound
  {
  }

  /** A family of at most a device SDK and its higher-ranked simulator is
      ordered. */
  lemma FamilyOrdered(ts: seq<Target>)
    requires |ts| <= 2 && (|ts| == 2 ==> ts[0].sdk.Rank() < ts[1].sdk.Rank())
    ensures RankOrdered(ts)
  {
  }

  /** Every SDK whose scheme is set has its target among the families. */
  lemma TargetsComplete(cfg: Config, watch: seq<Target>, phone: seq<Target>, tv: seq<Target>, mac: seq<Target>)
    requires watch == Family(cfg.watchOSScheme, [WatchOS, WatchOSSim])
    requires phone == Family(cfg.iOSScheme, [IOS, IOSSim])
    requires tv == Family(cfg.tvOSScheme, [TvOS, TvOSSim])
    requires mac == Family(cfg.macOSScheme, [MacOS])
    ensures forall sdk: SDK :: SchemeFor(cfg, sdk).Some? ==> Target(SchemeFor(cfg, sdk).value, sdk) in watch + phone + tv + mac
  {
    var ts := watch + phone + tv + mac;
    forall sdk: SDK | SchemeFor(cfg, sdk).Some?
      ensures Target(SchemeFor(cfg, sdk).value, sdk) in ts
    {
      match sdk
      case WatchOS => assert watch[0] in ts;
      case WatchOSSim => assert watch[1] in ts;
      case IOS => assert phone[0] in ts;
      case IOSSim => assert phone[1] in ts;
      case TvOS => assert tv[0] in ts;
      case TvOSSim => assert tv[1] in ts;
      case MacOS => assert mac[0] in ts;
    }
  }

  /** Every family's target carries the scheme configured for its SDK. */
  lemma TargetsSchemes(cfg: Config, watch: seq<Target>, phone: seq<Target>, tv: seq<Target>, mac: seq<Target>)
    requires watch == Family(cfg.watchOSScheme, [WatchOS, WatchOSSim])
    requires phone == Family(cfg.iOSScheme, [IOS, IOSSim])
    requires tv == Family(cfg.tvOSScheme, [TvOS, TvOSSim])
    requires mac == Family(cfg.macOSScheme, [MacOS])
    ensures forall i :: 0 <= i < |watch + phone + tv + mac| ==>
              SchemeFor(cfg, (watch + phone + tv + mac)[i].sdk) == Some((watch + phone + tv + mac)[i].scheme)
  {
    var ts := watch + phone + tv + mac;
    forall i | 0 <= i < |ts|
      ensures SchemeFor(cfg, ts[i].sdk) == Some(ts[i].scheme)
    {
      assert ts[i] in watch || ts[i] in phone || ts[i] in tv || ts[i] in mac;
    }
  }

  /** The targets are in strictly increasing SDK order. */
  predicate RankOrdered(ts: seq<Target>) {
    forall i, j :: 0 <= i < j < |ts| ==> ts[i].sdk.Rank() < ts[j].sdk.Rank()
  }

  /** Two ordered runs, the first wholly below `mid` and the second wholly at
      or above it, make an ordered run. */
  lemma RankOrderedConcat(a: seq<Target>, b: seq<Target>, mid: nat)
    requires RankOrdered(a) && RankOrdered(b)
    requires forall t :: t in a ==> t.sdk.Rank() < mid
    requires forall t :: t in b ==> mid <= t.sdk.Rank()
    ensures RankOrdered(a + b)
  {
    forall i, j | 0 <= i < j < |a + b|
      ensures (a + b)[i].sdk.Rank() < (a + b)[j].sdk.Rank()
    {
      if j < |a| {
        assert (a + b)[i] == a[i] && (a + b)[j] == a[j];
      } else if i < |a| {
        assert (a + b)[i] == a[i] && (a + b)[j] == b[j - |a|];
        assert a[i] in a && b[j - |a|] in b;
      } else {
        assert (a + b)[i] == b[i - |a|] && (a + b)[j] == b[j - |a|];
      }
    }
  }

  /** The validated configuration, with both directories normalised. */
  datatype Plan = Plan(
    name: string,
    project: string,
    buildPath: string,
    outputDirectory: string,
    targets: seq<Target>,
    compilerArguments: seq<string>,
    xcodePath: Option<string>)

  /** The guards at the top of `build()`. */
  function Validate(cfg: Config): (r: Result<Plan, XCFrameworkError>)
    ensures r.Failure? <==> |Missing(cfg)| > 0
    ensures r.Failure? ==> r.error == Missing(cfg)[0]
    ensures r.Success? ==> && r.value.name == cfg.name.value
                           && r.value.project == cfg.project.value
                           && r.value.buildPath == WithTrailingSlash(cfg.buildDirectory.value)
                           && r.value.outputDirectory == WithTrailingSlash(cfg.outputDirectory.value)
                           && r.value.targets == Targets(cfg)
                           && 1 <= |r.value.targets|
                           && r.value.xcodePath == cfg.xcodePath
                           && r.value.compilerArguments == (if cfg.compilerArguments.Some? then cfg.compilerArguments.value else [])
  {
    if cfg.name.None? then Failure(NameNotFound)
    else if cfg.project.None? then Failure(ProjectNotFound)
    else if !HasScheme(cfg) then Failure(NoSchemesFound)
    else if cfg.outputDirectory.None? then Failure(OutputDirectoryNotFound)
    else if cfg.buildDirectory.None? then Failure(BuildDirectoryNotFound)
    else
      Success(Plan(
        cfg.name.value,
        cfg.project.value,
        WithTrailingSlash(cfg.buildDirectory.value),
        WithTrailingSlash(cfg.outputDirectory.value),
        Targets(cfg),
        if cfg.compilerArguments.Some? then cfg.compilerArguments.value else [],
        cfg.xcodePath))
  }

  /** Where the bundle is assembled. */
  function FinalOutput(plan: Plan): string {
    plan.outputDirectory + plan.name + ".framework"
  }

  function ArchivePath(plan: Plan, t: Target): string {
    plan.buildPath + t.scheme + "-" + t.sdk.RawValue() + ".xcarchive"
  }

  /** The framework inside an archive, the path `buildScheme` returns. */
  function FrameworkPath(plan: Plan, t: Target): string {
    ArchivePath(plan, t) + "/Products/Library/Frameworks/" + plan.name + ".framework"
  }

  /** The `xcodebuild` argument list for one archive. */
  function ArchiveArguments(plan: Plan, t: Target): seq<string> {
    ["-project", Quote(plan.project), "-scheme", Quote(t.scheme), "archive", "SKIP_INSTALL=NO"]
    + plan.compilerArguments
    + ["-archivePath", ArchivePath(plan, t), "-sdk", t.sdk.RawValue()]
  }

  /** An alternate Xcode is used only when its path is set and its developer
      directory exists. */
  predicate UsesAlternateXcode(plan: Plan, developerDirExists: bool) {
    plan.xcodePath.Some? && developerDirExists
  }

  function DeveloperDir(xcodePath: string): string {
    xcodePath + "/Contents/Developer/"
  }

  function ArchiveCommand(plan: Plan, t: Target, developerDirExists: bool): Command {
    var program :=
      if UsesAlternateXcode(plan, developerDirExists) then DeveloperXcodebuild(DeveloperDir(plan.xcodePath.value))
      else Xcodebuild;
    Command(program, ArchiveArguments(plan, t))
  }

  /** How many characters of the archive's standard output a failure keeps. */
  const LogTailLength: nat := 100_000

  /** The message of a failed archive: its standard error, the command, and
      the end of its standard output. */
  function ArchiveFailureMessage(args: seq<string>, res: ShellResult): (m: string)
    ensures HasPrefix(m, res.stderr)
    ensures HasSuffix(m, Tail(res.stdout, LogTailLength))
    ensures |Tail(res.stdout, LogTailLength)| <= LogTailLength
  {
    var middle := "\nArchive Error From Running: 'xcodebuild " + Join(args, " ") + "'" + "\n LOG:\n";
    var tail := Tail(res.stdout, LogTailLength);
    PrefixSuffixOfConcat(res.stderr, middle, tail);
    res.stderr + middle + tail
  }

  /** The error for a failed `mkdir`, `cp` or `lipo`. */
  function CommandError(cmd: Command, res: ShellResult): (e: XCFrameworkError)
    ensures e.BuildError? && HasPrefix(e.message, res.stderr)
    ensures HasSuffix(e.message, "'" + Describe(cmd) + "'")
  {
    var quoted := "'" + Describe(cmd) + "'";
    PrefixSuffixOfConcat(res.stderr, "\nXCFramework Build Error From Running: ", quoted);
    BuildError(res.stderr + "\nXCFramework Build Error From Running: " + quoted)
  }

  /** The error a failed command produces, whichever step issued it. */
  function FailureFor(cmd: Command, res: ShellResult): XCFrameworkError {
    if cmd.program.IsArchiver() then BuildError(ArchiveFailureMessage(cmd.args, res))
    else CommandError(cmd, res)
  }

  /** The commands issued by one step, and what the step returned. */
  datatype Stage<T> = Stage(trace: seq<Command>, result: Result<T, XCFrameworkError>)

  /** `buildScheme(scheme:sdk:project:name:buildPath:)`. */
  function BuildScheme(plan: Plan, t: Target, shell: Oracle, developerDirExists: bool): (r: Stage<seq<string>>)
    ensures |r.trace| == if UsesAlternateXcode(plan, developerDirExists) then 2 else 1
    ensures UsesAlternateXcode(plan, developerDirExists) ==> r.trace[0] == Command(XcodeSelect, [plan.xcodePath.value])
    ensures r.trace[|r.trace| - 1].program
            == if UsesAlternateXcode(plan, developerDirExists)
               then DeveloperXcodebuild(plan.xcodePath.value + "/Contents/Developer/")
               else Xcodebuild
    ensures r.trace[|r.trace| - 1].args == ArchiveArguments(plan, t)
    ensures r.result.Success? <==> shell(r.trace[|r.trace| - 1]).isSuccess
    ensures r.result.Success? ==>
              r.result.value == [plan.buildPath + t.scheme + "-" + t.sdk.RawValue() + ".xcarchive"
                                 + "/Products/Library/Frameworks/" + plan.name + ".framework"]
    ensures r.result.Failure? ==> r.result.error == FailureFor(r.trace[|r.trace| - 1], shell(r.trace[|r.trace| - 1]))
  {
    var archive := ArchiveCommand(plan, t, developerDirExists);
    var select := if UsesAlternateXcode(plan, developerDirExists) then [Command(XcodeSelect, [plan.xcodePath.value])] else [];
    var res := shell(archive);
    if !res.isSuccess then
      Stage(select + [archive], Failure(BuildError(ArchiveFailureMessage(archive.args, res))))
    else
      Stage(select + [archive], Success([FrameworkPath(plan, t)]))
  }

  /** The `do { try ... }` block: archive each target in turn, stopping at
      the first failure; on success, one framework path per target. */
  function ArchiveAll(plan: Plan, ts: seq<Target>, shell: Oracle, developerDirExists: bool): (r: Stage<seq<string>>)
    ensures r.result.Success? ==> |r.result.value| == |ts| && |ts| <= |r.trace|
    decreases |ts|
  {
    if |ts| == 0 then Stage([], Success([]))
    else
      var first := BuildScheme(plan, ts[0], shell, developerDirExists);
      if first.result.Failure? then Stage(first.trace, Failure(first.result.error))
      else
        var rest := ArchiveAll(plan, ts[1..], shell, developerDirExists);
        Stage(first.trace + rest.trace,
              if rest.result.Failure? then Failure(rest.result.error)
              else Success(first.result.value + rest.result.value))
  }

  /** What `build()` does before the bundle is assembled, once validation
      has passed: the best-effort `rm`, `mkdir -p`, and the archives. On
      success it yields the collected framework paths. */
  function Prepare(plan: Plan, shell: Oracle, developerDirExists: bool): (r: Stage<seq<string>>)
    ensures 2 <= |r.trace|
    ensures r.trace[0] == Command(Rm, [FinalOutput(plan)]) && r.trace[1] == Command(Mkdir, ["-p", FinalOutput(plan)])
    ensures r.result.Success? ==> |r.result.value| == |plan.targets| && 2 + |plan.targets| <= |r.trace|
  {
    var finalOutput := FinalOutput(plan);
    var remove := Command(Rm, [finalOutput]);
    var mkdir := Command(Mkdir, ["-p", finalOutput]);
    if !shell(mkdir).isSuccess then Stage([remove, mkdir], Failure(CommandError(mkdir, shell(mkdir))))
    else
      var archived := ArchiveAll(plan, plan.targets, shell, developerDirExists);
      Stage([remove, mkdir] + archived.trace, archived.result)
  }

  function CopyCommand(plan: Plan, first: string): Command {
    Command(Cp, ["-r", first, plan.outputDirectory])
  }

  function LipoCommand(plan: Plan, first: string, second: string): Command {
    Command(Lipo, ["-create", "-output", FinalOutput(plan) + "/" + plan.name, first + "/" + plan.name, second + "/" + plan.name])
  }

  function ModulesCommand(plan: Plan, second: string): Command {
    Command(Cp, ["-r", second + "/Modules/", FinalOutput(plan) + "/Modules/"])
  }

  /** Runs `cmd`; on failure the stage ends with its error. */
  function Run(cmd: Command, shell: Oracle): (r: Stage<()>)
    ensures r.trace == [cmd]
    ensures r.result.Success? <==> shell(cmd).isSuccess
    ensures r.result.Failure? ==> r.result.error == CommandError(cmd, shell(cmd))
  {
    if shell(cmd).isSuccess then Stage([cmd], Success(())) else Stage([cmd], Failure(CommandError(cmd, shell(cmd))))
  }

  /** Runs two stages in sequence, the second only if the first succeeded. */
  function Then(a: Stage<()>, b: Stage<()>): (r: Stage<()>)
    ensures a.result.Failure? ==> r == a
    ensures a.result.Success? ==> r.trace == a.trace + b.trace && r.result == b.result
  {
    if a.result.Failure? then a else Stage(a.trace + b.trace, b.result)
  }

  /** The `lipo` merge of the two binaries and the `Modules` copy. */
  function Merge(plan: Plan, first: string, second: string, shell: Oracle): Stage<()> {
    Then(Run(LipoCommand(plan, first, second), shell), Run(ModulesCommand(plan, second), shell))
  }

  /** The bundle assembly after the archives, using the first two collected
      paths. With a single path (a macOS-only configuration) the copied
      framework is already the bundle, and merging is skipped. */
  function Combine(plan: Plan, paths: seq<string>, shell: Oracle): (r: Stage<()>)
    requires 1 <= |paths|
    ensures 1 <= |r.trace| <= 3
    ensures r.trace[0] == CopyCommand(plan, paths[0])
    ensures 2 <= |paths| && 2 <= |r.trace| ==> r.trace[1] == LipoCommand(plan, paths[0], paths[1])
    ensures 2 <= |paths| && 3 <= |r.trace| ==> r.trace[2] == ModulesCommand(plan, paths[1])
    ensures |paths| == 1 ==> |r.trace| == 1
    ensures r.result.Success? <==> forall i :: 0 <= i < |r.trace| ==> shell(r.trace[i]).isSuccess
    ensures r.result.Success? ==> |r.trace| == if |paths| == 1 then 1 else 3
    ensures r.result.Failure? ==> && !shell(r.trace[|r.trace| - 1]).isSuccess
                                  && (forall i :: 0 <= i < |r.trace| - 1 ==> shell(r.trace[i]).isSuccess)
                                  && r.result.error == CommandError(r.trace[|r.trace| - 1], shell(r.trace[|r.trace| - 1]))
  {
    var copy := Run(CopyCommand(plan, paths[0]), shell);
    if |paths| == 1 then copy
    else Then(copy, Merge(plan, paths[0], paths[1], shell))
  }

  /** `build()` after validation. */
  function BuildPlan(plan: Plan, shell: Oracle, developerDirExists: bool): (o: Stage<()>)
    requires 1 <= |plan.targets|
    ensures 2 <= |o.trace| && o.trace[..2] == Prepare(plan, shell, developerDirExists).trace[..2]
    ensures o.result.Success? ==> 3 + |plan.targets| <= |o.trace|
  {
    var prepared := Prepare(plan, shell, developerDirExists);
    if prepared.result.Failure? then Stage(prepared.trace, Failure(prepared.result.error))
    else
      var combined := Combine(plan, prepared.result.value, shell);
      Stage(prepared.trace + combined.trace, combined.result)
  }

  /** `build()`: the commands issued, in order, and the result returned. */
  function Build(cfg: Config, shell: Oracle, developerDirExists: bool): (o: Stage<()>)
    ensures o.trace == [] <==> |Missing(cfg)| > 0
    ensures |Missing(cfg)| > 0 ==> o.result == Failure(Missing(cfg)[0])
  {
    match Validate(cfg)
    case Failure(e) => Stage([], Failure(e))
    case Success(plan) => BuildPlan(plan, shell, developerDirExists)
  }
}
