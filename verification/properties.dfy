/** Properties of `XCFrameworkBuilder.Build` that relate several calls or
    several steps: validation order, directory normalisation, archive
    order and abort, the positional use of the collected paths, and the
    toolchain choice. */
module BuilderProperties {
  import opened Wrappers
  import opened Strings
  import opened Shell
  import opened XCFrameworkBuilder

  /** The commands one archive step issues, whatever the archive's outcome. */
  function SchemeCommands(plan: Plan, t: Target, developerDirExists: bool): seq<Command> {
    (if UsesAlternateXcode(plan, developerDirExists) then [Command(XcodeSelect, [plan.xcodePath.value])] else [])
    + [ArchiveCommand(plan, t, developerDirExists)]
  }

  /** The commands the archive phase issues when it archives exactly `ts`. */
  function Issued(plan: Plan, ts: seq<Target>, developerDirExists: bool): seq<Command>
    decreases |ts|
  {
    if |ts| == 0 then [] else SchemeCommands(plan, ts[0], developerDirExists) + Issued(plan, ts[1..], developerDirExists)
  }

  /** The framework paths collected when every archive succeeds. */
  function FrameworkPaths(plan: Plan, ts: seq<Target>): (paths: seq<string>)
    ensures |paths| == |ts|
    ensures forall i :: 0 <= i < |ts| ==> paths[i] == FrameworkPath(plan, ts[i])
  {
    seq(|ts|, i requires 0 <= i < |ts| => FrameworkPath(plan, ts[i]))
  }

  predicate Archives(plan: Plan, t: Target, shell: Oracle, developerDirExists: bool) {
    shell(ArchiveCommand(plan, t, developerDirExists)).isSuccess
  }

  /** Every checked command of the trace succeeded. */
  predicate AllChecksPass(trace: seq<Command>, shell: Oracle) {
    forall i :: 0 <= i < |trace| && trace[i].program.IsChecked() ==> shell(trace[i]).isSuccess
  }

  lemma AllChecksPassConcat(a: seq<Command>, b: seq<Command>, shell: Oracle)
    ensures AllChecksPass(a + b, shell) <==> AllChecksPass(a, shell) && AllChecksPass(b, shell)
  {
    if AllChecksPass(a, shell) && AllChecksPass(b, shell) {
      forall i | 0 <= i < |a + b| && (a + b)[i].program.IsChecked()
        ensures shell((a + b)[i]).isSuccess
      {
        if i >= |a| {
          assert (a + b)[i] == b[i - |a|];
        }
      }
    }
    if AllChecksPass(a + b, shell) {
      forall i | 0 <= i < |a| && a[i].program.IsChecked()
        ensures shell(a[i]).isSuccess
      {
        assert (a + b)[i] == a[i];
      }
      forall i | 0 <= i < |b| && b[i].program.IsChecked()
        ensures shell(b[i]).isSuccess
      {
        assert (a + b)[|a| + i] == b[i];
      }
    }
  }

  /** Validation: the first missing field in the order name, project, some
      scheme, output directory, build directory is the error, and nothing
      is run. */
  lemma ValidationFailsFirstMissing(cfg: Config, shell: Oracle, developerDirExists: bool)
    requires |Missing(cfg)| > 0
    ensures Build(cfg, shell, developerDirExists) == Stage([], Failure(Missing(cfg)[0]))
    ensures cfg.name.None? ==> Missing(cfg)[0] == NameNotFound
    ensures cfg.name.Some? && cfg.project.None? ==> Missing(cfg)[0] == ProjectNotFound
    ensures cfg.name.Some? && cfg.project.Some? && !HasScheme(cfg) ==> Missing(cfg)[0] == NoSchemesFound
    ensures cfg.name.Some? && cfg.project.Some? && HasScheme(cfg) && cfg.outputDirectory.None?
            ==> Missing(cfg)[0] == OutputDirectoryNotFound
    ensures cfg.name.Some? && cfg.project.Some? && HasScheme(cfg) && cfg.outputDirectory.Some?
            ==> Missing(cfg)[0] == BuildDirectoryNotFound
  {
  }

  lemma TrailingSlashIdempotent(dir: string)
    ensures WithTrailingSlash(WithTrailingSlash(dir)) == WithTrailingSlash(dir)
    ensures !HasSuffix(dir, "/") ==> WithTrailingSlash(dir + "/") == WithTrailingSlash(dir)
  {
  }

  /** Only a missing slash is added: repeated separators are kept. */
  lemma RepeatedSlashesKept()
    ensures WithTrailingSlash("/out//") == "/out//"
  {
  }

  /** Supplying either directory with or without its trailing slash makes
      no difference to anything `build()` does. */
  lemma TrailingSlashIrrelevant(cfg: Config, shell: Oracle, developerDirExists: bool)
    requires cfg.outputDirectory.Some? && cfg.buildDirectory.Some?
    ensures Build(cfg, shell, developerDirExists)
         == Build(cfg.(outputDirectory := Some(WithTrailingSlash(cfg.outputDirectory.value)),
                       buildDirectory := Some(WithTrailingSlash(cfg.buildDirectory.value))),
                  shell, developerDirExists)
  {
  }

  /** Every SDK's raw value reads back as that SDK. */
  lemma SdkRawValueRoundTrip(sdk: SDK)
    ensures SdkFromRawValue(sdk.RawValue()) == Some(sdk)
  {
  }

  /** The archive argument list can be read back: the fixed prefix with the
      quoted project and scheme, the caller's compiler arguments unchanged
      and in order, then the archive path and the SDK. */
  lemma ArchiveArgumentsLayout(plan: Plan, t: Target)
    ensures var args := ArchiveArguments(plan, t);
            var n := |plan.compilerArguments|;
            && |args| == 10 + n
            && args[0] == "-project" && Unquote(args[1]) == Some(plan.project)
            && args[2] == "-scheme" && Unquote(args[3]) == Some(t.scheme)
            && args[4] == "archive" && args[5] == "SKIP_INSTALL=NO"
            && args[6..6 + n] == plan.compilerArguments
            && args[6 + n] == "-archivePath"
            && HasPrefix(args[7 + n], plan.buildPath) && HasSuffix(args[7 + n], ".xcarchive")
            && args[8 + n] == "-sdk" && SdkFromRawValue(args[9 + n]) == Some(t.sdk)
  {
  }

  /** The first two archives belong to the first configured device and
      simulator family, so `lipo` merges exactly that pair. */
  lemma FirstFamilyIsMerged(cfg: Config)
    ensures cfg.watchOSScheme.Some? ==>
              Targets(cfg)[..2] == [Target(cfg.watchOSScheme.value, WatchOS), Target(cfg.watchOSScheme.value, WatchOSSim)]
    ensures cfg.watchOSScheme.None? && cfg.iOSScheme.Some? ==>
              Targets(cfg)[..2] == [Target(cfg.iOSScheme.value, IOS), Target(cfg.iOSScheme.value, IOSSim)]
    ensures cfg.watchOSScheme.None? && cfg.iOSScheme.None? && cfg.tvOSScheme.Some? ==>
              Targets(cfg)[..2] == [Target(cfg.tvOSScheme.value, TvOS), Target(cfg.tvOSScheme.value, TvOSSim)]
    ensures cfg.watchOSScheme.None? && cfg.iOSScheme.None? && cfg.tvOSScheme.None? ==> |Targets(cfg)| <= 1
  {
  }

  /** When every archive succeeds, the phase issues exactly the commands of
      each target in order and collects one framework path per target. */
  lemma {:induction false} ArchiveAllSucceeds(plan: Plan, ts: seq<Target>, shell: Oracle, developerDirExists: bool)
    requires forall i :: 0 <= i < |ts| ==> Archives(plan, ts[i], shell, developerDirExists)
    ensures ArchiveAll(plan, ts, shell, developerDirExists)
         == Stage(Issued(plan, ts, developerDirExists), Success(FrameworkPaths(plan, ts)))
    decreases |ts|
  {
    if |ts| > 0 {
      assert Archives(plan, ts[0], shell, developerDirExists);
      ArchiveAllSucceeds(plan, ts[1..], shell, developerDirExists);
      assert [FrameworkPath(plan, ts[0])] + FrameworkPaths(plan, ts[1..]) == FrameworkPaths(plan, ts);
    }
  }

  /** When archive `k` is the first to fail, the phase issues the commands
      of targets 0..k only and fails with that archive's error. */
  lemma {:induction false} ArchiveAllStopsAtFirstFailure(plan: Plan, ts: seq<Target>, shell: Oracle, developerDirExists: bool, k: nat)
    requires k < |ts|
    requires forall j :: 0 <= j < k ==> Archives(plan, ts[j], shell, developerDirExists)
    requires !Archives(plan, ts[k], shell, developerDirExists)
    ensures ArchiveAll(plan, ts, shell, developerDirExists)
         == Stage(Issued(plan, ts[..k + 1], developerDirExists),
                  Failure(FailureFor(ArchiveCommand(plan, ts[k], developerDirExists),
                                     shell(ArchiveCommand(plan, ts[k], developerDirExists)))))
    decreases k
  {
    if k == 0 {
      assert Issued(plan, ts[..1], developerDirExists) == SchemeCommands(plan, ts[0], developerDirExists) + Issued(plan, ts[..1][1..], developerDirExists);
      assert ts[..1][1..] == [];
    } else {
      assert Archives(plan, ts[0], shell, developerDirExists);
      ArchiveAllStopsAtFirstFailure(plan, ts[1..], shell, developerDirExists, k - 1);
      assert ts[..k + 1][1..] == ts[1..][..k];
      assert ts[..k + 1][0] == ts[0];
    }
  }

  /** A given target's failed archive stops the whole phase. */
  lemma FirstFailureExists(plan: Plan, ts: seq<Target>, shell: Oracle, developerDirExists: bool)
    returns (k: nat)
    requires exists i :: 0 <= i < |ts| && !Archives(plan, ts[i], shell, developerDirExists)
    ensures k < |ts| && !Archives(plan, ts[k], shell, developerDirExists)
    ensures forall j :: 0 <= j < k ==> Archives(plan, ts[j], shell, developerDirExists)
  {
    k := 0;
    while Archives(plan, ts[k], shell, developerDirExists)
      invariant k < |ts|
      invariant forall j :: 0 <= j < k ==> Archives(plan, ts[j], shell, developerDirExists)
      invariant exists i :: k <= i < |ts| && !Archives(plan, ts[i], shell, developerDirExists)
      decreases |ts| - k
    {
      k := k + 1;
    }
  }

  /** The archive phase issues only `xcode-select` and archive commands,
      and archives nothing but its own targets. */
  lemma {:induction false} IssuedArchivesOnly(plan: Plan, ts: seq<Target>, developerDirExists: bool)
    ensures forall c :: c in Issued(plan, ts, developerDirExists) ==> c.program.XcodeSelect? || c.program.IsArchiver()
    ensures forall c :: c in Issued(plan, ts, developerDirExists) && c.program.IsArchiver() ==>
              exists i :: 0 <= i < |ts| && c == ArchiveCommand(plan, ts[i], developerDirExists)
    decreases |ts|
  {
    if |ts| > 0 {
      IssuedArchivesOnly(plan, ts[1..], developerDirExists);
      forall c | c in Issued(plan, ts, developerDirExists) && c.program.IsArchiver()
        ensures exists i :: 0 <= i < |ts| && c == ArchiveCommand(plan, ts[i], developerDirExists)
      {
        if c in SchemeCommands(plan, ts[0], developerDirExists) {
          assert c == ArchiveCommand(plan, ts[0], developerDirExists);
        } else {
          assert c in Issued(plan, ts[1..], developerDirExists);
          var i :| 0 <= i < |ts[1..]| && c == ArchiveCommand(plan, ts[1..][i], developerDirExists);
          assert c == ArchiveCommand(plan, ts[i + 1], developerDirExists);
        }
      }
    }
  }

  /** The two commands `build()` issues before archiving. */
  function Prologue(plan: Plan): seq<Command> {
    [Command(Rm, [FinalOutput(plan)]), Command(Mkdir, ["-p", FinalOutput(plan)])]
  }

  /** Once `mkdir` passes, `build()` is the archive phase followed, if it
      succeeds, by the bundle assembly. */
  lemma BuildAfterPrologue(plan: Plan, shell: Oracle, developerDirExists: bool)
    requires 1 <= |plan.targets|
    requires shell(Prologue(plan)[1]).isSuccess
    ensures var archived := ArchiveAll(plan, plan.targets, shell, developerDirExists);
            BuildPlan(plan, shell, developerDirExists)
            == if archived.result.Failure? then Stage(Prologue(plan) + archived.trace, Failure(archived.result.error))
               else Stage(Prologue(plan) + archived.trace + Combine(plan, archived.result.value, shell).trace,
                          Combine(plan, archived.result.value, shell).result)
  {
  }

  /** When archive `k` is the first to fail, `build()` has issued the
      prologue and the archive commands of targets 0..k, and returns that
      archive's error. */
  lemma ArchiveFailureAborts(plan: Plan, shell: Oracle, developerDirExists: bool, k: nat)
    requires 1 <= |plan.targets|
    requires shell(Prologue(plan)[1]).isSuccess
    requires k < |plan.targets|
    requires forall j :: 0 <= j < k ==> Archives(plan, plan.targets[j], shell, developerDirExists)
    requires !Archives(plan, plan.targets[k], shell, developerDirExists)
    ensures var cmd := ArchiveCommand(plan, plan.targets[k], developerDirExists);
            BuildPlan(plan, shell, developerDirExists)
            == Stage(Prologue(plan) + Issued(plan, plan.targets[..k + 1], developerDirExists), Failure(FailureFor(cmd, shell(cmd))))
  {
    ArchiveAllStopsAtFirstFailure(plan, plan.targets, shell, developerDirExists, k);
    BuildAfterPrologue(plan, shell, developerDirExists);
  }

  /** What an archive failure leaves behind: no `cp` or `lipo` was issued,
      and the error carries the archive's standard error followed by at
      most the last 100,000 characters of its standard output. */
  lemma ArchiveFailureReport(plan: Plan, ts: seq<Target>, k: nat, shell: Oracle, developerDirExists: bool)
    requires k < |ts|
    ensures var cmd := ArchiveCommand(plan, ts[k], developerDirExists);
            var e := FailureFor(cmd, shell(cmd));
            && e.BuildError?
            && HasPrefix(e.message, shell(cmd).stderr)
            && HasSuffix(e.message, Tail(shell(cmd).stdout, LogTailLength))
    ensures forall c :: c in Prologue(plan) + Issued(plan, ts[..k + 1], developerDirExists) ==> !c.program.Cp? && !c.program.Lipo?
  {
    IssuedArchivesOnly(plan, ts[..k + 1], developerDirExists);
  }

  /** The success path: after the archives, `cp` copies the first framework
      into the output directory, `lipo` merges the first and second binaries
      into the bundle, and the second framework's `Modules` are copied. */
  lemma SuccessUsesFirstTwoPaths(plan: Plan, shell: Oracle, developerDirExists: bool)
    requires 1 <= |plan.targets|
    requires BuildPlan(plan, shell, developerDirExists).result.Success?
    ensures var o := BuildPlan(plan, shell, developerDirExists);
            var paths := FrameworkPaths(plan, plan.targets);
            var prefix := Prologue(plan) + Issued(plan, plan.targets, developerDirExists);
            && AllChecksPass(o.trace, shell)
            && (|paths| >= 2 ==> o.trace == prefix + [Command(Cp, ["-r", paths[0], plan.outputDirectory]),
                                                      Command(Lipo, ["-create", "-output", FinalOutput(plan) + "/" + plan.name,
                                                                     paths[0] + "/" + plan.name, paths[1] + "/" + plan.name]),
                                                      Command(Cp, ["-r", paths[1] + "/Modules/", FinalOutput(plan) + "/Modules/"])])
            && (|paths| == 1 ==> o.trace == prefix + [Command(Cp, ["-r", paths[0], plan.outputDirectory])])
  {
    var o := BuildPlan(plan, shell, developerDirExists);
    assert shell(Prologue(plan)[1]).isSuccess;
    if exists i :: 0 <= i < |plan.targets| && !Archives(plan, plan.targets[i], shell, developerDirExists) {
      var k := FirstFailureExists(plan, plan.targets, shell, developerDirExists);
      ArchiveFailureAborts(plan, shell, developerDirExists, k);
      assert false;
    }
    ArchiveAllSucceeds(plan, plan.targets, shell, developerDirExists);
    BuildAfterPrologue(plan, shell, developerDirExists);
    var paths := FrameworkPaths(plan, plan.targets);
    var combined := Combine(plan, paths, shell);
    assert o.trace == Prologue(plan) + Issued(plan, plan.targets, developerDirExists) + combined.trace;
    ArchivesPassChecks(plan, plan.targets, shell, developerDirExists);
    AllChecksPassConcat(Prologue(plan), Issued(plan, plan.targets, developerDirExists), shell);
    AllChecksPassConcat(Prologue(plan) + Issued(plan, plan.targets, developerDirExists), combined.trace, shell);
    if |paths| >= 2 {
      assert combined.trace == [combined.trace[0], combined.trace[1], combined.trace[2]];
    } else {
      assert combined.trace == [combined.trace[0]];
    }
  }

  /** Archive commands that all succeed leave nothing failing in the trace. */
  lemma {:induction false} ArchivesPassChecks(plan: Plan, ts: seq<Target>, shell: Oracle, developerDirExists: bool)
    requires forall i :: 0 <= i < |ts| ==> Archives(plan, ts[i], shell, developerDirExists)
    ensures AllChecksPass(Issued(plan, ts, developerDirExists), shell)
    decreases |ts|
  {
    if |ts| > 0 {
      assert Archives(plan, ts[0], shell, developerDirExists);
      ArchivesPassChecks(plan, ts[1..], shell, developerDirExists);
      AllChecksPassConcat(SchemeCommands(plan, ts[0], developerDirExists), Issued(plan, ts[1..], developerDirExists), shell);
    }
  }

  /** One archive step: its `xcode-select`, if any, is unchecked, so only
      the archive itself can fail. */
  lemma SchemeStepChecks(plan: Plan, t: Target, shell: Oracle, developerDirExists: bool)
    ensures var r := BuildScheme(plan, t, shell, developerDirExists);
            && AllChecksPass(r.trace[..|r.trace| - 1], shell)
            && (r.result.Success? ==> AllChecksPass(r.trace, shell))
  {
  }

  /** A phase that stops at its first failure: on success every checked
      command passed; on failure the failing archive is the last command,
      every earlier checked command passed, and the error is the archive's. */
  predicate PhaseAborts(r: Stage<seq<string>>, shell: Oracle) {
    && (r.result.Success? ==> AllChecksPass(r.trace, shell))
    && (r.result.Failure? ==> && |r.trace| > 0
                              && r.trace[|r.trace| - 1].program.IsArchiver()
                              && !shell(r.trace[|r.trace| - 1]).isSuccess
                              && AllChecksPass(r.trace[..|r.trace| - 1], shell)
                              && r.result.error == FailureFor(r.trace[|r.trace| - 1], shell(r.trace[|r.trace| - 1])))
  }

  /** Passing commands in front of a phase keep it stopping at its first
      failure. */
  lemma PhaseAbortsAfter(pre: seq<Command>, rest: Stage<seq<string>>, r: Stage<seq<string>>, shell: Oracle)
    requires AllChecksPass(pre, shell) && PhaseAborts(rest, shell)
    requires r.trace == pre + rest.trace
    requires r.result.Success? == rest.result.Success?
    requires r.result.Failure? ==> r.result.error == rest.result.error
    ensures PhaseAborts(r, shell)
  {
  }

  /** The archive phase stops at its first failure. */
  lemma {:induction false} ArchiveAllAborts(plan: Plan, ts: seq<Target>, shell: Oracle, developerDirExists: bool)
    ensures PhaseAborts(ArchiveAll(plan, ts, shell, developerDirExists), shell)
    decreases |ts|
  {
    if |ts| > 0 {
      var first := BuildScheme(plan, ts[0], shell, developerDirExists);
      SchemeStepChecks(plan, ts[0], shell, developerDirExists);
      if first.result.Success? {
        var rest := ArchiveAll(plan, ts[1..], shell, developerDirExists);
        ArchiveAllAborts(plan, ts[1..], shell, developerDirExists);
        PhaseAbortsAfter(first.trace, rest, ArchiveAll(plan, ts, shell, developerDirExists), shell);
      }
    }
  }

  /** A run that stops at its first failure: it succeeds exactly when every
      checked command succeeded, and a failing run ends with the command
      that failed, after checked commands that all succeeded, and reports
      that command's error. */
  predicate AbortsAtFirstFailure(o: Stage<()>, shell: Oracle) {
    && (o.result.Success? <==> AllChecksPass(o.trace, shell))
    && (o.result.Failure? ==> && |o.trace| > 0
                              && o.trace[|o.trace| - 1].program.IsChecked()
                              && !shell(o.trace[|o.trace| - 1]).isSuccess
                              && AllChecksPass(o.trace[..|o.trace| - 1], shell)
                              && o.result.error == FailureFor(o.trace[|o.trace| - 1], shell(o.trace[|o.trace| - 1])))
  }

  /** Abort on first failure, for the whole build. */
  lemma BuildStopsAtFirstFailure(plan: Plan, shell: Oracle, developerDirExists: bool)
    requires 1 <= |plan.targets|
    ensures AbortsAtFirstFailure(BuildPlan(plan, shell, developerDirExists), shell)
  {
    if !shell(Prologue(plan)[1]).isSuccess {
      MkdirFailureStops(plan, shell, developerDirExists);
    } else if ArchiveAll(plan, plan.targets, shell, developerDirExists).result.Failure? {
      ArchivePhaseFailureStops(plan, shell, developerDirExists);
    } else {
      AssemblyStops(plan, shell, developerDirExists);
    }
  }

  /** The build whose archive phase fails stops at the failed archive. */
  lemma ArchivePhaseFailureStops(plan: Plan, shell: Oracle, developerDirExists: bool)
    requires 1 <= |plan.targets|
    requires shell(Prologue(plan)[1]).isSuccess
    requires ArchiveAll(plan, plan.targets, shell, developerDirExists).result.Failure?
    ensures AbortsAtFirstFailure(BuildPlan(plan, shell, developerDirExists), shell)
  {
    var pro := Prologue(plan);
    var archived := ArchiveAll(plan, plan.targets, shell, developerDirExists);
    BuildAfterPrologue(plan, shell, developerDirExists);
    assert BuildPlan(plan, shell, developerDirExists) == Stage(pro + archived.trace, Failure(archived.result.error));
    assert AllChecksPass(pro, shell);
    ArchiveAllAborts(plan, plan.targets, shell, developerDirExists);
    FailedPhaseAborts(pro, archived, shell);
  }

  /** Passing commands followed by a failed phase make a run that stopped at
      its first failure. */
  lemma FailedPhaseAborts(pro: seq<Command>, archived: Stage<seq<string>>, shell: Oracle)
    requires AllChecksPass(pro, shell) && PhaseAborts(archived, shell)
    requires archived.result.Failure?
    ensures AbortsAtFirstFailure(Stage(pro + archived.trace, Failure(archived.result.error)), shell)
  {
    var t := pro + archived.trace;
    FailedArchiveIsLast(pro, archived.trace, shell);
    assert t[|t| - 1].program.IsChecked() && !shell(t[|t| - 1]).isSuccess;
    assert !AllChecksPass(t, shell);
  }

  /** The build whose archive phase succeeds stops at the first failed
      assembly step, if any. */
  lemma AssemblyStops(plan: Plan, shell: Oracle, developerDirExists: bool)
    requires 1 <= |plan.targets|
    requires shell(Prologue(plan)[1]).isSuccess
    requires ArchiveAll(plan, plan.targets, shell, developerDirExists).result.Success?
    ensures AbortsAtFirstFailure(BuildPlan(plan, shell, developerDirExists), shell)
  {
    var pro := Prologue(plan);
    var archived := ArchiveAll(plan, plan.targets, shell, developerDirExists);
    var combined := Combine(plan, archived.result.value, shell);
    BuildAfterPrologue(plan, shell, developerDirExists);
    assert BuildPlan(plan, shell, developerDirExists) == Stage(pro + archived.trace + combined.trace, combined.result);
    assert AllChecksPass(pro, shell);
    ArchiveAllAborts(plan, plan.targets, shell, developerDirExists);
    AllChecksPassConcat(pro, archived.trace, shell);
    CombineIssuesCopyAndLipo(plan, archived.result.value, shell);
    CombineStopsAtFirstFailure(pro + archived.trace, combined, shell);
  }

  /** A failed `mkdir -p` ends the build right after the `rm`. */
  lemma MkdirFailureStops(plan: Plan, shell: Oracle, developerDirExists: bool)
    requires 1 <= |plan.targets|
    requires !shell(Prologue(plan)[1]).isSuccess
    ensures BuildPlan(plan, shell, developerDirExists)
         == Stage(Prologue(plan), Failure(CommandError(Prologue(plan)[1], shell(Prologue(plan)[1]))))
    ensures !AllChecksPass(Prologue(plan), shell) && AllChecksPass(Prologue(plan)[..1], shell)
  {
  }

  lemma FailedArchiveIsLast(pro: seq<Command>, trace: seq<Command>, shell: Oracle)
    requires AllChecksPass(pro, shell) && |trace| > 0
    requires AllChecksPass(trace[..|trace| - 1], shell)
    ensures AllChecksPass((pro + trace)[..|pro + trace| - 1], shell)
    ensures (pro + trace)[|pro + trace| - 1] == trace[|trace| - 1]
  {
  }

  lemma CombineStopsAtFirstFailure(pro: seq<Command>, combined: Stage<()>, shell: Oracle)
    requires AllChecksPass(pro, shell) && |combined.trace| > 0
    requires forall i :: 0 <= i < |combined.trace| ==> combined.trace[i].program.IsChecked() && !combined.trace[i].program.IsArchiver()
    requires combined.result.Success? <==> forall i :: 0 <= i < |combined.trace| ==> shell(combined.trace[i]).isSuccess
    requires combined.result.Failure? ==> && !shell(combined.trace[|combined.trace| - 1]).isSuccess
                                          && (forall i :: 0 <= i < |combined.trace| - 1 ==> shell(combined.trace[i]).isSuccess)
                                          && combined.result.error == CommandError(combined.trace[|combined.trace| - 1], shell(combined.trace[|combined.trace| - 1]))
    ensures AbortsAtFirstFailure(Stage(pro + combined.trace, combined.result), shell)
  {
    var t := combined.trace;
    AllChecksPassConcat(pro, t, shell);
    if combined.result.Failure? {
      assert (pro + t)[..|pro + t| - 1] == pro + t[..|t| - 1];
      AllChecksPassConcat(pro, t[..|t| - 1], shell);
    }
  }

  /** Every command of `trace` respects the toolchain choice: the
      `xcode-select` switch and the alternate `xcodebuild` appear only when
      the alternate Xcode is used, the default `xcodebuild` only when it is
      not. */
  predicate RespectsToolchain(trace: seq<Command>, plan: Plan, developerDirExists: bool) {
    forall c :: c in trace ==>
      ((c.program.XcodeSelect? || c.program.DeveloperXcodebuild?) ==> UsesAlternateXcode(plan, developerDirExists))
      && (c.program.Xcodebuild? ==> !UsesAlternateXcode(plan, developerDirExists))
  }

  lemma RespectsToolchainConcat(a: seq<Command>, b: seq<Command>, plan: Plan, developerDirExists: bool)
    requires RespectsToolchain(a, plan, developerDirExists)
    requires RespectsToolchain(b, plan, developerDirExists)
    ensures RespectsToolchain(a + b, plan, developerDirExists)
  {
    forall c | c in a + b
      ensures ((c.program.XcodeSelect? || c.program.DeveloperXcodebuild?) ==> UsesAlternateXcode(plan, developerDirExists))
              && (c.program.Xcodebuild? ==> !UsesAlternateXcode(plan, developerDirExists))
    {
      assert c in a || c in b;
    }
  }

  /** Only an alternate Xcode whose developer directory exists brings in
      `xcode-select` and the developer directory's `xcodebuild`; otherwise
      every archive uses the default `xcodebuild`. */
  lemma {:induction false} ArchiveAllToolchain(plan: Plan, ts: seq<Target>, shell: Oracle, developerDirExists: bool)
    ensures RespectsToolchain(ArchiveAll(plan, ts, shell, developerDirExists).trace, plan, developerDirExists)
    decreases |ts|
  {
    if |ts| > 0 {
      ArchiveAllToolchain(plan, ts[1..], shell, developerDirExists);
      var first := BuildScheme(plan, ts[0], shell, developerDirExists);
      assert forall c :: c in first.trace ==> c == first.trace[0] || c == first.trace[|first.trace| - 1];
      assert RespectsToolchain(first.trace, plan, developerDirExists);
      if first.result.Success? {
        var rest := ArchiveAll(plan, ts[1..], shell, developerDirExists);
        RespectsToolchainConcat(first.trace, rest.trace, plan, developerDirExists);
      }
    }
  }

  lemma BuildToolchain(plan: Plan, shell: Oracle, developerDirExists: bool)
    requires 1 <= |plan.targets|
    ensures RespectsToolchain(BuildPlan(plan, shell, developerDirExists).trace, plan, developerDirExists)
  {
    var prologue := Prologue(plan);
    assert RespectsToolchain(prologue, plan, developerDirExists);
    if shell(prologue[1]).isSuccess {
      BuildAfterPrologue(plan, shell, developerDirExists);
      var archived := ArchiveAll(plan, plan.targets, shell, developerDirExists);
      ArchiveAllToolchain(plan, plan.targets, shell, developerDirExists);
      RespectsToolchainConcat(prologue, archived.trace, plan, developerDirExists);
      if archived.result.Success? {
        var combined := Combine(plan, archived.result.value, shell);
        CombineIssuesCopyAndLipo(plan, archived.result.value, shell);
        assert RespectsToolchain(combined.trace, plan, developerDirExists);
        RespectsToolchainConcat(prologue + archived.trace, combined.trace, plan, developerDirExists);
      }
    }
  }

  /** The bundle assembly issues only `cp` and `lipo`. */
  lemma CombineIssuesCopyAndLipo(plan: Plan, paths: seq<string>, shell: Oracle)
    requires 1 <= |paths|
    ensures forall c :: c in Combine(plan, paths, shell).trace ==> c.program.Cp? || c.program.Lipo?
    ensures forall i :: 0 <= i < |Combine(plan, paths, shell).trace| ==>
              Combine(plan, paths, shell).trace[i].program.IsChecked() && !Combine(plan, paths, shell).trace[i].program.IsArchiver()
  {
  }

  /** One archive step does not depend on the Xcode path when the default
      toolchain is used. */
  lemma {:induction false} ArchiveAllIgnoresUnusedXcode(plan: Plan, ts: seq<Target>, shell: Oracle, developerDirExists: bool)
    ensures ArchiveAll(plan, ts, shell, false) == ArchiveAll(plan.(xcodePath := None), ts, shell, developerDirExists)
    decreases |ts|
  {
    if |ts| > 0 {
      ArchiveAllIgnoresUnusedXcode(plan, ts[1..], shell, developerDirExists);
      assert ArchiveArguments(plan, ts[0]) == ArchiveArguments(plan.(xcodePath := None), ts[0]);
      assert BuildScheme(plan, ts[0], shell, false) == BuildScheme(plan.(xcodePath := None), ts[0], shell, developerDirExists);
    }
  }

  /** A missing alternate Xcode is not an error: the build is the one made
      with no Xcode path at all. */
  lemma MissingXcodeFallsBack(plan: Plan, shell: Oracle, developerDirExists: bool)
    requires 1 <= |plan.targets|
    ensures BuildPlan(plan, shell, false) == BuildPlan(plan.(xcodePath := None), shell, developerDirExists)
  {
    var plan' := plan.(xcodePath := None);
    assert FinalOutput(plan) == FinalOutput(plan');
    ArchiveAllIgnoresUnusedXcode(plan, plan.targets, shell, developerDirExists);
    var archived := ArchiveAll(plan, plan.targets, shell, false);
    if archived.result.Success? {
      var paths := archived.result.value;
      assert CopyCommand(plan, paths[0]) == CopyCommand(plan', paths[0]);
      if |paths| >= 2 {
        assert LipoCommand(plan, paths[0], paths[1]) == LipoCommand(plan', paths[0], paths[1]);
        assert ModulesCommand(plan, paths[1]) == ModulesCommand(plan', paths[1]);
      }
      assert Combine(plan, paths, shell) == Combine(plan', paths, shell);
    }
  }

  /** Validation drops an unused Xcode path the same way. */
  lemma MissingXcodePathIsNotAnError(cfg: Config, shell: Oracle, developerDirExists: bool)
    ensures Build(cfg, shell, false) == Build(cfg.(xcodePath := None), shell, developerDirExists)
  {
    var cfg' := cfg.(xcodePath := None);
    assert Missing(cfg) == Missing(cfg');
    assert Targets(cfg) == Targets(cfg');
    if Validate(cfg).Success? {
      assert Validate(cfg').value == Validate(cfg).value.(xcodePath := None);
      MissingXcodeFallsBack(Validate(cfg).value, shell, developerDirExists);
    }
  }
}
