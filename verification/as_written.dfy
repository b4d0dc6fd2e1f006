/** The bundle assembly exactly as `build()` writes it. Lines 139 and 146
    read `frameworksArguments[1]` unconditionally; with a macOS scheme alone
    only one path is collected and that read traps (Swift's array index
    check), after the `cp` of line 132 has already run. */
module AsWritten {
  import opened Wrappers
  import opened Shell
  import opened XCFrameworkBuilder

  /** How a call of `build()` ends: by returning, or by the runtime trap. */
  datatype Termination = Returned(result: Result<(), XCFrameworkError>) | IndexOutOfRange

  datatype Execution = Execution(trace: seq<Command>, termination: Termination)

  /** Lines 130-154 as written. */
  function CombineAsWritten(plan: Plan, paths: seq<string>, shell: Oracle): (r: Execution)
    requires 1 <= |paths|
    ensures r.termination.IndexOutOfRange? <==> |paths| < 2 && shell(CopyCommand(plan, paths[0])).isSuccess
  {
    var copy := Run(CopyCommand(plan, paths[0]), shell);
    if copy.result.Failure? then Execution(copy.trace, Returned(copy.result))
    else if |paths| < 2 then Execution(copy.trace, IndexOutOfRange)
    else
      var merged := Merge(plan, paths[0], paths[1], shell);
      Execution(copy.trace + merged.trace, Returned(merged.result))
  }

  /** `build()` as written, after validation. */
  function BuildPlanAsWritten(plan: Plan, shell: Oracle, developerDirExists: bool): (r: Execution)
    requires 1 <= |plan.targets|
    ensures r.termination.IndexOutOfRange? ==> |plan.targets| == 1
  {
    var prepared := Prepare(plan, shell, developerDirExists);
    if prepared.result.Failure? then Execution(prepared.trace, Returned(Failure(prepared.result.error)))
    else
      var combined := CombineAsWritten(plan, prepared.result.value, shell);
      Execution(prepared.trace + combined.trace, combined.termination)
  }

  /** `build()` as written. */
  function BuildAsWritten(cfg: Config, shell: Oracle, developerDirExists: bool): (r: Execution)
    ensures r.termination.IndexOutOfRange? ==> Validate(cfg).Success? && |Targets(cfg)| == 1
  {
    match Validate(cfg)
    case Failure(e) => Execution([], Returned(Failure(e)))
    case Success(plan) => BuildPlanAsWritten(plan, shell, developerDirExists)
  }

  /** Only the macOS scheme is set. */
  predicate MacOSOnly(cfg: Config) {
    cfg.macOSScheme.Some? && cfg.watchOSScheme.None? && cfg.iOSScheme.None? && cfg.tvOSScheme.None?
  }

  /** A single archive is collected exactly for a macOS-only configuration. */
  lemma SinglePathIffMacOSOnly(cfg: Config)
    ensures |Targets(cfg)| == 1 <==> MacOSOnly(cfg)
  {
  }

  /** The trap happens exactly when validation, `mkdir`, the single macOS
      archive and the `cp` all succeed. */
  lemma TrapsExactlyWhenOnePathCollected(plan: Plan, shell: Oracle, developerDirExists: bool)
    requires 1 <= |plan.targets|
    ensures BuildPlanAsWritten(plan, shell, developerDirExists).termination.IndexOutOfRange?
            <==> && |plan.targets| == 1
                 && Prepare(plan, shell, developerDirExists).result.Success?
                 && shell(CopyCommand(plan, Prepare(plan, shell, developerDirExists).result.value[0])).isSuccess
  {
  }

  /** Whenever the written code does not trap, it does what `Build` does. */
  lemma AgreesWhenNoTrap(plan: Plan, shell: Oracle, developerDirExists: bool)
    requires 1 <= |plan.targets|
    requires !BuildPlanAsWritten(plan, shell, developerDirExists).termination.IndexOutOfRange?
    ensures BuildPlanAsWritten(plan, shell, developerDirExists)
         == Execution(BuildPlan(plan, shell, developerDirExists).trace, Returned(BuildPlan(plan, shell, developerDirExists).result))
  {
  }

  /** The same agreement from an unvalidated configuration: whenever the
      written `build()` does not trap, it returns what `Build` returns. */
  lemma BuildAgreesWhenNoTrap(cfg: Config, shell: Oracle, developerDirExists: bool)
    requires !BuildAsWritten(cfg, shell, developerDirExists).termination.IndexOutOfRange?
    ensures BuildAsWritten(cfg, shell, developerDirExists)
         == Execution(Build(cfg, shell, developerDirExists).trace, Returned(Build(cfg, shell, developerDirExists).result))
  {
    if Validate(cfg).Success? {
      AgreesWhenNoTrap(Validate(cfg).value, shell, developerDirExists);
    }
  }

  /** The corrected assembly: a macOS-only build whose commands succeed
      ends after the `cp` with success, the copied framework being the
      bundle. */
  lemma MacOSOnlyBuildSucceeds(plan: Plan, shell: Oracle, developerDirExists: bool)
    requires |plan.targets| == 1
    requires Prepare(plan, shell, developerDirExists).result.Success?
    requires shell(CopyCommand(plan, Prepare(plan, shell, developerDirExists).result.value[0])).isSuccess
    ensures var prepared := Prepare(plan, shell, developerDirExists);
            BuildPlan(plan, shell, developerDirExists)
            == Stage(prepared.trace + [CopyCommand(plan, prepared.result.value[0])], Success(()))
  {
  }

  function MacOSOnlyConfig(): Config {
    Config(Some("Kit"), Some("Kit.xcodeproj"), Some("/out"), Some("/tmp/build"),
           None, None, None, Some("Kit"), None, false, None)
  }

  /** The input that shows the defect: a macOS-only configuration whose
      every command succeeds traps as written, and succeeds when corrected. */
  lemma MacOSOnlyCounterexample(shell: Oracle, developerDirExists: bool)
    requires forall c :: shell(c).isSuccess
    ensures BuildAsWritten(MacOSOnlyConfig(), shell, developerDirExists).termination == IndexOutOfRange
    ensures Build(MacOSOnlyConfig(), shell, developerDirExists).result == Success(())
  {
  }
}
