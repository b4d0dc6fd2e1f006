/** Two concrete builds of an iOS-only framework "Foo": one in which every
    command succeeds, and one in which the simulator archive fails. */
module BuildExamples {
  import opened Wrappers
  import opened Strings
  import opened Shell
  import opened XCFrameworkBuilder
  import opened BuilderProperties

  function IOSOnlyConfig(): Config {
    Config(Some("Foo"), Some("Foo.xcodeproj"), Some("/out"), Some("/tmp/build"),
           Some("Foo"), None, None, None, None, false, None)
  }

  function IOSOnlyPlan(): Plan {
    Plan("Foo", "Foo.xcodeproj", "/tmp/build/", "/out/", [Target("Foo", IOS), Target("Foo", IOSSim)], [], None)
  }

  lemma IOSOnlyValidates()
    ensures Validate(IOSOnlyConfig()) == Success(IOSOnlyPlan())
  {
    var cfg := IOSOnlyConfig();
    assert Missing(cfg) == [];
    assert Targets(cfg) == [Target("Foo", IOS), Target("Foo", IOSSim)];
    assert !HasSuffix("/out", "/") by { assert "/out"[3..] == "t"; }
    assert !HasSuffix("/tmp/build", "/") by { assert "/tmp/build"[9..] == "d"; }
    assert WithTrailingSlash("/out") == "/out/";
    assert WithTrailingSlash("/tmp/build") == "/tmp/build/";
    assert Validate(cfg).Success?;
    assert Validate(cfg).value.targets == IOSOnlyPlan().targets;
    assert Validate(cfg).value.compilerArguments == [];
  }

  lemma IOSOnlySucceeds(shell: Oracle, developerDirExists: bool)
    requires forall c :: shell(c).isSuccess
    ensures Build(IOSOnlyConfig(), shell, developerDirExists).result == Success(())
  {
  }

  lemma DeviceArchivePath()
    ensures ArchivePath(IOSOnlyPlan(), Target("Foo", IOS)) == "/tmp/build/Foo-iphoneos.xcarchive"
  {
  }

  lemma DevicePath()
    ensures FrameworkPath(IOSOnlyPlan(), Target("Foo", IOS))
         == "/tmp/build/Foo-iphoneos.xcarchive/Products/Library/Frameworks/Foo.framework"
  {
    DeviceArchivePath();
  }

  lemma SimulatorArchivePath()
    ensures ArchivePath(IOSOnlyPlan(), Target("Foo", IOSSim)) == "/tmp/build/Foo-iphonesimulator.xcarchive"
  {
  }

  lemma SimulatorPath()
    ensures FrameworkPath(IOSOnlyPlan(), Target("Foo", IOSSim))
         == "/tmp/build/Foo-iphonesimulator.xcarchive/Products/Library/Frameworks/Foo.framework"
  {
    SimulatorArchivePath();
  }

  /** With every command succeeding, `lipo` merges the device binary and
      then the simulator binary of scheme "Foo" into the bundle. */
  lemma IOSOnlyMergesDeviceThenSimulator(shell: Oracle, developerDirExists: bool)
    requires forall c :: shell(c).isSuccess
    ensures var o := Build(IOSOnlyConfig(), shell, developerDirExists);
            && o.result == Success(())
            && Command(Lipo, ["-create", "-output", "/out/Foo.framework/Foo",
                              "/tmp/build/Foo-iphoneos.xcarchive/Products/Library/Frameworks/Foo.framework/Foo",
                              "/tmp/build/Foo-iphonesimulator.xcarchive/Products/Library/Frameworks/Foo.framework/Foo"])
               in o.trace
  {
    IOSOnlyValidates();
    IOSOnlySucceeds(shell, developerDirExists);
    IOSOnlyLipo(shell, developerDirExists);
  }

  lemma IOSOnlyLipo(shell: Oracle, developerDirExists: bool)
    requires BuildPlan(IOSOnlyPlan(), shell, developerDirExists).result.Success?
    ensures Command(Lipo, ["-create", "-output", "/out/Foo.framework/Foo",
                           "/tmp/build/Foo-iphoneos.xcarchive/Products/Library/Frameworks/Foo.framework/Foo",
                           "/tmp/build/Foo-iphonesimulator.xcarchive/Products/Library/Frameworks/Foo.framework/Foo"])
            in BuildPlan(IOSOnlyPlan(), shell, developerDirExists).trace
  {
    IOSOnlyLipoIsIssued(shell, developerDirExists);
    IOSOnlyLipoArguments();
  }

  lemma IOSOnlyLipoIsIssued(shell: Oracle, developerDirExists: bool)
    requires BuildPlan(IOSOnlyPlan(), shell, developerDirExists).result.Success?
    ensures var plan := IOSOnlyPlan();
            LipoCommand(plan, FrameworkPath(plan, Target("Foo", IOS)), FrameworkPath(plan, Target("Foo", IOSSim)))
            in BuildPlan(plan, shell, developerDirExists).trace
  {
  }

  lemma IOSOnlyLipoArguments()
    ensures var plan := IOSOnlyPlan();
            LipoCommand(plan, FrameworkPath(plan, Target("Foo", IOS)), FrameworkPath(plan, Target("Foo", IOSSim)))
            == Command(Lipo, ["-create", "-output", "/out/Foo.framework/Foo",
                              "/tmp/build/Foo-iphoneos.xcarchive/Products/Library/Frameworks/Foo.framework/Foo",
                              "/tmp/build/Foo-iphonesimulator.xcarchive/Products/Library/Frameworks/Foo.framework/Foo"])
  {
    var plan := IOSOnlyPlan();
    DevicePath();
    SimulatorPath();
    assert FinalOutput(plan) == "/out/Foo.framework";
    assert FinalOutput(plan) + "/" + plan.name == "/out/Foo.framework/Foo";
    assert FrameworkPath(plan, Target("Foo", IOS)) + "/" + plan.name
        == "/tmp/build/Foo-iphoneos.xcarchive/Products/Library/Frameworks/Foo.framework/Foo";
    assert FrameworkPath(plan, Target("Foo", IOSSim)) + "/" + plan.name
        == "/tmp/build/Foo-iphonesimulator.xcarchive/Products/Library/Frameworks/Foo.framework/Foo";
  }

  /** Fails every simulator archive with "code signing failed". */
  function SimulatorSigningFails(c: Command): ShellResult {
    if c.program.IsArchiver() && 0 < |c.args| && c.args[|c.args| - 1] == "iphonesimulator"
    then ShellResult(false, "", "code signing failed")
    else ShellResult(true, "", "")
  }

  lemma OnlySimulatorArchiveFails(developerDirExists: bool)
    ensures Archives(IOSOnlyPlan(), Target("Foo", IOS), SimulatorSigningFails, developerDirExists)
    ensures !Archives(IOSOnlyPlan(), Target("Foo", IOSSim), SimulatorSigningFails, developerDirExists)
    ensures SimulatorSigningFails(ArchiveCommand(IOSOnlyPlan(), Target("Foo", IOSSim), developerDirExists)).stderr
            == "code signing failed"
  {
  }

  /** A failing simulator archive: the error starts with its standard error
      and neither `cp` nor `lipo` is ever issued. */
  lemma SimulatorFailureStopsBuild(developerDirExists: bool)
    ensures var o := Build(IOSOnlyConfig(), SimulatorSigningFails, developerDirExists);
            && o.result.Failure? && o.result.error.BuildError?
            && HasPrefix(o.result.error.message, "code signing failed")
            && forall c :: c in o.trace ==> !c.program.Cp? && !c.program.Lipo?
  {
    IOSOnlyValidates();
    SimulatorFailureStopsPlan(developerDirExists);
    assert Build(IOSOnlyConfig(), SimulatorSigningFails, developerDirExists)
        == BuildPlan(IOSOnlyPlan(), SimulatorSigningFails, developerDirExists);
  }

  lemma SimulatorFailureStopsPlan(developerDirExists: bool)
    ensures var o := BuildPlan(IOSOnlyPlan(), SimulatorSigningFails, developerDirExists);
            && o.result.Failure? && o.result.error.BuildError?
            && HasPrefix(o.result.error.message, "code signing failed")
            && forall c :: c in o.trace ==> !c.program.Cp? && !c.program.Lipo?
  {
    var plan := IOSOnlyPlan();
    OnlySimulatorArchiveFails(developerDirExists);
    assert SimulatorSigningFails(Prologue(plan)[1]).isSuccess by {
      assert !Prologue(plan)[1].program.IsArchiver();
    }
    SecondArchiveFails(plan, SimulatorSigningFails, developerDirExists);
  }

  /** A two-archive build whose second archive fails reports that archive's
      standard error and never reaches the assembly. */
  lemma SecondArchiveFails(plan: Plan, shell: Oracle, developerDirExists: bool)
    requires |plan.targets| == 2
    requires shell(Prologue(plan)[1]).isSuccess
    requires Archives(plan, plan.targets[0], shell, developerDirExists)
    requires !Archives(plan, plan.targets[1], shell, developerDirExists)
    ensures var o := BuildPlan(plan, shell, developerDirExists);
            var cmd := ArchiveCommand(plan, plan.targets[1], developerDirExists);
            && o.result.Failure? && o.result.error.BuildError?
            && HasPrefix(o.result.error.message, shell(cmd).stderr)
            && forall c :: c in o.trace ==> !c.program.Cp? && !c.program.Lipo?
  {
    var cmd := ArchiveCommand(plan, plan.targets[1], developerDirExists);
    var trace := Prologue(plan) + Issued(plan, plan.targets[..2], developerDirExists);
    var e := FailureFor(cmd, shell(cmd));
    ArchiveFailureAborts(plan, shell, developerDirExists, 1);
    assert BuildPlan(plan, shell, developerDirExists) == Stage(trace, Failure(e));
    ArchiveFailureReport(plan, plan.targets, 1, shell, developerDirExists);
    assert e.BuildError? && HasPrefix(e.message, shell(cmd).stderr);
    assert forall c :: c in trace ==> !c.program.Cp? && !c.program.Lipo?;
  }
}
