/** The seam between the builder and the processes it starts. A command is a
    program plus its argument list; running one yields an exit status and
    the two captured streams. The builder's decisions depend on the
    outcome only through an `Oracle`, an arbitrary total function from
    commands to outcomes. */
module Shell {
  import opened Strings

  /** The external programs the builder invokes. `DeveloperXcodebuild` is the
      `xcodebuild` found under an alternate Xcode's developer directory. */
  datatype Program =
    | Rm
    | Mkdir
    | Cp
    | Lipo
    | XcodeSelect
    | Xcodebuild
    | DeveloperXcodebuild(developerDir: string)
  {
    /** The program's name, as the builder's diagnostics print it for
        `mkdir`, `cp`, `lipo` and `xcodebuild`. */
    function Name(): string {
      match this
      case Rm => "rm"
      case Mkdir => "mkdir"
      case Cp => "cp"
      case Lipo => "lipo"
      case XcodeSelect => "xcode-select"
      case Xcodebuild => "xcodebuild"
      case DeveloperXcodebuild(_) => "xcodebuild"
    }

    /** Either toolchain's archive command. */
    predicate IsArchiver() {
      Xcodebuild? || DeveloperXcodebuild?
    }

    /** Programs whose exit status the builder inspects; the `rm` of a stale
        bundle and the `xcode-select` switch are fire-and-forget. */
    predicate IsChecked() {
      !Rm? && !XcodeSelect?
    }
  }

  datatype Command = Command(program: Program, args: seq<string>)

  datatype ShellResult = ShellResult(isSuccess: bool, stdout: string, stderr: string)

  /** What the environment answers when a command is run. */
  type Oracle = Command -> ShellResult

  /** `<program> <args joined by a space>`, as diagnostics print a command. */
  function Describe(cmd: Command): string {
    cmd.program.Name() + " " + Join(cmd.args, " ")
  }
}
