/**
 * The command line (main.go): the build file is read over the defaults, the reuse and remove
 * flags are normalised and checked against each other, the console log level is checked, and the
 * pipeline is run with the resulting flags. Reading and parsing the file are I/O: their outcome is
 * an input of the model.
 */
module Cli {
  import opened Wrappers
  import Config
  import Container
  import Repos
  import Insulatr

  /** The command line's options. */
  datatype Args = Args(
    file: string,
    reuseVolume: bool, removeVolume: bool,
    reuseNetwork: bool, removeNetwork: bool,
    reuse: bool, remove: bool,
    allowDockerSock: bool, allowPrivileged: bool,
    consoleLogLevel: string)

  /** What became of the build file: missing, unreadable, not YAML, or read over `Defaults()`. */
  datatype Input = FileMissing | ReadFailed | ParseFailed | Parsed(build: Config.Build)

  datatype CliError =
    | MissingFile(file: string)
    | UnreadableFile(file: string)
    | MalformedFile
    | ConflictingFlags
    | BadLogLevel(level: string)

  /** The pipeline the command line starts: the build and the flags it is run with. */
  datatype Launch = Launch(build: Config.Build, flags: Insulatr.Flags)

  /** `--reuse` stands for both reuse flags; as intended, `--remove` stands for both remove flags. */
  function Normalised(v: Insulatr.Variant, argv: Args): Args {
    var a := if argv.reuse then argv.(reuseVolume := true, reuseNetwork := true) else argv;
    if v == Insulatr.Intended && a.remove then a.(removeVolume := true, removeNetwork := true) else a
  }

  predicate Conflicting(a: Args) {
    (a.reuse && a.remove) || (a.reuseVolume && a.removeVolume) || (a.reuseNetwork && a.removeNetwork)
  }

  predicate KnownLevel(level: string) {
    level == "DEBUG" || level == "NOTICE" || level == "INFO"
  }

  /** main.go lines 48-87: what the command line runs, or why it stops. */
  function Decide(v: Insulatr.Variant, argv: Args, input: Input): Result<Launch, CliError> {
    match input
    case FileMissing => Err(MissingFile(argv.file))
    case ReadFailed => Err(UnreadableFile(argv.file))
    case ParseFailed => Err(MalformedFile)
    case Parsed(build) =>
      var a := Normalised(v, argv);
      if Conflicting(a) then Err(ConflictingFlags)
      else if a.consoleLogLevel != "" && !KnownLevel(a.consoleLogLevel) then Err(BadLogLevel(a.consoleLogLevel))
      else
        var b := if KnownLevel(a.consoleLogLevel) then build.(settings := build.settings.(consoleLogLevel := a.consoleLogLevel)) else build;
        Ok(Launch(b, Insulatr.Flags(a.reuseVolume, a.removeVolume, a.reuseNetwork, a.removeNetwork, a.allowDockerSock, a.allowPrivileged)))
  }

  /**
   * The exit status: 1 when the command line stops; as written, 0 whenever the pipeline ran, since
   * its error is discarded; as intended, 1 when the pipeline returned an error.
   */
  function ExitCode(v: Insulatr.Variant, decision: Result<Launch, CliError>, runErr: Option<Insulatr.BuildError>): int {
    if decision.Err? then 1
    else if v == Insulatr.Intended && runErr.Some? then 1
    else 0
  }

  /** main.go lines 48-85: the file's outcome, then the flags, then the log level. */
  method Configure(argv: Args, input: Input) returns (d: Result<Launch, CliError>)
    ensures d == Decide(Insulatr.AsWritten, argv, input)
  {
    if input.FileMissing? {
      return Err(MissingFile(argv.file));
    }
    if input.ReadFailed? {
      return Err(UnreadableFile(argv.file));
    }
    if input.ParseFailed? {
      return Err(MalformedFile);
    }
    var build := input.build;
    var a := argv;
    if a.reuse {
      a := a.(reuseVolume := true);
      a := a.(reuseNetwork := true);
    }
    if (a.reuse && a.remove) || (a.reuseVolume && a.removeVolume) || (a.reuseNetwork && a.removeNetwork) {
      return Err(ConflictingFlags);
    }
    var level := a.consoleLogLevel;
    if level == "DEBUG" || level == "NOTICE" || level == "INFO" {
      build := build.(settings := build.settings.(consoleLogLevel := level));
    } else if level != "" {
      return Err(BadLogLevel(level));
    }
    d := Ok(Launch(build, Insulatr.Flags(a.reuseVolume, a.removeVolume, a.reuseNetwork, a.removeNetwork, a.allowDockerSock, a.allowPrivileged)));
  }

  /**
   * main.go lines 45-94. `engine` and `procEnv` are the engine's answers and the process
   * environment the pipeline sees; `report` is what the pipeline returned, if it ran, and `stopped`
   * the order in which it stopped the services.
   */
  method Execute(argv: Args, input: Input, engine: Insulatr.Engine, procEnv: seq<string>)
    returns (code: int, report: Option<Insulatr.Report>, stopped: seq<string>)
    requires Repos.AgentReadable(procEnv)
    requires Container.Reports(engine.run, engine.foreground)
    ensures Decide(Insulatr.AsWritten, argv, input).Err? ==> report.None? && stopped == []
    ensures match Decide(Insulatr.AsWritten, argv, input)
      case Err(_) => true
      case Ok(launch) =>
        && (Insulatr.Opening(launch.build, launch.flags, engine).err.None? ==>
              Insulatr.StopOrder(stopped, Insulatr.AfterSetup(Insulatr.AsWritten, launch.build, launch.flags, engine, procEnv).services.Keys))
        && report == Some(Insulatr.Outcome(Insulatr.AsWritten, launch.build, launch.flags, engine, procEnv, stopped))
    ensures code == ExitCode(Insulatr.AsWritten, Decide(Insulatr.AsWritten, argv, input), if report.Some? then report.value.err else None)
  {
    var d := Configure(argv, input);
    if d.Err? {
      return 1, None, [];
    }
    var r, s := Insulatr.Run(d.value.build, d.value.flags, engine, procEnv);
    report, stopped := Some(r), s;
    // The error checked after the run is the one of parsing the file, which is nil here.
    code := 0;
  }

  // ---------------------------------------------------------------- properties

  /**
   * The run's flags never ask to both reuse and remove the same resource, and `--reuse` always
   * reuses both; a conflict is refused exactly when the file was read.
   */
  lemma LaunchFlagsConsistent(v: Insulatr.Variant, argv: Args, input: Input)
    ensures var d := Decide(v, argv, input);
      && (d.Ok? ==> !(d.value.flags.reuseVolume && d.value.flags.removeVolume)
                    && !(d.value.flags.reuseNetwork && d.value.flags.removeNetwork)
                    && (argv.reuse ==> d.value.flags.reuseVolume && d.value.flags.reuseNetwork)
                    && (d.value.flags.reuseVolume <==> argv.reuse || argv.reuseVolume)
                    && (d.value.flags.reuseNetwork <==> argv.reuse || argv.reuseNetwork)
                    && d.value.flags.allowDockerSock == argv.allowDockerSock
                    && d.value.flags.allowPrivileged == argv.allowPrivileged)
      && (d == Err(ConflictingFlags) <==> input.Parsed? && Conflicting(Normalised(v, argv)))
  {
  }

  /** The conflict check as the options were given: `--reuse` conflicts with either remove flag. */
  lemma ConflictOnGivenFlags(argv: Args)
    ensures Conflicting(Normalised(Insulatr.AsWritten, argv)) <==>
      (argv.reuse && (argv.remove || argv.removeVolume || argv.removeNetwork))
      || (argv.reuseVolume && argv.removeVolume) || (argv.reuseNetwork && argv.removeNetwork)
  {
  }

  /**
   * A launched build has a known log level, or the file's own when none was given; an unknown one
   * stops the command line without running anything.
   */
  lemma LogLevelChecked(v: Insulatr.Variant, argv: Args, build: Config.Build)
    requires !Conflicting(Normalised(v, argv))
    ensures var d, level := Decide(v, argv, Parsed(build)), argv.consoleLogLevel;
      && (d.Err? <==> level != "" && !KnownLevel(level))
      && (d.Err? ==> d.error == BadLogLevel(level))
      && (d.Ok? ==> d.value.build.settings.consoleLogLevel == (if level == "" then build.settings.consoleLogLevel else level))
      && (d.Ok? ==> d.value.build.(settings := build.settings) == build
                    && d.value.build.settings.(consoleLogLevel := build.settings.consoleLogLevel) == build.settings)
  {
  }

  /** As written, `--remove` only takes part in the conflict check: the run never removes because of it. */
  lemma RemoveNotPropagated(argv: Args, input: Input)
    requires Decide(Insulatr.AsWritten, argv, input).Ok?
    ensures Decide(Insulatr.AsWritten, argv, input).value.flags.removeVolume == argv.removeVolume
    ensures Decide(Insulatr.AsWritten, argv, input).value.flags.removeNetwork == argv.removeNetwork
  {
  }

  /** As intended, `--remove` removes both resources, as its usage text says. */
  lemma RemoveStandsForBoth(argv: Args, input: Input)
    requires Decide(Insulatr.Intended, argv, input).Ok?
    ensures var f := Decide(Insulatr.Intended, argv, input).value.flags;
      && (f.removeVolume <==> argv.remove || argv.removeVolume)
      && (f.removeNetwork <==> argv.remove || argv.removeNetwork)
  {
  }

  /**
   * As written, a pipeline that fails still exits with 0: here the build has two repositories, one
   * of which has no directory of its own, so the pipeline returns an error before any engine call.
   */
  lemma ExitIgnoresRun(argv: Args, engine: Insulatr.Engine, procEnv: seq<string>, build: Config.Build)
    requires Repos.AgentReadable(procEnv)
    requires !Conflicting(Normalised(Insulatr.AsWritten, argv)) && argv.consoleLogLevel == ""
    requires |build.repositories| == 2 && build.repositories[0].directory == ""
    ensures var d := Decide(Insulatr.AsWritten, argv, Parsed(build));
      && d.Ok?
      && Insulatr.Outcome(Insulatr.AsWritten, d.value.build, d.value.flags, engine, procEnv, []).err == Some(Insulatr.DirectoryRequired)
      && ExitCode(Insulatr.AsWritten, d, Some(Insulatr.DirectoryRequired)) == 0
  {
    var d := Decide(Insulatr.AsWritten, argv, Parsed(build));
    Insulatr.DirectoryRequiredFirst(Insulatr.AsWritten, d.value.build, d.value.flags, engine, procEnv, [], 0);
  }

  /** As intended, the exit status is 0 exactly when the pipeline ran and returned no error. */
  lemma IntendedExit(decision: Result<Launch, CliError>, runErr: Option<Insulatr.BuildError>)
    ensures ExitCode(Insulatr.Intended, decision, runErr) == 0 <==> decision.Ok? && runErr.None?
    ensures ExitCode(Insulatr.Intended, decision, runErr) in {0, 1}
  {
  }
}
