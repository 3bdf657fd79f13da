/**
 * Running one build step (steps.go): the step's environment merged with the global one and
 * resolved against the process environment, the optional Docker socket and SSH agent forwarding,
 * and the foreground container that runs the step's commands.
 */
module Steps {
  import opened Wrappers
  import opened Text
  import Config
  import Container
  import Environment

  const DockerSocket := "/var/run/docker.sock"

  /** The engine's socket, mounted at its own path. */
  const DockerSocketBind := Container.Mount(Container.BindMount, DockerSocket, DockerSocket)

  // ---------------------------------------------------------------- os.Getenv

  /** Position of the first entry of the process environment that defines `name`, or `|procEnv|`. */
  function FirstDefinition(procEnv: seq<string>, name: string): (k: nat)
    ensures k <= |procEnv|
    ensures k < |procEnv| ==> Environment.Qualified(procEnv[k]) && Key(procEnv[k]) == name
    ensures forall j :: 0 <= j < k ==> !(Environment.Qualified(procEnv[j]) && Key(procEnv[j]) == name)
  {
    if procEnv == [] then 0
    else if Environment.Qualified(procEnv[0]) && Key(procEnv[0]) == name then 0
    else 1 + FirstDefinition(procEnv[1..], name)
  }

  /** The text after the first `=`. */
  function Value(entry: string): string
    requires Environment.Qualified(entry)
  {
    entry[FirstIndex(entry, '=') + 1..]
  }

  /** `os.Getenv`: the value of the first definition, empty when there is none. */
  function Getenv(procEnv: seq<string>, name: string): string {
    var k := FirstDefinition(procEnv, name);
    if k == |procEnv| then "" else Value(procEnv[k])
  }

  /** A non-empty value comes from an entry `name=value` of the process environment. */
  lemma GetenvEntry(procEnv: seq<string>, name: string)
    requires '=' !in name
    requires Getenv(procEnv, name) != ""
    ensures FirstDefinition(procEnv, name) < |procEnv|
    ensures procEnv[FirstDefinition(procEnv, name)] == name + "=" + Getenv(procEnv, name)
  {
    var e := procEnv[FirstDefinition(procEnv, name)];
    EntryParts(e, name);
  }

  /** A defining entry is its name, `=`, and its value. */
  lemma EntryParts(e: string, name: string)
    requires Environment.Qualified(e) && Key(e) == name
    ensures e == name + "=" + Value(e)
  {
    var i := FirstIndex(e, '=');
    KeyIsPrefix(e);
    assert e == e[..i] + [e[i]] + e[i + 1..];
  }

  // ---------------------------------------------------------------- the step

  datatype StepError =
    | Unresolved(variable: string, step: string)
    | AgentMapFailed(step: string)
    | AgentNotSet(step: string)
    | RunFailed(cause: Container.ContainerError)

  /** The environment and binds the step's container gets. */
  datatype Prepared = Prepared(environment: seq<string>, binds: seq<Container.Mount>)

  /**
   * `MapSSHAgentSocket`, which is not part of this model: it may add entries and binds for the
   * agent, or fail.
   */
  type AgentMapper = Prepared -> Option<Prepared>

  /** steps.go lines 13-55: what the step's container gets, or why none is run. */
  function Preparation(step: Config.Step, global: seq<string>, procEnv: seq<string>, mapAgent: AgentMapper): Result<Prepared, StepError> {
    var x := Environment.Expand(step.environment + global, procEnv);
    if x.unresolved.Some? then Err(Unresolved(x.unresolved.value, step.name))
    else
      var p := Prepared(x.entries, if step.mountDockerSock then [DockerSocketBind] else []);
      if !step.forwardSshAgent then Ok(p)
      else if Getenv(procEnv, Environment.AgentVariable) == "" then Err(AgentNotSet(step.name))
      else
        match mapAgent(p)
        case None => Err(AgentMapFailed(step.name))
        case Some(q) => Ok(q)
  }

  /** The step's container: its own image, shell, commands, user and places, and no files. */
  function StepRequest(step: Config.Step, p: Prepared): Container.Foreground {
    Container.Foreground(step.image, step.shell, step.commands, step.user, p.environment, step.workingDirectory,
                         step.networkName, step.volumeName, p.binds, step.overrideEntrypoint, [])
  }

  datatype StepRun = StepRun(request: Option<Container.Foreground>, err: Option<StepError>)

  function StepOutcome(step: Config.Step, global: seq<string>, procEnv: seq<string>, mapAgent: AgentMapper,
                       run: Container.Verdicts): StepRun
  {
    match Preparation(step, global, procEnv, mapAgent)
    case Err(e) => StepRun(None, Some(e))
    case Ok(p) =>
      var req := StepRequest(step, p);
      var e := run(req);
      StepRun(Some(req), if e.Some? then Some(RunFailed(e.value)) else None)
  }

  /** steps.go lines 13-16. */
  method MergeEnvironment(local: seq<string>, global: seq<string>) returns (environment: seq<string>)
    ensures environment == local + global
  {
    environment := local;
    for i := 0 to |global|
      invariant environment == local + global[..i]
    {
      assert global[..i + 1] == global[..i] + [global[i]];
      environment := environment + [global[i]];
    }
    assert global[..|global|] == global;
  }

  /** steps.go lines 13-55. */
  method Prepare(step: Config.Step, global: seq<string>, procEnv: seq<string>, mapAgent: AgentMapper)
    returns (r: Result<Prepared, StepError>)
    ensures r == Preparation(step, global, procEnv, mapAgent)
  {
    var merged := MergeEnvironment(step.environment, global);
    var environment := new string[|merged|](k requires 0 <= k < |merged| => merged[k]);
    assert environment[..] == merged;
    var unresolved := Environment.ExpandInPlace(environment, procEnv);
    if unresolved.Some? {
      return Err(Unresolved(unresolved.value, step.name));
    }
    var binds := [];
    if step.mountDockerSock {
      binds := binds + [Container.Mount(Container.BindMount, DockerSocket, DockerSocket)];
    }
    var prepared := Prepared(environment[..], binds);
    assert prepared == Prepared(Environment.Expand(merged, procEnv).entries, if step.mountDockerSock then [DockerSocketBind] else []);
    if step.forwardSshAgent {
      if |Getenv(procEnv, Environment.AgentVariable)| > 0 {
        var mapped := mapAgent(prepared);
        if mapped.None? {
          return Err(AgentMapFailed(step.name));
        }
        prepared := mapped.value;
      } else {
        return Err(AgentNotSet(step.name));
      }
    }
    r := Ok(prepared);
  }

  /** steps.go `RunStep`; `engine` gives the engine's answers to the step's container, and `run` what such a run returns. */
  method RunStep(step: Config.Step, global: seq<string>, procEnv: seq<string>, mapAgent: AgentMapper,
                 engine: Container.Foreground -> Container.Daemon, run: Container.Verdicts)
    returns (request: Option<Container.Foreground>, err: Option<StepError>)
    requires Container.Reports(run, engine)
    ensures StepRun(request, err) == StepOutcome(step, global, procEnv, mapAgent, run)
  {
    var prepared := Prepare(step, global, procEnv, mapAgent);
    if prepared.Err? {
      return None, Some(prepared.error);
    }
    var p := prepared.value;
    var req := Container.Foreground(step.image, step.shell, step.commands, step.user, p.environment,
                                    step.workingDirectory, step.networkName, step.volumeName, p.binds,
                                    step.overrideEntrypoint, []);
    var failure := Container.RunForegroundError(req, engine, run);
    request := Some(req);
    err := if failure.Some? then Some(RunFailed(failure.value)) else None;
  }

  // ---------------------------------------------------------------- properties

  /**
   * The first bare name of the merged list without a process variable stops the step before any
   * container runs, and is the one reported; when every name resolves, no such error arises.
   */
  lemma UnresolvedStopsStep(step: Config.Step, global: seq<string>, procEnv: seq<string>, mapAgent: AgentMapper,
                            run: Container.Verdicts)
    ensures var merged := step.environment + global; var f := Environment.FirstUnresolved(merged, procEnv);
      && (f < |merged| ==> StepOutcome(step, global, procEnv, mapAgent, run) == StepRun(None, Some(Unresolved(merged[f], step.name))))
      && (f == |merged| ==> !StepOutcome(step, global, procEnv, mapAgent, run).err.Some?
                            || !StepOutcome(step, global, procEnv, mapAgent, run).err.value.Unresolved?)
  {
    Environment.ExpandAt(step.environment + global, procEnv);
  }

  /**
   * Without agent forwarding, a run container gets the step's own environment followed by the
   * global one, entry by entry resolved against the process environment, and exactly the Docker
   * socket bind when asked for.
   */
  lemma StepRequestShape(step: Config.Step, global: seq<string>, procEnv: seq<string>, mapAgent: AgentMapper,
                         run: Container.Verdicts)
    requires !step.forwardSshAgent
    requires StepOutcome(step, global, procEnv, mapAgent, run).request.Some?
    ensures var req, merged := StepOutcome(step, global, procEnv, mapAgent, run).request.value, step.environment + global;
      && |req.environment| == |step.environment| + |global|
      && (forall k :: 0 <= k < |merged| ==> Environment.Resolve(merged[k], procEnv) == Some(req.environment[k]))
      && req.binds == (if step.mountDockerSock then [DockerSocketBind] else [])
      && req.image == step.image && req.shell == step.shell && req.commands == step.commands
      && req.user == step.user && req.overrideEntrypoint == step.overrideEntrypoint && req.files == []
  {
    Environment.ExpandAt(step.environment + global, procEnv);
  }

  /** Agent forwarding without a value for the agent variable is an error, and no container runs. */
  lemma AgentRequired(step: Config.Step, global: seq<string>, procEnv: seq<string>, mapAgent: AgentMapper,
                      run: Container.Verdicts)
    requires step.forwardSshAgent && Getenv(procEnv, Environment.AgentVariable) == ""
    ensures StepOutcome(step, global, procEnv, mapAgent, run).request.None?
    ensures StepOutcome(step, global, procEnv, mapAgent, run).err.Some?
  {
  }

  /** A step's error names the step, except a failure of its container, which carries the engine's error. */
  lemma StepErrorNamesStep(step: Config.Step, global: seq<string>, procEnv: seq<string>, mapAgent: AgentMapper,
                           run: Container.Verdicts)
    ensures var o := StepOutcome(step, global, procEnv, mapAgent, run);
      && (o.err.Some? && !o.err.value.RunFailed? ==> o.err.value.step == step.name && o.request.None?)
      && (o.err.Some? && o.err.value.RunFailed? ==>
            o.request.Some? && run(o.request.value) == Some(o.err.value.cause))
      && (o.err.None? ==> o.request.Some? && run(o.request.value).None?)
  {
  }
}
