/**
 * The build pipeline (insulatr.go `run`): the directory check and the creation of the volume and
 * network, then injection, cloning, services, steps and extraction, skipped once the build has
 * failed, then the teardown of the services, the network and the volume, which always happens.
 *
 * The engine's answers are parameters: one per resource call, and per container request for the
 * containers. Every call the build makes on the engine is recorded as an `Action`, so that a run
 * is described by the error it returns and the calls it made, in order.
 *
 * Each stage is specified by a function of the build's `State`. The functions take a `Variant`:
 * `AsWritten` is what the code does and what the methods are proved against; `Intended` is the
 * behaviour the code evidently aims at where it departs from it (errors that are
 * recorded instead of lost, allow-flags that gate the Docker socket and privileged services, and
 * SSH agent variables that reach the step).
 */
module Insulatr {
  import opened Wrappers
  import opened Text
  import Config
  import Container
  import Environment
  import Files
  import Repos
  import Services
  import Steps

  datatype Variant = AsWritten | Intended

  /** The switches `run` is called with. */
  datatype Flags = Flags(reuseVolume: bool, removeVolume: bool, reuseNetwork: bool, removeNetwork: bool,
                         allowDockerSock: bool, allowPrivileged: bool)

  /**
   * The engine's answers: whether the client can be made and each resource call succeeds, and for
   * each container the answers its calls get. `run` is what a foreground run returns.
   */
  datatype Engine = Engine(
    clientOk: bool,
    volumeRemovedBefore: bool, networkRemovedBefore: bool,
    volumeCreated: bool, networkCreated: bool,
    foreground: Container.Foreground -> Container.Daemon,
    run: Container.Verdicts,
    background: Container.Background -> Container.Starter,
    stopper: string -> Container.Stopper,
    networkRemovedAfter: bool, volumeRemovedAfter: bool)

  /** A call on the engine. */
  datatype Action =
    | RemovedVolume(volume: string)
    | RemovedNetwork(network: string)
    | CreatedVolume(volume: string, driver: string)
    | CreatedNetwork(network: string, driver: string)
    | Ran(request: Container.Foreground)
    | Started(service: Container.Background)
    | Stopped(id: string, withWriter: bool)

  /**
   * The errors `run` returns. Those marked as recorded only by the intended behaviour are lost by
   * the code, which still marks the build as failed.
   */
  datatype BuildError =
    | DirectoryRequired
    | ClientFailed
    | VolumeRemovalFailed
    | NetworkRemovalFailed
    | VolumeCreationFailed
    | MissingInjectName(index: nat)
    | MissingRepoName(index: nat)
    | MissingRepoLocation(name: string)
    | MissingServiceName(index: nat)
    | MissingServiceImage(name: string)
    | MissingStepName(index: nat)
    | MissingStepImage(index: nat)
    | MissingCommands(name: string)
    | StepUnresolved(variable: string)
    | StepFailed(name: string, cause: Container.ContainerError)
    // recorded only by the intended behaviour
    | NetworkCreationFailed
    | InjectionFailed(cause: Container.ContainerError)
    | CloneFailed(failure: Repos.RepoError)
    | ServiceStartFailed(name: string, cause: Container.ContainerError)
    | ExtractionFailed(cause: Container.ContainerError)
    | ServiceStopFailed(name: string, id: string, cause: Container.ContainerError)
    | DockerSockNotAllowed(name: string)
    | PrivilegedNotAllowed(name: string)

  /** The errors the code never returns. */
  predicate IntendedOnly(e: BuildError) {
    || e.NetworkCreationFailed? || e.InjectionFailed? || e.CloneFailed? || e.ServiceStartFailed?
    || e.ExtractionFailed? || e.ServiceStopFailed? || e.DockerSockNotAllowed? || e.PrivilegedNotAllowed?
  }

  /** The error returned and the calls made. */
  datatype Report = Report(err: Option<BuildError>, actions: seq<Action>)

  /** `FailedBuild`, the named result `err`, the started services by name, and the calls so far. */
  datatype State = State(failed: bool, err: Option<BuildError>, services: map<string, string>, actions: seq<Action>)

  function Begin(actions: seq<Action>): State {
    State(false, None, map[], actions)
  }

  /** A failure whose error is assigned to the result. */
  function Abort(s: State, e: BuildError): State {
    s.(failed := true, err := Some(e))
  }

  /**
   * A failure whose error the code assigns to a shadowing variable: the build fails and the result
   * is untouched. The intended behaviour keeps the first error.
   */
  function Record(v: Variant, s: State, e: BuildError): State {
    s.(failed := true, err := if v == Intended && s.err.None? then Some(e) else s.err)
  }

  // ---------------------------------------------------------------- opening

  predicate DirectorySet(repo: Config.Repository) {
    repo.directory != "" && repo.directory != "."
  }

  /** insulatr.go lines 91-135: the checks and resource calls after which `run` may return early. */
  function Opening(build: Config.Build, flags: Flags, engine: Engine): Report {
    var repos, settings := build.repositories, build.settings;
    if |repos| > 1 && !(forall k :: 0 <= k < |repos| ==> DirectorySet(repos[k])) then Report(Some(DirectoryRequired), [])
    else if !engine.clientOk then Report(Some(ClientFailed), [])
    else
      var a1 := if flags.removeVolume then [RemovedVolume(settings.volumeName)] else [];
      if flags.removeVolume && !engine.volumeRemovedBefore then Report(Some(VolumeRemovalFailed), a1)
      else
        var a2 := a1 + (if flags.removeNetwork then [RemovedNetwork(settings.networkName)] else []);
        if flags.removeNetwork && !engine.networkRemovedBefore then Report(Some(NetworkRemovalFailed), a2)
        else
          var a3 := a2 + (if !flags.reuseVolume then [CreatedVolume(settings.volumeName, settings.volumeDriver)] else []);
          if !flags.reuseVolume && !engine.volumeCreated then Report(Some(VolumeCreationFailed), a3)
          else Report(None, a3)
  }

  method Open(build: Config.Build, flags: Flags, engine: Engine) returns (r: Report)
    ensures r == Opening(build, flags, engine)
  {
    var repos, settings := build.repositories, build.settings;
    if |repos| > 1 {
      for k := 0 to |repos|
        invariant forall j :: 0 <= j < k ==> DirectorySet(repos[j])
      {
        if |repos[k].directory| == 0 || repos[k].directory == "." {
          return Report(Some(DirectoryRequired), []);
        }
      }
    }
    if !engine.clientOk {
      return Report(Some(ClientFailed), []);
    }
    var actions := [];
    if flags.removeVolume {
      actions := actions + [RemovedVolume(settings.volumeName)];
      if !engine.volumeRemovedBefore {
        return Report(Some(VolumeRemovalFailed), actions);
      }
    }
    if flags.removeNetwork {
      actions := actions + [RemovedNetwork(settings.networkName)];
      if !engine.networkRemovedBefore {
        return Report(Some(NetworkRemovalFailed), actions);
      }
    }
    if !flags.reuseVolume {
      actions := actions + [CreatedVolume(settings.volumeName, settings.volumeDriver)];
      if !engine.volumeCreated {
        return Report(Some(VolumeCreationFailed), actions);
      }
    }
    r := Report(None, actions);
  }

  // ---------------------------------------------------------------- network

  /** insulatr.go lines 137-145. */
  function Network(v: Variant, build: Config.Build, flags: Flags, engine: Engine, s: State): State {
    if s.failed || flags.reuseNetwork then s
    else
      var s1 := s.(actions := s.actions + [CreatedNetwork(build.settings.networkName, build.settings.networkDriver)]);
      if engine.networkCreated then s1 else Record(v, s1, NetworkCreationFailed)
  }

  method CreateNetwork(build: Config.Build, flags: Flags, engine: Engine, s: State) returns (t: State)
    ensures t == Network(AsWritten, build, flags, engine, s)
  {
    t := s;
    if !t.failed && !flags.reuseNetwork {
      t := t.(actions := t.actions + [CreatedNetwork(build.settings.networkName, build.settings.networkDriver)]);
      if !engine.networkCreated {
        t := t.(failed := true);
      }
    }
  }

  // ---------------------------------------------------------------- injection

  /** The last entry that names no file to inject, whose error is the one that is kept. */
  function LastEmptyInject(files: seq<Config.File>): (r: Option<nat>)
    ensures r.None? <==> forall k :: 0 <= k < |files| ==> files[k].inject != ""
    ensures r.Some? ==> r.value < |files| && files[r.value].inject == ""
  {
    if files == [] then None
    else if files[|files| - 1].inject == "" then Some(|files| - 1)
    else
      var r := LastEmptyInject(files[..|files| - 1]);
      assert forall k :: 0 <= k < |files| - 1 ==> files[..|files| - 1][k] == files[k];
      r
  }

  /** insulatr.go lines 147-188: every entry must name a file to inject. */
  function Inject(v: Variant, build: Config.Build, engine: Engine, s: State): State {
    var files := build.files;
    if s.failed || files == [] then s
    else
      match LastEmptyInject(files)
      case Some(k) => Abort(s, MissingInjectName(k))
      case None =>
        var req := Files.HelperRun(build.settings.workingDirectory, build.settings.volumeName, Files.InjectList(files));
        var s1 := s.(actions := s.actions + [Ran(req)]);
        if engine.run(req).None? then s1 else Record(v, s1, InjectionFailed(engine.run(req).value))
  }

  method InjectFiles(build: Config.Build, engine: Engine, s: State) returns (t: State)
    requires Container.Reports(engine.run, engine.foreground)
    ensures t == Inject(AsWritten, build, engine, s)
  {
    var files := build.files;
    t := s;
    if t.failed || |files| == 0 {
      return;
    }
    for index := 0 to |files|
      invariant t == (match LastEmptyInject(files[..index]) case None => s case Some(k) => Abort(s, MissingInjectName(k)))
    {
      assert files[..index + 1][..index] == files[..index];
      if |files[index].inject| == 0 {
        t := t.(failed := true, err := Some(MissingInjectName(index)));
      }
    }
    assert files[..|files|] == files;
    if !t.failed {
      var selected := Files.SelectInjected(files);
      var req := Container.Foreground("alpine", ["sh"], [], "", [], build.settings.workingDirectory, "",
                                      build.settings.volumeName, [], false, selected);
      var e := Container.RunForegroundError(req, engine.foreground, engine.run);
      t := t.(actions := t.actions + [Ran(req)]);
      if e.Some? {
        t := t.(failed := true);
      }
    }
  }

  // ---------------------------------------------------------------- cloning

  /** Position of the first entry of the process environment named `name`, or `|procEnv|`. */
  function FirstKeyed(procEnv: seq<string>, name: string): (k: nat)
    ensures k <= |procEnv|
    ensures k < |procEnv| ==> Key(procEnv[k]) == name
    ensures forall j :: 0 <= j < k ==> Key(procEnv[j]) != name
  {
    if procEnv == [] then 0
    else if Key(procEnv[0]) == name then 0
    else 1 + FirstKeyed(procEnv[1..], name)
  }

  lemma {:induction false} FirstKeyedAt(procEnv: seq<string>, name: string, i: nat)
    requires i <= |procEnv|
    requires forall j :: 0 <= j < i ==> Key(procEnv[j]) != name
    requires i < |procEnv| ==> Key(procEnv[i]) == name
    ensures FirstKeyed(procEnv, name) == i
    decreases i
  {
    if i > 0 {
      FirstKeyedAt(procEnv[1..], name, i - 1);
    }
  }

  /** What the clone container gets of the agent: the first entry of its name, if any. */
  function FirstAgent(procEnv: seq<string>): seq<string> {
    var k := FirstKeyed(procEnv, Environment.AgentVariable);
    if k < |procEnv| then [procEnv[k]] else []
  }

  function FirstAgentMounts(procEnv: seq<string>): seq<Container.Mount>
    requires Repos.AgentReadable(procEnv)
  {
    var k := FirstKeyed(procEnv, Environment.AgentVariable);
    if k < |procEnv| then [Repos.AgentBind(procEnv[k])] else []
  }

  /** insulatr.go lines 235-252: the scan stops at the first agent entry. */
  method ScanFirstAgent(procEnv: seq<string>) returns (forwarded: seq<string>, binds: seq<Container.Mount>)
    requires Repos.AgentReadable(procEnv)
    ensures forwarded == FirstAgent(procEnv)
    ensures binds == FirstAgentMounts(procEnv)
  {
    ghost var name := Environment.AgentVariable;
    forwarded, binds := [], [];
    for i := 0 to |procEnv|
      invariant forall j :: 0 <= j < i ==> Key(procEnv[j]) != name
    {
      var entry := procEnv[i];
      var pair := Split(entry, '=');
      if pair[0] == Environment.AgentVariable {
        FirstKeyedAt(procEnv, name, i);
        forwarded := [entry];
        binds := [Container.Mount(Container.BindMount, pair[1], pair[1])];
        return;
      }
    }
    FirstKeyedAt(procEnv, name, |procEnv|);
  }

  /** The clone of the pipeline forwards the first of the entries `cloneRepo` forwards. */
  lemma FirstAgentIsFirstForwarded(procEnv: seq<string>)
    ensures FirstAgent(procEnv) == Repos.AgentEntries(procEnv)[..if Repos.AgentEntries(procEnv) == [] then 0 else 1]
  {
    FirstIsFirstNamed(procEnv, Environment.AgentVariable);
  }

  lemma FirstIsFirstNamed(procEnv: seq<string>, name: string)
    ensures var k, named := FirstKeyed(procEnv, name), Repos.Named(procEnv, name);
      if k < |procEnv| then named != [] && named[0] == procEnv[k] else named == []
  {
    var k := FirstKeyed(procEnv, name);
    NoneNamedBefore(procEnv, name, k);
    if k < |procEnv| {
      var a, x, b := procEnv[..k], procEnv[k], procEnv[k + 1..];
      Around(procEnv, k);
      FirstNamedAfterNone(a, x, b, name);
    } else {
      assert procEnv[..k] == procEnv;
    }
  }

  lemma Around(s: seq<string>, k: nat)
    requires k < |s|
    ensures s == s[..k] + [s[k]] + s[k + 1..]
  {
  }

  lemma FirstNamedAfterNone(a: seq<string>, x: string, b: seq<string>, name: string)
    requires Repos.Named(a, name) == [] && Key(x) == name
    ensures Repos.Named(a + [x] + b, name) == [x] + Repos.Named(b, name)
  {
    assert (a + [x])[..|a + [x]| - 1] == a;
    assert Repos.Named(a + [x], name) == [x];
    Repos.NamedAppend(a + [x], b, name);
  }

  /** ... and mounts the socket of that entry. */
  lemma FirstAgentMountIsFirstMount(procEnv: seq<string>)
    requires Repos.AgentReadable(procEnv)
    ensures |Repos.AgentMounts(procEnv)| == |Repos.AgentEntries(procEnv)|
    ensures FirstAgentMounts(procEnv) == Repos.AgentMounts(procEnv)[..if Repos.AgentEntries(procEnv) == [] then 0 else 1]
  {
    FirstMountIsFirstNamed(procEnv, Environment.AgentVariable);
  }

  lemma FirstMountIsFirstNamed(procEnv: seq<string>, name: string)
    requires Repos.Readable(procEnv, name)
    ensures var k, mounts := FirstKeyed(procEnv, name), Repos.NamedMounts(procEnv, name);
      && |mounts| == |Repos.Named(procEnv, name)|
      && if k < |procEnv| then mounts != [] && '=' in procEnv[k] && mounts[0] == Repos.AgentBind(procEnv[k]) else mounts == []
  {
    FirstIsFirstNamed(procEnv, name);
    Repos.NamedMountsMatch(procEnv, name);
  }

  /** Nothing is selected from a part of the environment without the name. */
  lemma NoneNamedBefore(procEnv: seq<string>, name: string, k: nat)
    requires k <= |procEnv|
    requires forall j :: 0 <= j < k ==> Key(procEnv[j]) != name
    ensures Repos.Named(procEnv[..k], name) == []
  {
    if Repos.Named(procEnv[..k], name) != [] {
      var e := Repos.Named(procEnv[..k], name)[0];
      Repos.NamedExactly(procEnv[..k], name, e);
    }
  }

  /** The containers run for the repository at index `i`, as `run` builds them. */
  function CloneOrder(build: Config.Build, procEnv: seq<string>, i: nat): seq<Container.Foreground>
    requires Repos.AgentReadable(procEnv) && i < |build.repositories|
  {
    Repos.ClonePlanWith(build.repositories[i], build.settings.workingDirectory, build.settings.volumeName,
                        FirstAgent(procEnv), FirstAgentMounts(procEnv))
  }

  function Runs(reqs: seq<Container.Foreground>): (r: seq<Action>)
    ensures |r| == |reqs| && forall k :: 0 <= k < |reqs| ==> r[k] == Ran(reqs[k])
  {
    seq(|reqs|, k requires 0 <= k < |reqs| => Ran(reqs[k]))
  }

  /** insulatr.go lines 192-319: one repository. */
  function CloneOne(v: Variant, build: Config.Build, engine: Engine, procEnv: seq<string>, s: State, i: nat): State
    requires Repos.AgentReadable(procEnv) && i < |build.repositories|
  {
    var repo := build.repositories[i];
    if repo.name == "" then Abort(s, MissingRepoName(i))
    else if repo.location == "" then Abort(s, MissingRepoLocation(repo.name))
    else
      var plan := CloneOrder(build, procEnv, i);
      var n := Repos.Progress(plan, engine.run);
      var s1 := s.(actions := s.actions + Runs(plan[..n]));
      if !Repos.Fails(plan[n - 1], engine.run) then s1
      else Record(v, s1, CloneFailed(Repos.RunFailure(repo.name, n - 1, engine.run(plan[n - 1]).value)))
  }

  function CloneLoop(v: Variant, build: Config.Build, engine: Engine, procEnv: seq<string>, s: State, i: nat): State
    requires Repos.AgentReadable(procEnv)
    decreases |build.repositories| - i
  {
    if i >= |build.repositories| || s.failed then s
    else CloneLoop(v, build, engine, procEnv, CloneOne(v, build, engine, procEnv, s, i), i + 1)
  }

  function Clone(v: Variant, build: Config.Build, engine: Engine, procEnv: seq<string>, s: State): State
    requires Repos.AgentReadable(procEnv)
  {
    if s.failed || build.repositories == [] then s else CloneLoop(v, build, engine, procEnv, s, 0)
  }

  method CloneRepository(build: Config.Build, engine: Engine, procEnv: seq<string>, s: State, i: nat) returns (t: State)
    requires Repos.AgentReadable(procEnv) && i < |build.repositories|
    requires Container.Reports(engine.run, engine.foreground)
    ensures t == CloneOne(AsWritten, build, engine, procEnv, s, i)
  {
    var repo := build.repositories[i];
    if repo.name == "" {
      return s.(failed := true, err := Some(MissingRepoName(i)));
    }
    if repo.location == "" {
      return s.(failed := true, err := Some(MissingRepoLocation(repo.name)));
    }
    var ref := Repos.SelectRef(repo);
    var args := Repos.CloneCommand(repo, ref);
    var forwarded, binds := ScanFirstAgent(procEnv);
    var runs, e := Repos.RunClone(repo, ref, args, build.settings.workingDirectory, build.settings.volumeName,
                                  forwarded, binds, engine.foreground, engine.run);
    Repos.PlanFollowedIsProgress(CloneOrder(build, procEnv, i), engine.run, repo.name, runs, e);
    t := s.(actions := s.actions + Runs(runs));
    if e.Some? {
      t := t.(failed := true);
    }
  }

  method CloneRepositories(build: Config.Build, engine: Engine, procEnv: seq<string>, s: State) returns (t: State)
    requires Repos.AgentReadable(procEnv)
    requires Container.Reports(engine.run, engine.foreground)
    ensures t == Clone(AsWritten, build, engine, procEnv, s)
  {
    t := s;
    if t.failed || |build.repositories| == 0 {
      return;
    }
    var i := 0;
    while i < |build.repositories|
      invariant i <= |build.repositories| && !t.failed
      invariant CloneLoop(AsWritten, build, engine, procEnv, t, i) == CloneLoop(AsWritten, build, engine, procEnv, s, 0)
    {
      t := CloneRepository(build, engine, procEnv, t, i);
      if t.failed {
        break;
      }
      i := i + 1;
    }
  }

  // ---------------------------------------------------------------- services

  /** The background container of a service: its environment is passed as written. */
  function ServiceContainer(build: Config.Build, service: Config.Service): Container.Background {
    Container.Background(service.image, service.environment, build.settings.networkName, service.name, service.privileged)
  }

  /** insulatr.go lines 327-357: one service. */
  function ServiceOne(v: Variant, build: Config.Build, flags: Flags, engine: Engine, s: State, i: nat): State
    requires i < |build.services|
  {
    var service := build.services[i];
    if service.name == "" then Abort(s, MissingServiceName(i))
    else if service.image == "" then Abort(s, MissingServiceImage(service.name))
    else if v == Intended && service.privileged && !flags.allowPrivileged then Abort(s, PrivilegedNotAllowed(service.name))
    else
      var req := ServiceContainer(build, service);
      var s1 := s.(actions := s.actions + [Started(req)]);
      match Container.BackgroundError(req, engine.background(req))
      case Some(e) => Record(v, s1, ServiceStartFailed(service.name, e))
      case None => s1.(services := s1.services[service.name := Container.StartedId(engine.background(req))])
  }

  function ServiceLoop(v: Variant, build: Config.Build, flags: Flags, engine: Engine, s: State, i: nat): State
    decreases |build.services| - i
  {
    if i >= |build.services| || s.failed then s
    else ServiceLoop(v, build, flags, engine, ServiceOne(v, build, flags, engine, s, i), i + 1)
  }

  function StartServices(v: Variant, build: Config.Build, flags: Flags, engine: Engine, s: State): State {
    if s.failed || build.services == [] then s else ServiceLoop(v, build, flags, engine, s, 0)
  }

  method StartService(build: Config.Build, flags: Flags, engine: Engine, s: State, i: nat) returns (t: State)
    requires i < |build.services|
    ensures t == ServiceOne(AsWritten, build, flags, engine, s, i)
  {
    var service := build.services[i];
    if service.name == "" {
      return s.(failed := true, err := Some(MissingServiceName(i)));
    }
    if service.image == "" {
      return s.(failed := true, err := Some(MissingServiceImage(service.name)));
    }
    var req := Container.Background(service.image, service.environment, build.settings.networkName,
                                    service.name, service.privileged);
    var calls, config, id, e := Container.RunBackground(req, engine.background(req));
    t := s.(actions := s.actions + [Started(req)]);
    if e.Some? {
      return t.(failed := true);
    }
    t := t.(services := t.services[service.name := id]);
  }

  method StartAllServices(build: Config.Build, flags: Flags, engine: Engine, s: State) returns (t: State)
    ensures t == StartServices(AsWritten, build, flags, engine, s)
  {
    t := s;
    if t.failed || |build.services| == 0 {
      return;
    }
    var i := 0;
    while i < |build.services|
      invariant i <= |build.services| && !t.failed
      invariant ServiceLoop(AsWritten, build, flags, engine, t, i) == ServiceLoop(AsWritten, build, flags, engine, s, 0)
    {
      t := StartService(build, flags, engine, t, i);
      if t.failed {
        break;
      }
      i := i + 1;
    }
  }

  // ---------------------------------------------------------------- steps

  /** A step without a shell runs in the build's shell. */
  function StepShell(build: Config.Build, step: Config.Step): seq<string> {
    if step.shell == [] then build.settings.shell else step.shell
  }

  /**
   * The container of a step whose environment resolves: the build's places, the step's
   * environment with every bare name resolved against the process environment, the Docker socket
   * and the agent sockets as asked for. Only the intended behaviour passes the agent variables.
   */
  function StepContainer(v: Variant, build: Config.Build, step: Config.Step, procEnv: seq<string>): Container.Foreground
    requires Repos.AgentReadable(procEnv)
  {
    Container.Foreground(
      step.image, StepShell(build, step), step.commands, step.user,
      Environment.ResolveEach(step.environment, procEnv)
        + (if v == Intended && step.forwardSshAgent then Repos.AgentEntries(procEnv) else []),
      build.settings.workingDirectory, build.settings.networkName, build.settings.volumeName,
      (if step.mountDockerSock then [Steps.DockerSocketBind] else [])
        + (if step.forwardSshAgent then Repos.AgentMounts(procEnv) else []),
      step.overrideEntrypoint, [])
  }

  /** insulatr.go lines 363-459: one step. */
  function StepOne(v: Variant, build: Config.Build, flags: Flags, engine: Engine, procEnv: seq<string>, s: State, i: nat): State
    requires Repos.AgentReadable(procEnv) && i < |build.steps|
  {
    var step := build.steps[i];
    if step.name == "" then Abort(s, MissingStepName(i))
    else if step.image == "" then Abort(s, MissingStepImage(i))
    else if step.commands == [] then Abort(s, MissingCommands(step.name))
    else StepRun(v, build, flags, engine, procEnv, s, step)
  }

  /** insulatr.go lines 383-459: a step that names its image and commands. */
  function StepRun(v: Variant, build: Config.Build, flags: Flags, engine: Engine, procEnv: seq<string>, s: State, step: Config.Step): State
    requires Repos.AgentReadable(procEnv)
  {
    if v == Intended && step.mountDockerSock && !flags.allowDockerSock then Abort(s, DockerSockNotAllowed(step.name))
    else
      match Environment.LastUnresolved(step.environment, procEnv)
      case Some(name) => Abort(s, StepUnresolved(name))
      case None =>
        var req := StepContainer(v, build, step, procEnv);
        var s1 := s.(actions := s.actions + [Ran(req)]);
        if engine.run(req).Some? then Abort(s1, StepFailed(step.name, engine.run(req).value))
        else s1.(err := None)
  }

  function StepLoop(v: Variant, build: Config.Build, flags: Flags, engine: Engine, procEnv: seq<string>, s: State, i: nat): State
    requires Repos.AgentReadable(procEnv)
    decreases |build.steps| - i
  {
    if i >= |build.steps| || s.failed then s
    else StepLoop(v, build, flags, engine, procEnv, StepOne(v, build, flags, engine, procEnv, s, i), i + 1)
  }

  function RunSteps(v: Variant, build: Config.Build, flags: Flags, engine: Engine, procEnv: seq<string>, s: State): State
    requires Repos.AgentReadable(procEnv)
  {
    if s.failed || build.steps == [] then s else StepLoop(v, build, flags, engine, procEnv, s, 0)
  }

  method RunStep(build: Config.Build, flags: Flags, engine: Engine, procEnv: seq<string>, s: State, i: nat) returns (t: State)
    requires Repos.AgentReadable(procEnv) && i < |build.steps|
    requires Container.Reports(engine.run, engine.foreground)
    ensures t == StepOne(AsWritten, build, flags, engine, procEnv, s, i)
  {
    var step := build.steps[i];
    if step.name == "" {
      return s.(failed := true, err := Some(MissingStepName(i)));
    }
    if step.image == "" {
      return s.(failed := true, err := Some(MissingStepImage(i)));
    }
    if |step.commands| == 0 {
      return s.(failed := true, err := Some(MissingCommands(step.name)));
    }
    t := ExecuteStep(build, flags, engine, procEnv, s, step);
  }

  method ExecuteStep(build: Config.Build, flags: Flags, engine: Engine, procEnv: seq<string>, s: State, step: Config.Step)
    returns (t: State)
    requires Repos.AgentReadable(procEnv)
    requires Container.Reports(engine.run, engine.foreground)
    ensures t == StepRun(AsWritten, build, flags, engine, procEnv, s, step)
  {
    var resolved, unresolved := Environment.ResolveAll(step.environment, procEnv);
    if unresolved.Some? {
      return s.(failed := true, err := Some(StepUnresolved(unresolved.value)));
    }
    var req := StepRequest(build, step, procEnv, resolved);
    var failure := Container.RunForegroundError(req, engine.foreground, engine.run);
    t := s.(actions := s.actions + [Ran(req)], err := None);
    if failure.Some? {
      t := t.(failed := true, err := Some(StepFailed(step.name, failure.value)));
    }
  }

  /**
   * insulatr.go lines 383-385 and 407-453: the shell, the binds and the container. The agent
   * entries are collected into a list that is not passed on.
   */
  method StepRequest(build: Config.Build, step: Config.Step, procEnv: seq<string>, resolved: seq<string>)
    returns (req: Container.Foreground)
    requires Repos.AgentReadable(procEnv)
    requires resolved == Environment.ResolveEach(step.environment, procEnv)
    ensures req == StepContainer(AsWritten, build, step, procEnv)
  {
    var shell := step.shell;
    if |shell| == 0 {
      shell := build.settings.shell;
    }
    var environment: seq<string> := [];
    var binds := [];
    if step.mountDockerSock {
      binds := binds + [Container.Mount(Container.BindMount, "/var/run/docker.sock", "/var/run/docker.sock")];
    }
    if step.forwardSshAgent {
      var forwarded, agentBinds := Repos.ScanAgent(procEnv);
      environment := environment + forwarded;
      binds := binds + agentBinds;
    }
    req := Container.Foreground(step.image, shell, step.commands, step.user, resolved,
                                build.settings.workingDirectory, build.settings.networkName,
                                build.settings.volumeName, binds, step.overrideEntrypoint, []);
  }

  method RunAllSteps(build: Config.Build, flags: Flags, engine: Engine, procEnv: seq<string>, s: State) returns (t: State)
    requires Repos.AgentReadable(procEnv)
    requires Container.Reports(engine.run, engine.foreground)
    ensures t == RunSteps(AsWritten, build, flags, engine, procEnv, s)
  {
    t := s;
    if t.failed || |build.steps| == 0 {
      return;
    }
    var i := 0;
    while i < |build.steps|
      invariant i <= |build.steps| && !t.failed
      invariant StepLoop(AsWritten, build, flags, engine, procEnv, t, i) == StepLoop(AsWritten, build, flags, engine, procEnv, s, 0)
    {
      t := RunStep(build, flags, engine, procEnv, t, i);
      if t.failed {
        break;
      }
      i := i + 1;
    }
  }

  // ---------------------------------------------------------------- extraction

  /** insulatr.go lines 463-496. */
  function Extract(v: Variant, build: Config.Build, engine: Engine, s: State): State {
    if s.failed || build.files == [] then s
    else
      var req := Files.HelperRun(build.settings.workingDirectory, build.settings.volumeName, Files.ExtractList(build.files));
      var s1 := s.(actions := s.actions + [Ran(req)]);
      if engine.run(req).None? then s1 else Record(v, s1, ExtractionFailed(engine.run(req).value))
  }

  method ExtractFiles(build: Config.Build, engine: Engine, s: State) returns (t: State)
    requires Container.Reports(engine.run, engine.foreground)
    ensures t == Extract(AsWritten, build, engine, s)
  {
    t := s;
    if t.failed || |build.files| == 0 {
      return;
    }
    var selected := Files.SelectExtracted(build.files);
    var req := Container.Foreground("alpine", ["sh"], [], "", [], build.settings.workingDirectory, "",
                                    build.settings.volumeName, [], false, selected);
    var e := Container.RunForegroundError(req, engine.foreground, engine.run);
    t := t.(actions := t.actions + [Ran(req)]);
    if e.Some? {
      t := t.(failed := true);
    }
  }

  /** Everything between the creation of the volume and the teardown. */
  function Setup(v: Variant, build: Config.Build, flags: Flags, engine: Engine, procEnv: seq<string>, s: State): State
    requires Repos.AgentReadable(procEnv)
  {
    Extract(v, build, engine,
      RunSteps(v, build, flags, engine, procEnv,
        StartServices(v, build, flags, engine,
          Clone(v, build, engine, procEnv,
            Inject(v, build, engine,
              Network(v, build, flags, engine, s))))))
  }

  // ---------------------------------------------------------------- teardown

  predicate Distinct(order: seq<string>) {
    forall j, k :: 0 <= j < k < |order| ==> order[j] != order[k]
  }

  function Names(order: seq<string>): set<string> {
    set x | x in order
  }

  /** An order in which `range` may visit the keys: each exactly once. */
  predicate StopOrder(order: seq<string>, keys: set<string>) {
    Distinct(order) && Names(order) == keys
  }

  /** The logs of a service are drained unless the service it is looked up as suppresses them. */
  function WithWriter(build: Config.Build, name: string): bool {
    !Services.Selected(build.services, name).suppressLog
  }

  /** insulatr.go lines 501-518: one service. */
  function StopOne(v: Variant, build: Config.Build, engine: Engine, s: State, name: string): State
    requires name in s.services
  {
    var id := s.services[name];
    var withWriter := WithWriter(build, name);
    var s1 := s.(actions := s.actions + [Stopped(id, withWriter)], services := s.services - {name});
    match Container.StopError(id, withWriter, engine.stopper(id))
    case Some(e) => Record(v, s1, ServiceStopFailed(name, id, e))
    case None => s1
  }

  /** The services stopped in the order `order`. */
  function Stopping(v: Variant, build: Config.Build, engine: Engine, s: State, order: seq<string>): (r: State)
    requires Distinct(order) && Names(order) <= s.services.Keys
    ensures r.services == s.services - Names(order)
  {
    if order == [] then s
    else
      var init, last := order[..|order| - 1], order[|order| - 1];
      assert Names(order) == Names(init) + {last};
      StopOne(v, build, engine, Stopping(v, build, engine, s, init), last)
  }

  method StopServices(build: Config.Build, engine: Engine, s: State) returns (t: State, stopped: seq<string>)
    ensures StopOrder(stopped, s.services.Keys)
    ensures t == Stopping(AsWritten, build, engine, s, stopped)
  {
    t, stopped := s, [];
    while |t.services| > 0
      invariant Distinct(stopped) && Names(stopped) <= s.services.Keys
      invariant t == Stopping(AsWritten, build, engine, s, stopped)
      decreases |t.services|
    {
      var name :| name in t.services;
      StoppingNext(AsWritten, build, engine, s, stopped, name);
      t := StopService(build, engine, t, name);
      stopped := stopped + [name];
    }
    AllStopped(s.services, Names(stopped));
  }

  /** Stopping one more service. */
  lemma StoppingNext(v: Variant, build: Config.Build, engine: Engine, s: State, order: seq<string>, name: string)
    requires Distinct(order) && Names(order) <= s.services.Keys
    requires name in Stopping(v, build, engine, s, order).services
    ensures Distinct(order + [name]) && Names(order + [name]) <= s.services.Keys
    ensures Stopping(v, build, engine, s, order + [name]) == StopOne(v, build, engine, Stopping(v, build, engine, s, order), name)
    ensures |StopOne(v, build, engine, Stopping(v, build, engine, s, order), name).services| < |Stopping(v, build, engine, s, order).services|
  {
    OrderNext(order, name, s.services.Keys);
    assert (order + [name])[..|order|] == order;
    var t := Stopping(v, build, engine, s, order);
    Shrinks(t.services, name);
  }

  lemma OrderNext(order: seq<string>, name: string, keys: set<string>)
    requires Distinct(order) && Names(order) <= keys && name !in order && name in keys
    ensures Distinct(order + [name]) && Names(order + [name]) == Names(order) + {name} <= keys
  {
    assert Names(order + [name]) == Names(order) + {name};
  }

  lemma Shrinks(m: map<string, string>, name: string)
    requires name in m
    ensures |m - {name}| < |m|
  {
    assert (m - {name}).Keys == m.Keys - {name};
  }

  lemma AllStopped(m: map<string, string>, stopped: set<string>)
    requires |m - stopped| == 0
    ensures m.Keys <= stopped
  {
    assert m - stopped == map[];
    forall x | x in m.Keys
      ensures x in stopped
    {
      assert x !in m - stopped;
    }
  }

  /** insulatr.go lines 501-518. */
  method StopService(build: Config.Build, engine: Engine, s: State, name: string) returns (t: State)
    requires name in s.services
    ensures t == StopOne(AsWritten, build, engine, s, name)
  {
    var id := s.services[name];
    var service := Services.SelectService(build.services, name);
    var withWriter := true;
    if service.suppressLog {
      withWriter := false;
    }
    var calls, output, e := Container.StopAndRemove(id, withWriter, engine.stopper(id));
    t := s.(actions := s.actions + [Stopped(id, withWriter)]);
    if e.Some? {
      t := t.(failed := true);
    }
    t := t.(services := t.services - {name});
  }

  /** insulatr.go lines 523-541: the network, then the volume; a removal failure returns at once. */
  function Closing(build: Config.Build, flags: Flags, engine: Engine, t: State): Report {
    var a1 := t.actions + (if flags.reuseNetwork then [] else [RemovedNetwork(build.settings.networkName)]);
    if !flags.reuseNetwork && !engine.networkRemovedAfter then Report(Some(NetworkRemovalFailed), a1)
    else
      var a2 := a1 + (if flags.reuseVolume then [] else [RemovedVolume(build.settings.volumeName)]);
      if !flags.reuseVolume && !engine.volumeRemovedAfter then Report(Some(VolumeRemovalFailed), a2)
      else Report(t.err, a2)
  }

  method Close(build: Config.Build, flags: Flags, engine: Engine, t: State) returns (r: Report)
    ensures r == Closing(build, flags, engine, t)
  {
    var actions := t.actions;
    if !flags.reuseNetwork {
      actions := actions + [RemovedNetwork(build.settings.networkName)];
      if !engine.networkRemovedAfter {
        return Report(Some(NetworkRemovalFailed), actions);
      }
    }
    if !flags.reuseVolume {
      actions := actions + [RemovedVolume(build.settings.volumeName)];
      if !engine.volumeRemovedAfter {
        return Report(Some(VolumeRemovalFailed), actions);
      }
    }
    r := Report(t.err, actions);
  }

  // ---------------------------------------------------------------- the whole run

  /** The state after the setup stages, for a run whose opening succeeded. */
  function AfterSetup(v: Variant, build: Config.Build, flags: Flags, engine: Engine, procEnv: seq<string>): State
    requires Repos.AgentReadable(procEnv)
  {
    Setup(v, build, flags, engine, procEnv, Begin(Opening(build, flags, engine).actions))
  }

  /** What `run` returns and does, when the services are stopped in the order `stopped`. */
  function Outcome(v: Variant, build: Config.Build, flags: Flags, engine: Engine, procEnv: seq<string>, stopped: seq<string>): Report
    requires Repos.AgentReadable(procEnv)
    requires Opening(build, flags, engine).err.None? ==> StopOrder(stopped, AfterSetup(v, build, flags, engine, procEnv).services.Keys)
  {
    var o := Opening(build, flags, engine);
    if o.err.Some? then o
    else Closing(build, flags, engine, Stopping(v, build, engine, AfterSetup(v, build, flags, engine, procEnv), stopped))
  }

  /**
   * insulatr.go `run`. `procEnv` is the process environment; the services are stopped in an
   * order of the engine's choosing, which is returned as `stopped`.
   */
  method Run(build: Config.Build, flags: Flags, engine: Engine, procEnv: seq<string>)
    returns (report: Report, stopped: seq<string>)
    requires Repos.AgentReadable(procEnv)
    requires Container.Reports(engine.run, engine.foreground)
    ensures Opening(build, flags, engine).err.Some? ==> stopped == []
    ensures Opening(build, flags, engine).err.None? ==> StopOrder(stopped, AfterSetup(AsWritten, build, flags, engine, procEnv).services.Keys)
    ensures report == Outcome(AsWritten, build, flags, engine, procEnv, stopped)
  {
    var opening := Open(build, flags, engine);
    if opening.err.Some? {
      return opening, [];
    }
    var s := Begin(opening.actions);
    s := CreateNetwork(build, flags, engine, s);
    s := InjectFiles(build, engine, s);
    s := CloneRepositories(build, engine, procEnv, s);
    s := StartAllServices(build, flags, engine, s);
    s := RunAllSteps(build, flags, engine, procEnv, s);
    s := ExtractFiles(build, engine, s);
    var t;
    t, stopped := StopServices(build, engine, s);
    report := Close(build, flags, engine, t);
  }

  // ---------------------------------------------------------------- properties

  /**
   * With more than one repository, a repository without a directory of its own stops the run
   * before any call on the engine.
   */
  lemma DirectoryRequiredFirst(v: Variant, build: Config.Build, flags: Flags, engine: Engine, procEnv: seq<string>,
                               stopped: seq<string>, k: nat)
    requires Repos.AgentReadable(procEnv)
    requires |build.repositories| > 1 && k < |build.repositories| && !DirectorySet(build.repositories[k])
    ensures Outcome(v, build, flags, engine, procEnv, stopped) == Report(Some(DirectoryRequired), [])
  {
  }

  /** Once the build has failed, every setup stage is skipped. */
  lemma FailedSkipsSetup(v: Variant, build: Config.Build, flags: Flags, engine: Engine, procEnv: seq<string>, s: State)
    requires Repos.AgentReadable(procEnv) && s.failed
    ensures Setup(v, build, flags, engine, procEnv, s) == s
  {
  }

  /**
   * How the error relates to the failure: an error is only ever set together with the failure;
   * the code returns no error of the kinds it loses; the intended behaviour has an error exactly
   * when the build has failed.
   */
  predicate Consistent(v: Variant, s: State) {
    && (s.err.Some? ==> s.failed)
    && (v == AsWritten && s.err.Some? ==> !IntendedOnly(s.err.value))
    && (v == Intended ==> (s.failed <==> s.err.Some?))
  }

  lemma {:induction false} CloneLoopConsistent(v: Variant, build: Config.Build, engine: Engine, procEnv: seq<string>, s: State, i: nat)
    requires Repos.AgentReadable(procEnv) && Consistent(v, s)
    ensures Consistent(v, CloneLoop(v, build, engine, procEnv, s, i))
    decreases |build.repositories| - i
  {
    if i < |build.repositories| && !s.failed {
      CloneLoopConsistent(v, build, engine, procEnv, CloneOne(v, build, engine, procEnv, s, i), i + 1);
    }
  }

  lemma {:induction false} ServiceLoopConsistent(v: Variant, build: Config.Build, flags: Flags, engine: Engine, s: State, i: nat)
    requires Consistent(v, s)
    ensures Consistent(v, ServiceLoop(v, build, flags, engine, s, i))
    decreases |build.services| - i
  {
    if i < |build.services| && !s.failed {
      ServiceLoopConsistent(v, build, flags, engine, ServiceOne(v, build, flags, engine, s, i), i + 1);
    }
  }

  lemma {:induction false} StepLoopConsistent(v: Variant, build: Config.Build, flags: Flags, engine: Engine, procEnv: seq<string>, s: State, i: nat)
    requires Repos.AgentReadable(procEnv) && Consistent(v, s)
    ensures Consistent(v, StepLoop(v, build, flags, engine, procEnv, s, i))
    decreases |build.steps| - i
  {
    if i < |build.steps| && !s.failed {
      StepLoopConsistent(v, build, flags, engine, procEnv, StepOne(v, build, flags, engine, procEnv, s, i), i + 1);
    }
  }

  /** Every setup stage keeps the error consistent with the failure. */
  lemma SetupConsistent(v: Variant, build: Config.Build, flags: Flags, engine: Engine, procEnv: seq<string>, s: State)
    requires Repos.AgentReadable(procEnv) && Consistent(v, s)
    ensures Consistent(v, Setup(v, build, flags, engine, procEnv, s))
  {
    var s1 := Inject(v, build, engine, Network(v, build, flags, engine, s));
    CloneLoopConsistent(v, build, engine, procEnv, s1, 0);
    var s2 := Clone(v, build, engine, procEnv, s1);
    ServiceLoopConsistent(v, build, flags, engine, s2, 0);
    var s3 := StartServices(v, build, flags, engine, s2);
    StepLoopConsistent(v, build, flags, engine, procEnv, s3, 0);
  }

  /** So does the teardown. */
  lemma {:induction false} StoppingConsistent(v: Variant, build: Config.Build, engine: Engine, s: State, order: seq<string>)
    requires Distinct(order) && Names(order) <= s.services.Keys && Consistent(v, s)
    ensures Consistent(v, Stopping(v, build, engine, s, order))
    decreases |order|
  {
    if order != [] {
      var init := order[..|order| - 1];
      assert Names(order) == Names(init) + {order[|order| - 1]};
      StoppingConsistent(v, build, engine, s, init);
    }
  }

  /**
   * The intended behaviour returns an error exactly when the build failed or a resource could not
   * be removed; the code returns no error of the kinds it loses.
   */
  lemma OutcomeReportsFailure(v: Variant, build: Config.Build, flags: Flags, engine: Engine, procEnv: seq<string>, stopped: seq<string>)
    requires Repos.AgentReadable(procEnv)
    requires Opening(build, flags, engine).err.None?
    requires StopOrder(stopped, AfterSetup(v, build, flags, engine, procEnv).services.Keys)
    ensures var t := Stopping(v, build, engine, AfterSetup(v, build, flags, engine, procEnv), stopped);
      var removed := (flags.reuseNetwork || engine.networkRemovedAfter) && (flags.reuseVolume || engine.volumeRemovedAfter);
      && (v == Intended ==> (Outcome(v, build, flags, engine, procEnv, stopped).err.None? <==> !t.failed && removed))
      && (v == AsWritten && Outcome(v, build, flags, engine, procEnv, stopped).err.Some? ==>
            !IntendedOnly(Outcome(v, build, flags, engine, procEnv, stopped).err.value))
  {
    var s := AfterSetup(v, build, flags, engine, procEnv);
    SetupConsistent(v, build, flags, engine, procEnv, Begin(Opening(build, flags, engine).actions));
    StoppingConsistent(v, build, engine, s, stopped);
  }

  /**
   * A network that cannot be created fails the build, so that nothing else is set up; the code then
   * returns no error at all, the intended behaviour the network's.
   */
  lemma NetworkFailureIsSilent(build: Config.Build, flags: Flags, engine: Engine, procEnv: seq<string>)
    requires Repos.AgentReadable(procEnv)
    requires Opening(build, flags, engine).err.None? && !flags.reuseNetwork && !engine.networkCreated
    requires engine.networkRemovedAfter && engine.volumeRemovedAfter
    ensures AfterSetup(AsWritten, build, flags, engine, procEnv).failed
    ensures AfterSetup(AsWritten, build, flags, engine, procEnv).services == map[]
    ensures StopOrder([], AfterSetup(Intended, build, flags, engine, procEnv).services.Keys)
    ensures StopOrder([], AfterSetup(AsWritten, build, flags, engine, procEnv).services.Keys)
    ensures Outcome(AsWritten, build, flags, engine, procEnv, []).err == None
    ensures Outcome(Intended, build, flags, engine, procEnv, []).err == Some(NetworkCreationFailed)
  {
    var s := Begin(Opening(build, flags, engine).actions);
    FailedSkipsSetup(AsWritten, build, flags, engine, procEnv, Network(AsWritten, build, flags, engine, s));
    FailedSkipsSetup(Intended, build, flags, engine, procEnv, Network(Intended, build, flags, engine, s));
  }

  /** The calls the teardown makes: one stop per started service, in the given order. */
  function StopActions(build: Config.Build, services: map<string, string>, order: seq<string>): seq<Action>
    requires Names(order) <= services.Keys
  {
    seq(|order|, k requires 0 <= k < |order| => assert order[k] in Names(order); Stopped(services[order[k]], WithWriter(build, order[k])))
  }

  /**
   * The teardown stops every started service exactly once and leaves none; the calls it makes do
   * not depend on whether or how the build failed.
   */
  lemma {:induction false} TeardownStopsEachOnce(v: Variant, build: Config.Build, engine: Engine, s: State, order: seq<string>)
    requires StopOrder(order, s.services.Keys)
    ensures Stopping(v, build, engine, s, order).services == map[]
    ensures Stopping(v, build, engine, s, order).actions == s.actions + StopActions(build, s.services, order)
  {
    StopsInOrder(v, build, engine, s, order);
    assert s.services - Names(order) == map[];
  }

  lemma {:induction false} StopsInOrder(v: Variant, build: Config.Build, engine: Engine, s: State, order: seq<string>)
    requires Distinct(order) && Names(order) <= s.services.Keys
    ensures Stopping(v, build, engine, s, order).actions == s.actions + StopActions(build, s.services, order)
    decreases |order|
  {
    if order == [] {
      assert s.actions + [] == s.actions;
    } else {
      var init, last := order[..|order| - 1], order[|order| - 1];
      assert Names(order) == Names(init) + {last};
      assert last !in Names(init);
      StopsInOrder(v, build, engine, s, init);
      var t := Stopping(v, build, engine, s, init);
      StopOneRecords(v, build, engine, t, last);
      StopActionsSnoc(build, s.services, order);
    }
  }

  /** Stopping one service records one stop, with the service's container. */
  lemma StopOneRecords(v: Variant, build: Config.Build, engine: Engine, t: State, name: string)
    requires name in t.services
    ensures StopOne(v, build, engine, t, name).actions == t.actions + [Stopped(t.services[name], WithWriter(build, name))]
  {
  }

  lemma StopActionsSnoc(build: Config.Build, services: map<string, string>, order: seq<string>)
    requires order != [] && Names(order) <= services.Keys
    ensures Names(order[..|order| - 1]) <= services.Keys
    ensures var last := order[|order| - 1];
      StopActions(build, services, order) == StopActions(build, services, order[..|order| - 1]) + [Stopped(services[last], WithWriter(build, last))]
  {
    var init := order[..|order| - 1];
    assert Names(order) == Names(init) + {order[|order| - 1]};
  }

  /** A network that cannot be removed ends the run: the volume is left in place. */
  lemma ClosingOrder(build: Config.Build, flags: Flags, engine: Engine, t: State)
    ensures var r, networkGone := Closing(build, flags, engine, t), flags.reuseNetwork || engine.networkRemovedAfter;
      && (!networkGone ==> r == Report(Some(NetworkRemovalFailed), t.actions + [RemovedNetwork(build.settings.networkName)]))
      && (networkGone && !flags.reuseVolume && !engine.volumeRemovedAfter ==> r.err == Some(VolumeRemovalFailed))
      && (networkGone && (flags.reuseVolume || engine.volumeRemovedAfter) ==> r.err == t.err)
      && |r.actions| >= |t.actions| && r.actions[..|t.actions|] == t.actions
      && (RemovedNetwork(build.settings.networkName) in r.actions[|t.actions|..] <==> !flags.reuseNetwork)
      && (RemovedVolume(build.settings.volumeName) in r.actions[|t.actions|..] <==> !flags.reuseVolume && networkGone)
  {
    var r := Closing(build, flags, engine, t);
    var network := if flags.reuseNetwork then [] else [RemovedNetwork(build.settings.networkName)];
    var volume := if flags.reuseVolume || !(flags.reuseNetwork || engine.networkRemovedAfter) then [] else [RemovedVolume(build.settings.volumeName)];
    assert r.actions == t.actions + network + volume;
    assert r.actions[|t.actions|..] == network + volume;
  }

  /** Every entry names a file to inject, so the helper container gets all of them. */
  lemma {:induction false} InjectListAll(files: seq<Config.File>)
    requires forall k :: 0 <= k < |files| ==> files[k].inject != ""
    ensures Files.InjectList(files) == files
  {
    if files != [] {
      InjectListAll(files[..|files| - 1]);
      assert files[..|files| - 1] + [files[|files| - 1]] == files;
    }
  }

  /**
   * Injection demands a file to inject in every entry: an entry that only extracts fails the
   * build with the index of the last such entry, before any container runs; otherwise the helper
   * container gets every entry.
   */
  lemma InjectionDemandsNames(v: Variant, build: Config.Build, engine: Engine, s: State)
    requires !s.failed && build.files != []
    ensures var t := Inject(v, build, engine, s);
      && ((exists k :: 0 <= k < |build.files| && build.files[k].inject == "") ==>
            t.actions == s.actions && t.failed && t.err.Some? && t.err.value.MissingInjectName?
            && build.files[t.err.value.index].inject == ""
            && (forall j :: t.err.value.index < j < |build.files| ==> build.files[j].inject != ""))
      && ((forall k :: 0 <= k < |build.files| ==> build.files[k].inject != "") ==>
            t.actions == s.actions + [Ran(Files.HelperRun(build.settings.workingDirectory, build.settings.volumeName, build.files))])
  {
    var t := Inject(v, build, engine, s);
    var r := LastEmptyInject(build.files);
    if r.None? {
      InjectListAll(build.files);
    } else {
      LastEmptyInjectIsLast(build.files);
      assert t == s.(failed := true, err := Some(MissingInjectName(r.value)));
    }
  }

  lemma {:induction false} LastEmptyInjectIsLast(files: seq<Config.File>)
    requires LastEmptyInject(files).Some?
    ensures forall j :: LastEmptyInject(files).value < j < |files| ==> files[j].inject != ""
  {
    if files[|files| - 1].inject != "" {
      LastEmptyInjectIsLast(files[..|files| - 1]);
    }
  }

  /**
   * The pipeline clones with the same containers as `cloneRepo` when the process environment
   * names the agent socket at most once; otherwise only the first such entry is forwarded.
   */
  lemma InlineCloneMatchesCloneRepo(build: Config.Build, procEnv: seq<string>, i: nat)
    requires Repos.AgentReadable(procEnv) && i < |build.repositories|
    requires |Repos.AgentEntries(procEnv)| <= 1
    ensures CloneOrder(build, procEnv, i) == Repos.ClonePlan(build.repositories[i], build.settings.workingDirectory, build.settings.volumeName, procEnv)
  {
    FirstAgentIsFirstForwarded(procEnv);
    FirstAgentMountIsFirstMount(procEnv);
    var e, m := Repos.AgentEntries(procEnv), Repos.AgentMounts(procEnv);
    assert e[..|e|] == e && m[..|m|] == m;
  }

  /**
   * A step's container, as the code builds it: the step's image, commands and user, its shell or
   * else the build's, the build's places, and its own environment with every name resolved against
   * the process environment. The agent variables themselves are not passed.
   */
  lemma StepContainerShape(build: Config.Build, step: Config.Step, procEnv: seq<string>)
    requires Repos.AgentReadable(procEnv)
    requires Environment.LastUnresolved(step.environment, procEnv).None?
    ensures var req := StepContainer(AsWritten, build, step, procEnv);
      && req.image == step.image && req.commands == step.commands && req.user == step.user
      && (req.shell == if step.shell == [] then build.settings.shell else step.shell)
      && req.dir == build.settings.workingDirectory && req.network == build.settings.networkName
      && req.volume == build.settings.volumeName && req.files == []
      && |req.environment| == |step.environment|
      && (forall k :: 0 <= k < |step.environment| ==> Environment.Resolve(step.environment[k], procEnv) == Some(req.environment[k]))
  {
  }

  /**
   * A step's binds: the Docker socket first if asked for, then, if the agent is forwarded, one bind
   * per agent entry of the process environment, mounting that entry's socket.
   */
  lemma StepBindsShape(v: Variant, build: Config.Build, step: Config.Step, procEnv: seq<string>)
    requires Repos.AgentReadable(procEnv)
    ensures var req, o := StepContainer(v, build, step, procEnv), if step.mountDockerSock then 1 else 0;
      && |req.binds| == o + (if step.forwardSshAgent then |Repos.AgentEntries(procEnv)| else 0)
      && (step.mountDockerSock ==> req.binds[0] == Steps.DockerSocketBind)
      && (step.forwardSshAgent ==> forall k :: 0 <= k < |Repos.AgentEntries(procEnv)| ==>
            '=' in Repos.AgentEntries(procEnv)[k] && req.binds[o + k] == Repos.AgentBind(Repos.AgentEntries(procEnv)[k]))
  {
    Repos.NamedMountsMatch(procEnv, Environment.AgentVariable);
  }

  /** A process environment of one entry `name=path` names one socket, `path`. */
  lemma SingleEntry(name: string, path: string)
    requires '=' !in name && '=' !in path
    ensures var e := name + "=" + path;
      && Repos.Readable([e], name) && Repos.Named([e], name) == [e]
      && Repos.NamedMounts([e], name) == [Container.Mount(Container.BindMount, path, path)]
  {
    var e := name + "=" + path;
    PairFields(name, path);
    assert [e][..0] == [];
    assert Repos.Named([e], name) == Repos.Named([], name) + [e];
    assert Repos.NamedMounts([e], name) == Repos.NamedMounts([], name) + [Repos.AgentBind(e)];
  }

  /** The entry `name=path` splits into its name and its path. */
  lemma PairFields(name: string, path: string)
    requires '=' !in name && '=' !in path
    ensures var e := name + "=" + path;
      '=' in e && Key(e) == name && SecondField(e) == path
  {
    var e := name + "=" + path;
    assert Join([name, path], "=") == e;
    SplitJoin([name, path], '=');
    assert e[|name|] == '=';
  }

  /**
   * As written, a step that forwards the agent gets the agent's socket mounted but not the
   * variable that names it: here the process environment names the socket `/agent`, the step
   * defines no variables, and its container gets the bind and an empty environment.
   */
  lemma AgentVariableDropped(build: Config.Build, step: Config.Step)
    requires step.forwardSshAgent && step.environment == []
    ensures var procEnv := [Environment.AgentVariable + "=" + "/agent"];
      && Repos.AgentReadable(procEnv)
      && Repos.AgentEntries(procEnv) == procEnv
      && StepContainer(AsWritten, build, step, procEnv).environment == []
      && Container.Mount(Container.BindMount, "/agent", "/agent") in StepContainer(AsWritten, build, step, procEnv).binds
  {
    SingleEntry(Environment.AgentVariable, "/agent");
  }

  /**
   * The intended step container gets, after its own resolved environment, every agent entry of the
   * process environment, each with the bind of its socket.
   */
  lemma AgentVariableForwarded(build: Config.Build, step: Config.Step, procEnv: seq<string>)
    requires Repos.AgentReadable(procEnv) && step.forwardSshAgent
    ensures var req, n := StepContainer(Intended, build, step, procEnv), |step.environment|;
      && req.environment[n..] == Repos.AgentEntries(procEnv)
      && (forall e :: e in procEnv && Key(e) == Environment.AgentVariable ==> e in req.environment)
      && (forall k :: 0 <= k < |Repos.AgentEntries(procEnv)| ==>
            '=' in Repos.AgentEntries(procEnv)[k] && Repos.AgentBind(Repos.AgentEntries(procEnv)[k]) in req.binds)
  {
    var req := StepContainer(Intended, build, step, procEnv);
    var entries := Repos.AgentEntries(procEnv);
    Repos.NamedMountsMatch(procEnv, Environment.AgentVariable);
    forall e | e in procEnv && Key(e) == Environment.AgentVariable
      ensures e in req.environment
    {
      Repos.NamedExactly(procEnv, Environment.AgentVariable, e);
    }
    forall k | 0 <= k < |entries|
      ensures '=' in entries[k] && Repos.AgentBind(entries[k]) in req.binds
    {
      var offset := if step.mountDockerSock then 1 else 0;
      assert req.binds[offset + k] == Repos.AgentMounts(procEnv)[k];
    }
  }

  /**
   * As written, the allow-flags are not consulted: a step that asks for the Docker socket gets it,
   * whatever the flags say, once its name, image, commands and environment are in order.
   */
  lemma SocketMountedUnchecked(build: Config.Build, flags: Flags, engine: Engine, procEnv: seq<string>, s: State, i: nat)
    requires Repos.AgentReadable(procEnv) && i < |build.steps|
    requires var step := build.steps[i];
      step.name != "" && step.image != "" && step.commands != [] && step.mountDockerSock
      && Environment.LastUnresolved(step.environment, procEnv).None?
    ensures var t := StepOne(AsWritten, build, flags, engine, procEnv, s, i);
      && |t.actions| == |s.actions| + 1 && t.actions[|s.actions|].Ran?
      && t.actions[|s.actions|].request.binds[0] == Steps.DockerSocketBind
  {
  }

  /**
   * The intended behaviour runs a step with the Docker socket and starts a privileged service only
   * when the flags allow it, and otherwise fails the build with the name of the step or service.
   */
  lemma IntendedGating(build: Config.Build, flags: Flags, engine: Engine, procEnv: seq<string>, s: State, i: nat, j: nat)
    requires Repos.AgentReadable(procEnv) && i < |build.steps| && j < |build.services|
    ensures var step, t := build.steps[i], StepOne(Intended, build, flags, engine, procEnv, s, i);
      (t.actions != s.actions && step.mountDockerSock ==> flags.allowDockerSock)
      && (step.name != "" && step.image != "" && step.commands != [] && step.mountDockerSock && !flags.allowDockerSock ==>
            t == Abort(s, DockerSockNotAllowed(step.name)))
    ensures var service, t := build.services[j], ServiceOne(Intended, build, flags, engine, s, j);
      (t.actions != s.actions && service.privileged ==> flags.allowPrivileged)
      && (service.name != "" && service.image != "" && service.privileged && !flags.allowPrivileged ==>
            t == Abort(s, PrivilegedNotAllowed(service.name)))
  {
  }
}
