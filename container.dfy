/**
 * Running containers (docker_container.go): a foreground container that runs a list of commands
 * through a shell and is removed afterwards, a background container for a service, and stopping
 * and removing such a service. The engine's answers to each call are given as a `Daemon` value.
 */
module Container {
  import opened Wrappers
  import opened Text
  import Config
  import Transfer
  import Demux

  datatype MountKind = VolumeMount | BindMount

  /** `mount.Mount`: what is mounted where. */
  datatype Mount = Mount(kind: MountKind, source: string, target: string)

  /**
   * Everything a `ContainerCreate` call receives: the container configuration (`interactive`
   * stands for AttachStdin, OpenStdin and StdinOnce together), the host configuration, the
   * networks to join and the container name.
   */
  datatype CreateRequest = CreateRequest(
    image: string, interactive: bool, workingDir: string, env: seq<string>,
    entrypoint: seq<string>, cmd: seq<string>, user: string,
    mounts: seq<Mount>, privileged: bool, networks: set<string>, name: string)

  /** The engine calls a run makes. `Pull` includes reading the pull messages to their end. */
  datatype Stage = Pull | Create | Inject | Attach | Start | Send | CloseWrite | Logs | Wait | Extract | Remove | Stop

  datatype ContainerError =
    | PullFailed(image: string)
    | PullMessagesFailed(image: string)
    | CreateFailed
    | InjectFailed(cause: Transfer.CopyError)
    | AttachFailed
    | StartFailed
    | SendFailed
    | LogsFailed
    | WaitFailed
    | TimedOut
    | NonZeroExit(code: int)
    | ExtractFailed(cause: Transfer.CopyError)
    | RemoveFailed(image: string)
    | StopFailed
    | ReadHeaderFailed
    | RemoveContainerFailed(id: string)

  /** The networks a container joins: the named one, or none when the name is empty. */
  function Endpoints(network: string): (s: set<string>)
    ensures network in s <==> network != ""
    ensures forall n :: n in s ==> n == network
  {
    if |network| > 0 then {network} else {}
  }

  // ---------------------------------------------------------------- foreground

  /** The arguments of `runForegroundContainer` (the log writer is the `output` of the run). */
  datatype Foreground = Foreground(
    image: string, shell: seq<string>, commands: seq<string>, user: string, environment: seq<string>,
    dir: string, network: string, volume: string, binds: seq<Mount>, overrideEntrypoint: bool,
    files: seq<Config.File>)

  function ForegroundConfig(req: Foreground): CreateRequest {
    CreateRequest(
      req.image, true, req.dir, req.environment,
      if req.overrideEntrypoint then req.shell else [],
      if req.overrideEntrypoint then [] else req.shell,
      req.user,
      [Mount(VolumeMount, req.volume, req.dir)] + req.binds,
      false, Endpoints(req.network), "")
  }

  /** docker_container.go lines 37-66: the configuration of a foreground container. */
  method CreateConfig(req: Foreground) returns (config: CreateRequest)
    ensures config == ForegroundConfig(req)
  {
    var entrypoint, cmd := [], [];
    if req.overrideEntrypoint {
      entrypoint := req.shell;
    } else {
      cmd := req.shell;
    }
    var user := "";
    if |req.user| > 0 {
      user := req.user;
    }
    var mounts := [Mount(VolumeMount, req.volume, req.dir)];
    for i := 0 to |req.binds|
      invariant mounts == [Mount(VolumeMount, req.volume, req.dir)] + req.binds[..i]
    {
      assert req.binds[..i + 1] == req.binds[..i] + [req.binds[i]];
      mounts := mounts + [req.binds[i]];
    }
    assert req.binds[..|req.binds|] == req.binds;
    var endpoints: set<string> := {};
    if |req.network| > 0 {
      endpoints := endpoints + {req.network};
    }
    config := CreateRequest(req.image, true, req.dir, req.environment, entrypoint, cmd, user, mounts, false, endpoints, "");
  }

  /**
   * The build volume is always the first mount, at the working directory, followed by the binds
   * in order; the shell is either the entrypoint or the command, never both.
   */
  lemma ForegroundConfigShape(req: Foreground)
    ensures var c := ForegroundConfig(req);
      && c.mounts[0] == Mount(VolumeMount, req.volume, req.dir) && c.mounts[1..] == req.binds
      && c.workingDir == req.dir && c.interactive && !c.privileged
      && (req.overrideEntrypoint ==> c.entrypoint == req.shell && c.cmd == [])
      && (!req.overrideEntrypoint ==> c.cmd == req.shell && c.entrypoint == [])
      && |c.networks| <= 1
  {
    var c := ForegroundConfig(req);
    if req.network != "" {
      assert c.networks == {req.network};
    } else {
      assert c.networks == {};
    }
  }

  /** How waiting for the container ended: the context's deadline, the error channel, or an exit status. */
  datatype WaitOutcome = Deadline | WaitChannel(failed: bool) | Exited(code: int)

  /** The engine's answers to the calls of one foreground run. */
  datatype Daemon = Daemon(
    pullOk: bool, pullMessagesOk: bool, create: Option<string>, attachOk: bool, startOk: bool,
    sendOk: bool, logs: Option<Demux.Stream>, wait: WaitOutcome, removeOk: bool, world: Transfer.World)

  /** What a foreground run did, and what it returned. */
  datatype ForegroundRun = ForegroundRun(
    calls: seq<Stage>, config: Option<CreateRequest>, uploads: seq<Transfer.Upload>, stdin: Option<string>,
    output: seq<Demux.byte>, downloads: seq<Transfer.Download>, warning: Option<ContainerError>,
    err: Option<ContainerError>)

  /** The results of the parts of a run that have their own definitions: the two file transfers and the log reader. */
  datatype Transfers = Transfers(injection: Transfer.Attempt, extraction: Transfer.Retrieval, output: seq<Demux.byte>)

  function Inj(req: Foreground, d: Daemon): Transfer.Attempt { Transfer.Injection(req.files, req.dir, d.world) }
  function Ext(req: Foreground, d: Daemon): Transfer.Retrieval { Transfer.Extraction(req.files, req.dir, d.world) }
  function Out(d: Daemon): seq<Demux.byte> { if d.logs.Some? then Demux.Demultiplex(d.logs.value).output else [] }
  function TransfersOf(req: Foreground, d: Daemon): Transfers {
    Transfers(Inj(req, d), Ext(req, d), Out(d))
  }

  /**
   * How a run ended before removal. A `Masked` failure marks the run failed, but its error is
   * assigned to a variable local to its block, so as written it is not returned.
   */
  datatype Failure = NoFailure | Reported(e: ContainerError) | Masked(e: ContainerError)

  /** Removing the container; a removal error is printed when the run already failed, returned otherwise. */
  function Finish(req: Foreground, d: Daemon, r: ForegroundRun, f: Failure, asWritten: bool): ForegroundRun {
    var removeErr := if d.removeOk then None else Some(RemoveFailed(req.image));
    r.(calls := r.calls + [Remove],
       warning := if f.NoFailure? then None else removeErr,
       err := match f
              case NoFailure => removeErr
              case Reported(e) => Some(e)
              case Masked(e) => if asWritten then None else Some(e))
  }

  function AfterWait(req: Foreground, d: Daemon, t: Transfers, r: ForegroundRun, asWritten: bool): ForegroundRun {
    var ex := t.extraction;
    var r1 := r.(calls := r.calls + [Extract], downloads := ex.downloads);
    Finish(req, d, r1, if ex.err.Some? then Reported(ExtractFailed(ex.err.value)) else NoFailure, asWritten)
  }

  /** Logs, wait and extraction, once the commands were delivered. */
  function AfterSend(req: Foreground, d: Daemon, t: Transfers, r1: ForegroundRun, asWritten: bool): ForegroundRun {
    var r2 := r1.(calls := r1.calls + [Logs]);
    match d.logs
    case None => Finish(req, d, r2, Masked(LogsFailed), asWritten)
    case Some(_) =>
      var r3 := r2.(calls := r2.calls + [Wait], output := t.output);
      match d.wait
      case Deadline => Finish(req, d, r3, Reported(TimedOut), asWritten)
      case WaitChannel(failed) => if failed then Finish(req, d, r3, Masked(WaitFailed), asWritten) else AfterWait(req, d, t, r3, asWritten)
      case Exited(code) => if code > 0 then Finish(req, d, r3, Reported(NonZeroExit(code)), asWritten) else AfterWait(req, d, t, r3, asWritten)
  }

  /** The first failure among the stages that deliver the commands, or `NoFailure`. */
  function DeliveryFailure(d: Daemon, t: Transfers): Failure {
    if t.injection.err.Some? then Reported(InjectFailed(t.injection.err.value))
    else if !d.attachOk then Reported(AttachFailed)
    else if !d.startOk then Reported(StartFailed)
    else if !d.sendOk then Reported(SendFailed)
    else NoFailure
  }

  /** The commands are sent once the files are in and the container is attached and started. */
  predicate Sent(d: Daemon, t: Transfers) {
    t.injection.err.None? && d.attachOk && d.startOk
  }

  /** The calls that deliver the commands, up to the first that fails. */
  function DeliveryCalls(d: Daemon, t: Transfers): seq<Stage> {
    if t.injection.err.Some? then [Inject]
    else if !d.attachOk then [Inject, Attach]
    else if !d.startOk then [Inject, Attach, Start]
    else [Inject, Attach, Start, Send, CloseWrite]
  }

  function AfterCreate(req: Foreground, d: Daemon, t: Transfers, asWritten: bool): ForegroundRun {
    var r1 := ForegroundRun([Pull, Create] + DeliveryCalls(d, t), Some(ForegroundConfig(req)), t.injection.uploads,
                            if Sent(d, t) then Some(Join(req.commands, "\n")) else None, [], [], None, None);
    var f := DeliveryFailure(d, t);
    if !f.NoFailure? then Finish(req, d, r1, f, asWritten) else AfterSend(req, d, t, r1, asWritten)
  }

  /**
   * A foreground run, stage by stage. With `asWritten` the two failures whose errors are
   * assigned to block-local variables (connecting to the logs, the wait error channel) are not
   * returned; without it they are.
   */
  function Outcome(req: Foreground, d: Daemon, t: Transfers, asWritten: bool): ForegroundRun {
    if !d.pullOk then ForegroundRun([Pull], None, [], None, [], [], None, Some(PullFailed(req.image)))
    else if !d.pullMessagesOk then ForegroundRun([Pull], None, [], None, [], [], None, Some(PullMessagesFailed(req.image)))
    else if d.create.None? then ForegroundRun([Pull, Create], Some(ForegroundConfig(req)), [], None, [], [], None, Some(CreateFailed))
    else AfterCreate(req, d, t, asWritten)
  }

  /** docker_container.go lines 83-120: inject the files, attach, start, send the commands and half-close standard input. */
  method Deliver(req: Foreground, d: Daemon, calls0: seq<Stage>)
    returns (calls: seq<Stage>, uploads: seq<Transfer.Upload>, stdin: Option<string>, failed: bool, err: Option<ContainerError>)
    ensures var t := TransfersOf(req, d);
      && calls == calls0 + DeliveryCalls(d, t)
      && uploads == t.injection.uploads
      && stdin == (if Sent(d, t) then Some(Join(req.commands, "\n")) else None)
      && (failed <==> !DeliveryFailure(d, t).NoFailure?)
      && err == (if failed then Some(DeliveryFailure(d, t).e) else None)
  {
    ghost var t := TransfersOf(req, d);
    failed, err, stdin := false, None, None;
    calls := calls0 + [Inject];
    var injectErr;
    uploads, injectErr := Transfer.CopyFilesToContainer(req.files, req.dir, d.world);
    assert t.injection == Transfer.Attempt(uploads, injectErr);
    if injectErr.Some? {
      err := Some(InjectFailed(injectErr.value));
      failed := true;
    }
    assert !failed ==> calls == calls0 + [Inject];
    if !failed {
      calls := calls + [Attach];
      if !d.attachOk {
        err := Some(AttachFailed);
        failed := true;
      }
    }
    assert !failed ==> calls == calls0 + [Inject, Attach];
    if !failed {
      calls := calls + [Start];
      if !d.startOk {
        err := Some(StartFailed);
        failed := true;
      }
    }
    assert failed ==> calls == calls0 + DeliveryCalls(d, t) && err == Some(DeliveryFailure(d, t).e);
    assert !failed ==> calls == calls0 + [Inject, Attach, Start] && Sent(d, t);
    if !failed {
      // The write side is half-closed right after the copy, whether or not it failed.
      calls := calls + [Send, CloseWrite];
      stdin := Some(Join(req.commands, "\n"));
      if !d.sendOk {
        err := Some(SendFailed);
        failed := true;
      }
    }
  }

  /** The error `runForegroundContainer` returns. */
  function ForegroundError(req: Foreground, d: Daemon): Option<ContainerError> {
    Outcome(req, d, TransfersOf(req, d), true).err
  }

  /** docker_container.go `runForegroundContainer`. */
  method RunForeground(req: Foreground, d: Daemon) returns (r: ForegroundRun)
    ensures r == Outcome(req, d, TransfersOf(req, d), true)
    ensures r.err == ForegroundError(req, d)
  {
    ghost var t := TransfersOf(req, d);
    var failed := false;
    var err: Option<ContainerError> := None;
    var calls := [Pull];
    if !d.pullOk {
      return ForegroundRun(calls, None, [], None, [], [], None, Some(PullFailed(req.image)));
    }
    if !d.pullMessagesOk {
      return ForegroundRun(calls, None, [], None, [], [], None, Some(PullMessagesFailed(req.image)));
    }
    var config := CreateConfig(req);
    calls := calls + [Create];
    if d.create.None? {
      return ForegroundRun(calls, Some(config), [], None, [], [], None, Some(CreateFailed));
    }

    var uploads, stdin;
    calls, uploads, stdin, failed, err := Deliver(req, d, calls);
    var delivered := ForegroundRun(calls, Some(config), uploads, stdin, [], [], None, err);
    assert [Pull] + [Create] + DeliveryCalls(d, t) == [Pull, Create] + DeliveryCalls(d, t);
    assert delivered.(err := None) == ForegroundRun([Pull, Create] + DeliveryCalls(d, t), Some(ForegroundConfig(req)), t.injection.uploads,
                                                    if Sent(d, t) then Some(Join(req.commands, "\n")) else None, [], [], None, None);
    r := Conclude(req, d, delivered, failed);
  }

  /** What `runForegroundContainer` returns, request by request. */
  type Verdicts = Foreground -> Option<ContainerError>

  /** `run` gives, for every request, the error a run returns against the engine's answers `engine`. */
  ghost predicate Reports(run: Verdicts, engine: Foreground -> Daemon) {
    forall req {:trigger engine(req)} :: run(req) == ForegroundError(req, engine(req))
  }

  /**
   * A run of which the caller only looks at the returned error: against the engine's answers
   * `engine(req)`, it is the error `run` gives for the request.
   */
  method RunForegroundError(req: Foreground, engine: Foreground -> Daemon, run: Verdicts) returns (err: Option<ContainerError>)
    requires Reports(run, engine)
    ensures err == run(req)
  {
    var r := RunForeground(req, engine(req));
    err := r.err;
  }

  /** docker_container.go lines 122-197: read the logs, wait, check the status, extract and remove. */
  method Conclude(req: Foreground, d: Daemon, r1: ForegroundRun, failed0: bool) returns (r: ForegroundRun)
    requires failed0 <==> r1.err.Some?
    requires r1.output == [] && r1.downloads == [] && r1.warning == None
    ensures failed0 ==> r == Finish(req, d, r1.(err := None), Reported(r1.err.value), true)
    ensures !failed0 ==> r == AfterSend(req, d, TransfersOf(req, d), r1, true)
  {
    ghost var t := TransfersOf(req, d);
    var failed, err, calls := failed0, r1.err, r1.calls;
    var output: seq<Demux.byte> := [];
    if !failed {
      calls := calls + [Logs];
      if d.logs.None? {
        // the error goes to a variable declared in this block
        failed := true;
      } else {
        var end;
        output, end := Demux.Demux(d.logs.value);
        assert output == t.output;
      }
    }
    var status := 0;
    if !failed {
      calls := calls + [Wait];
      match d.wait
      case Deadline =>
        err := Some(TimedOut);
        failed := true;
      case WaitChannel(e) =>
        // the error goes to a variable declared in this case
        if e {
          failed := true;
        }
      case Exited(code) =>
        status := code;
    }
    if status > 0 {
      err := Some(NonZeroExit(status));
      failed := true;
    }
    var downloads: seq<Transfer.Download> := [];
    if !failed {
      calls := calls + [Extract];
      var extractErr;
      downloads, extractErr := Transfer.CopyFilesFromContainer(req.files, req.dir, d.world);
      assert t.extraction == Transfer.Retrieval(downloads, extractErr);
      if extractErr.Some? {
        err := Some(ExtractFailed(extractErr.value));
        failed := true;
      }
    }
    calls := calls + [Remove];
    var warning: Option<ContainerError> := None;
    if !d.removeOk {
      if failed {
        warning := Some(RemoveFailed(req.image));
      } else {
        err := Some(RemoveFailed(req.image));
      }
    }
    r := r1.(calls := calls, output := output, downloads := downloads, warning := warning, err := err);
  }

  /** The order of the calls of a foreground run that gets to remove its container. */
  const Pipeline: seq<Stage> := [Pull, Create, Inject, Attach, Start, Send, CloseWrite, Logs, Wait, Extract]

  /** The calls after the commands were sent: up to the stage that failed, then removal. */
  lemma AfterSendCalls(req: Foreground, d: Daemon, t: Transfers, r1: ForegroundRun, asWritten: bool)
    ensures AfterSend(req, d, t, r1, asWritten).calls ==
      r1.calls + (if d.logs.None? then [Logs] else if !CleanExit(d.wait) then [Logs, Wait] else [Logs, Wait, Extract]) + [Remove]
  {
  }

  /** What the stages after sending keep and what they add. */
  lemma AfterSendFields(req: Foreground, d: Daemon, t: Transfers, r1: ForegroundRun, asWritten: bool)
    ensures var r := AfterSend(req, d, t, r1, asWritten);
      && r.uploads == r1.uploads && r.stdin == r1.stdin && r.config == r1.config
      && r.output == (if d.logs.Some? then t.output else r1.output)
      && r.downloads == (if d.logs.Some? && CleanExit(d.wait) then t.extraction.downloads else r1.downloads)
  {
  }

  /** How many stages of `Pipeline` a created container goes through before it is removed. */
  function StagesRun(d: Daemon, t: Transfers): nat {
    if !DeliveryFailure(d, t).NoFailure? then 2 + |DeliveryCalls(d, t)|
    else if d.logs.None? then 8
    else if !CleanExit(d.wait) then 9
    else 10
  }

  /** The calls made once the container exists: the stages up to the one that failed, then removal. */
  lemma CreatedCalls(req: Foreground, d: Daemon, t: Transfers, asWritten: bool)
    requires d.pullOk && d.pullMessagesOk && d.create.Some?
    ensures 3 <= StagesRun(d, t) <= |Pipeline|
    ensures Outcome(req, d, t, asWritten).calls == Pipeline[..StagesRun(d, t)] + [Remove]
  {
    var pre := [Pull, Create] + DeliveryCalls(d, t);
    assert pre == Pipeline[..|pre|];
    var r1 := ForegroundRun(pre, Some(ForegroundConfig(req)), t.injection.uploads,
                            if Sent(d, t) then Some(Join(req.commands, "\n")) else None, [], [], None, None);
    if DeliveryFailure(d, t).NoFailure? {
      AfterSendCalls(req, d, t, r1, asWritten);
      assert pre == Pipeline[..7];
    }
  }

  /**
   * A created container is always removed, as the last call; the calls before it are the stages
   * in order up to the one that failed. Without a container nothing is removed.
   */
  lemma RemovedOnceCreated(req: Foreground, d: Daemon, t: Transfers, asWritten: bool)
    ensures var r := Outcome(req, d, t, asWritten);
      && (d.pullOk && d.pullMessagesOk && d.create.Some? <==> Remove in r.calls)
      && (Remove in r.calls ==> 3 <= StagesRun(d, t) <= |Pipeline| && r.calls == Pipeline[..StagesRun(d, t)] + [Remove])
      && (Remove !in r.calls ==> r.calls == Pipeline[..if d.pullOk && d.pullMessagesOk then 2 else 1])
  {
    var r := Outcome(req, d, t, asWritten);
    if d.pullOk && d.pullMessagesOk && d.create.Some? {
      CreatedCalls(req, d, t, asWritten);
      assert r.calls[|r.calls| - 1] == Remove;
    } else if d.pullOk && d.pullMessagesOk {
      assert r.calls == Pipeline[..2];
    } else {
      assert r.calls == Pipeline[..1];
    }
  }

  /** What reaches the container's standard input is the commands joined by newlines, and they can be split back. */
  lemma StdinIsCommands(req: Foreground, d: Daemon, t: Transfers, asWritten: bool)
    ensures var r := Outcome(req, d, t, asWritten);
      && (r.stdin.Some? <==> d.pullOk && d.pullMessagesOk && d.create.Some? && Sent(d, t))
      && (r.stdin.Some? ==> |r.calls| > 6 && r.calls[5] == Send && r.calls[6] == CloseWrite && r.stdin.value == Join(req.commands, "\n"))
      && (Send in r.calls <==> r.stdin.Some?)
      && (Send in r.calls ==> CloseWrite in r.calls)
      && (r.stdin.Some? && |req.commands| > 0 && (forall k :: 0 <= k < |req.commands| ==> '\n' !in req.commands[k])
          ==> Split(r.stdin.value, '\n') == req.commands)
  {
    var r := Outcome(req, d, t, asWritten);
    RemovedOnceCreated(req, d, t, asWritten);
    if d.pullOk && d.pullMessagesOk && d.create.Some? {
      var r1 := ForegroundRun([Pull, Create] + DeliveryCalls(d, t), Some(ForegroundConfig(req)), t.injection.uploads,
                              if Sent(d, t) then Some(Join(req.commands, "\n")) else None, [], [], None, None);
      AfterSendFields(req, d, t, r1, asWritten);
      if Sent(d, t) {
        assert r.calls[5] == Send && r.calls[6] == CloseWrite;
      }
    }
    if r.stdin.Some? && |req.commands| > 0 && (forall k :: 0 <= k < |req.commands| ==> '\n' !in req.commands[k]) {
      SplitJoin(req.commands, '\n');
    }
  }

  /** Every stage up to sending the commands succeeds. */
  predicate Delivered(d: Daemon, t: Transfers) {
    d.pullOk && d.pullMessagesOk && d.create.Some? && t.injection.err.None? && d.attachOk && d.startOk && d.sendOk
  }

  /**
   * The output is what the log reader wrote once the logs are attached, and nothing otherwise;
   * files are uploaded once the container exists, and downloaded only after a clean exit.
   */
  lemma TransfersPlacement(req: Foreground, d: Daemon, t: Transfers, asWritten: bool)
    ensures var r := Outcome(req, d, t, asWritten);
      && r.output == (if Delivered(d, t) && d.logs.Some? then t.output else [])
      && r.uploads == (if d.pullOk && d.pullMessagesOk && d.create.Some? then t.injection.uploads else [])
      && r.downloads == (if Delivered(d, t) && d.logs.Some? && CleanExit(d.wait) then t.extraction.downloads else [])
  {
    if d.pullOk && d.pullMessagesOk && d.create.Some? {
      var r1 := ForegroundRun([Pull, Create] + DeliveryCalls(d, t), Some(ForegroundConfig(req)), t.injection.uploads,
                              if Sent(d, t) then Some(Join(req.commands, "\n")) else None, [], [], None, None);
      AfterSendFields(req, d, t, r1, asWritten);
    }
  }

  /** A wait that ends with a clean status: no error on the channel, or an exit code that is not positive. */
  predicate CleanExit(w: WaitOutcome) {
    w == WaitChannel(false) || (w.Exited? && w.code <= 0)
  }

  /**
   * As written, a run returns no error exactly when the commands were delivered and then either
   * connecting to the logs failed, or the wait reported an error, or the container exited cleanly
   * and extraction and removal succeeded.
   */
  lemma ForegroundErrorIff(req: Foreground, d: Daemon, t: Transfers)
    ensures Outcome(req, d, t, true).err.None? <==>
      Delivered(d, t)
      && (d.logs.None? || d.wait == WaitChannel(true)
          || (CleanExit(d.wait) && t.extraction.err.None? && d.removeOk))
  {
  }

  /** As written, losing the logs reports success: nothing is waited for and no error is returned. */
  lemma LogsFailureMasked(req: Foreground, d: Daemon, t: Transfers)
    requires Delivered(d, t) && d.logs.None?
    ensures Outcome(req, d, t, true).err == None
    ensures Wait !in Outcome(req, d, t, true).calls
  {
  }

  /** As intended, a run returns no error exactly when every stage succeeds and the exit code is not positive. */
  lemma IntendedErrorIff(req: Foreground, d: Daemon, t: Transfers)
    ensures Outcome(req, d, t, false).err.None? <==>
      Delivered(d, t) && d.logs.Some? && CleanExit(d.wait) && t.extraction.err.None? && d.removeOk
    ensures Delivered(d, t) && d.logs.None? ==> Outcome(req, d, t, false).err == Some(LogsFailed)
    ensures Delivered(d, t) && d.logs.Some? && d.wait == WaitChannel(true) ==> Outcome(req, d, t, false).err == Some(WaitFailed)
  {
  }

  /** Both readings make the same calls and produce the same output; only the returned error differs. */
  lemma ReadingsAgreeOnCalls(req: Foreground, d: Daemon, t: Transfers)
    ensures Outcome(req, d, t, true).(err := None) == Outcome(req, d, t, false).(err := None)
  {
  }

  /** A removal error is returned only when nothing failed before; after a failure it is printed instead. */
  lemma RemoveErrorPlacement(req: Foreground, d: Daemon, t: Transfers, asWritten: bool)
    requires d.pullOk && d.pullMessagesOk && d.create.Some? && !d.removeOk
    ensures var r := Outcome(req, d, t, asWritten);
      (r.err == Some(RemoveFailed(req.image))) != (r.warning == Some(RemoveFailed(req.image)))
  {
  }

  // ---------------------------------------------------------------- background

  /** The arguments of `runBackgroundContainer`. */
  datatype Background = Background(image: string, environment: seq<string>, network: string, name: string, privileged: bool)

  function BackgroundConfig(req: Background): CreateRequest {
    CreateRequest(req.image, false, "", req.environment, [], [], "", [], req.privileged, Endpoints(req.network), req.name)
  }

  /** The engine's answers to the calls of starting a service. */
  datatype Starter = Starter(pullOk: bool, pullMessagesOk: bool, create: Option<string>, startOk: bool)

  /** The error `runBackgroundContainer` returns. */
  function BackgroundError(req: Background, d: Starter): Option<ContainerError> {
    if !d.pullOk then Some(PullFailed(req.image))
    else if !d.pullMessagesOk then Some(PullMessagesFailed(req.image))
    else if d.create.None? then Some(CreateFailed)
    else if !d.startOk then Some(StartFailed)
    else None
  }

  /** The container ID `runBackgroundContainer` returns: that of a created container, even when it did not start. */
  function StartedId(d: Starter): string {
    if d.pullOk && d.pullMessagesOk && d.create.Some? then d.create.value else ""
  }

  /** docker_container.go `runBackgroundContainer`. */
  method RunBackground(req: Background, d: Starter)
    returns (calls: seq<Stage>, config: Option<CreateRequest>, id: string, err: Option<ContainerError>)
    ensures err == BackgroundError(req, d) && id == StartedId(d)
    ensures config.Some? <==> d.pullOk && d.pullMessagesOk
    ensures config.Some? ==> config.value == BackgroundConfig(req) && Create in calls
    ensures calls == [Pull] + (if config.Some? then [Create] else []) + (if config.Some? && d.create.Some? then [Start] else [])
    ensures err.None? <==> config.Some? && d.create.Some? && d.startOk
    ensures !d.pullOk ==> err == Some(PullFailed(req.image))
    ensures d.pullOk && !d.pullMessagesOk ==> err == Some(PullMessagesFailed(req.image))
    ensures config.Some? && d.create.None? ==> err == Some(CreateFailed)
    ensures config.Some? && d.create.Some? && !d.startOk ==> err == Some(StartFailed)
    ensures id == if config.Some? && d.create.Some? then d.create.value else ""
  {
    calls, config, id, err := [Pull], None, "", None;
    if !d.pullOk {
      return calls, None, "", Some(PullFailed(req.image));
    }
    if !d.pullMessagesOk {
      return calls, None, "", Some(PullMessagesFailed(req.image));
    }
    var endpoints: set<string> := {};
    if |req.network| > 0 {
      endpoints := endpoints + {req.network};
    }
    config := Some(CreateRequest(req.image, false, "", req.environment, [], [], "", [], req.privileged, endpoints, req.name));
    calls := calls + [Create];
    if d.create.None? {
      return calls, config, "", Some(CreateFailed);
    }
    id := d.create.value;
    calls := calls + [Start];
    if !d.startOk {
      err := Some(StartFailed);
    }
  }

  /** A service container has no mounts and no standard input, and is privileged exactly when asked. */
  lemma BackgroundConfigShape(req: Background)
    ensures var c := BackgroundConfig(req);
      && c.mounts == [] && !c.interactive && c.privileged == req.privileged && c.name == req.name
      && c.env == req.environment && (c.networks == {} <==> req.network == "")
  {
    if req.network != "" {
      assert req.network in BackgroundConfig(req).networks;
    }
  }

  // ---------------------------------------------------------------- stop and remove

  /** The engine's answers to the calls of stopping a service. */
  datatype Stopper = Stopper(stopOk: bool, logs: Option<Demux.Stream>, removeOk: bool)

  /** The error `stopAndRemoveContainer` returns. */
  function StopError(id: string, withWriter: bool, d: Stopper): Option<ContainerError> {
    if !d.stopOk then Some(StopFailed)
    else if d.logs.None? then Some(LogsFailed)
    else if withWriter && Demux.Demultiplex(d.logs.value).end == Demux.ReadFailed then Some(ReadHeaderFailed)
    else if !d.removeOk then Some(RemoveContainerFailed(id))
    else None
  }

  /** docker_container.go `stopAndRemoveContainer`; `withWriter` says whether a log writer was given. */
  method StopAndRemove(id: string, withWriter: bool, d: Stopper)
    returns (calls: seq<Stage>, output: seq<Demux.byte>, err: Option<ContainerError>)
    ensures err == StopError(id, withWriter, d)
    ensures Stop in calls && calls[0] == Stop
    ensures Logs in calls <==> d.stopOk
    ensures Remove in calls <==> d.stopOk && d.logs.Some? && (!withWriter || Demux.Demultiplex(d.logs.value).end == Demux.EndOfStream)
    ensures output == if d.stopOk && d.logs.Some? && withWriter then Demux.Demultiplex(d.logs.value).output else []
    ensures err.None? <==> Remove in calls && d.removeOk
    ensures !d.stopOk ==> err == Some(StopFailed)
    ensures d.stopOk && d.logs.None? ==> err == Some(LogsFailed)
    ensures Logs in calls && Remove !in calls && d.logs.Some? ==> err == Some(ReadHeaderFailed)
    ensures Remove in calls && !d.removeOk ==> err == Some(RemoveContainerFailed(id))
  {
    calls, output := [Stop], [];
    if !d.stopOk {
      return calls, [], Some(StopFailed);
    }
    calls := calls + [Logs];
    if d.logs.None? {
      return calls, [], Some(LogsFailed);
    }
    if withWriter {
      var end;
      output, end := Demux.Demux(d.logs.value);
      if end == Demux.ReadFailed {
        return calls, output, Some(ReadHeaderFailed);
      }
    }
    calls := calls + [Remove];
    err := if d.removeOk then None else Some(RemoveContainerFailed(id));
  }

  /**
   * Stopping a service removes its container unless stopping, connecting to its logs or the log
   * connection itself fails: a log stream that ends inside a header or a payload still ends the
   * read loop at `io.EOF`.
   */
  lemma StopRemovesUnlessBroken(id: string, withWriter: bool, d: Stopper)
    requires d.stopOk && d.logs.Some?
    ensures StopError(id, withWriter, d) ==
      if withWriter && d.logs.value.close.broken then Some(ReadHeaderFailed)
      else if d.removeOk then None else Some(RemoveContainerFailed(id))
  {
    Demux.EndsAsReader(d.logs.value.bytes, d.logs.value.close, Demux.Zeros(Demux.HeaderSize));
  }
}
