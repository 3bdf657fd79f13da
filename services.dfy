/**
 * Starting and stopping the build's services (services.go): a service environment is resolved
 * against the build's global environment only, and a stopped service's logs are shown unless the
 * service suppresses them.
 */
module Services {
  import opened Wrappers
  import Config
  import Container
  import Environment
  import Demux

  datatype ServiceError =
    | ServiceUnresolved(variable: string, service: string)
    | StartFailed(service: string, cause: Container.ContainerError)
    | StopFailed(service: string, id: string, cause: Container.ContainerError)

  /** The background container of a service whose environment has been resolved to `environment`. */
  function ServiceRequest(service: Config.Service, environment: seq<string>, network: string): Container.Background {
    Container.Background(service.image, environment, network, service.name, service.privileged)
  }

  /**
   * services.go `startService`. `environment` is the array behind `service.Environment`, which the
   * caller shares: the resolution is written into it in place, up to the first unresolved name.
   * `starter` gives the engine's answers to each background container.
   */
  method StartService(service: Config.Service, environment: array<string>, network: string, buildEnv: seq<string>,
                      starter: Container.Background -> Container.Starter)
    returns (request: Option<Container.Background>, id: string, err: Option<ServiceError>)
    requires environment[..] == service.environment
    modifies environment
    ensures var x := Environment.Expand(service.environment, buildEnv);
      && environment[..] == x.entries
      && (x.unresolved.Some? ==> request.None? && id == "" && err == Some(ServiceUnresolved(x.unresolved.value, service.name)))
      && (x.unresolved.None? ==>
            && request == Some(ServiceRequest(service, x.entries, network))
            && id == Container.StartedId(starter(request.value))
            && err == (var e := Container.BackgroundError(request.value, starter(request.value));
                       if e.Some? then Some(StartFailed(service.name, e.value)) else None))
  {
    var unresolved := Environment.ExpandInPlace(environment, buildEnv);
    if unresolved.Some? {
      return None, "", Some(ServiceUnresolved(unresolved.value, service.name));
    }
    var req := Container.Background(service.image, environment[..], network, service.name, service.privileged);
    var calls, config, cid, e := Container.RunBackground(req, starter(req));
    request, id := Some(req), cid;
    err := if e.Some? then Some(StartFailed(service.name, e.value)) else None;
  }

  /**
   * Resolution against the build environment: a qualified entry stays, a bare one becomes the last
   * build entry of that name; the service starts exactly when every bare name has a match.
   */
  lemma ServiceEnvironment(service: Config.Service, buildEnv: seq<string>)
    ensures var x := Environment.Expand(service.environment, buildEnv);
      && |x.entries| == |service.environment|
      && (x.unresolved.None? <==> forall k :: 0 <= k < |service.environment| ==> Environment.Resolve(service.environment[k], buildEnv).Some?)
      && (x.unresolved.None? ==> forall k :: 0 <= k < |service.environment| ==>
            x.entries[k] == (if Environment.Qualified(service.environment[k]) then service.environment[k]
                             else buildEnv[Environment.LastMatch(buildEnv, service.environment[k])]))
  {
    Environment.ExpandAt(service.environment, buildEnv);
    Environment.ExpandSucceeds(service.environment, buildEnv);
  }

  // ---------------------------------------------------------------- stopping

  /** Position of the first service named `name`, or `|services|`. */
  function FirstNamed(services: seq<Config.Service>, name: string): (k: nat)
    ensures k <= |services|
    ensures k < |services| ==> services[k].name == name
    ensures forall j :: 0 <= j < k ==> services[j].name != name
  {
    if services == [] then 0
    else if services[0].name == name then 0
    else 1 + FirstNamed(services[1..], name)
  }

  /**
   * The service `stopService` consults: the first one with the name; without one, the range
   * variable is left at the last service, or at the zero service for an empty list.
   */
  function Selected(services: seq<Config.Service>, name: string): Config.Service {
    var k := FirstNamed(services, name);
    if k < |services| then services[k]
    else if services == [] then Config.NoService
    else services[|services| - 1]
  }

  /** services.go lines 55-60: the range loop with its early break. */
  method SelectService(services: seq<Config.Service>, name: string) returns (service: Config.Service)
    ensures service == Selected(services, name)
  {
    service := Config.NoService;
    for i := 0 to |services|
      invariant forall j :: 0 <= j < i ==> services[j].name != name
      invariant i > 0 ==> service == services[i - 1]
      invariant i == 0 ==> service == Config.NoService
    {
      service := services[i];
      if service.name == name {
        assert FirstNamed(services, name) == i by {
          FirstNamedAt(services, name, i);
        }
        return;
      }
    }
    FirstNamedAt(services, name, |services|);
  }

  /** The first name match is the one found by scanning from the front. */
  lemma {:induction false} FirstNamedAt(services: seq<Config.Service>, name: string, i: nat)
    requires i <= |services|
    requires forall j :: 0 <= j < i ==> services[j].name != name
    requires i < |services| ==> services[i].name == name
    ensures FirstNamed(services, name) == i
    decreases i
  {
    if i > 0 {
      FirstNamedAt(services[1..], name, i - 1);
    }
  }

  /**
   * The logs of a service are drained exactly when the consulted service does not suppress them;
   * that service has the requested name whenever one does, and is the last one otherwise.
   */
  lemma SelectedService(services: seq<Config.Service>, name: string)
    ensures (exists k :: 0 <= k < |services| && services[k].name == name) ==> Selected(services, name).name == name
    ensures (forall k :: 0 <= k < |services| ==> services[k].name != name) ==>
      Selected(services, name) == (if services == [] then Config.NoService else services[|services| - 1])
  {
  }

  /** services.go `stopService`: `stopper` gives the engine's answers for the container. */
  method StopService(name: string, id: string, services: seq<Config.Service>, stopper: Container.Stopper)
    returns (withWriter: bool, output: seq<Demux.byte>, err: Option<ServiceError>)
    ensures withWriter == !Selected(services, name).suppressLog
    ensures !withWriter ==> output == []
    ensures err == (var e := Container.StopError(id, withWriter, stopper); if e.Some? then Some(StopFailed(name, id, e.value)) else None)
  {
    var service := SelectService(services, name);
    withWriter := true;
    if service.suppressLog {
      withWriter := false;
    }
    var calls, e;
    calls, output, e := Container.StopAndRemove(id, withWriter, stopper);
    err := if e.Some? then Some(StopFailed(name, id, e.value)) else None;
  }
}
