/**
 * A single Docker service run straight from an image (`DockerService`):
 * its exposed ports in docker's `address:hostPort:containerPort/protocol`
 * notation, the daemon flag, and starting and terminating its container.
 * The container runtime is an oracle object that records every request.
 */
module Service {
  import opened Results

  datatype ExposedPort = ExposedPort(address: string, containerPort: string, hostPort: string, protocol: string)

  /** `ExposedPort.toString`: the address, then the host port, then the container port, then the protocol. */
  function PortSpec(p: ExposedPort): (r: string)
    ensures |r| == |p.address| + |p.hostPort| + |p.containerPort| + |p.protocol| + 3
    ensures r[..|p.address|] == p.address && r[|p.address|] == ':'
    ensures var h := |p.address| + 1;
            r[h..h + |p.hostPort|] == p.hostPort && r[h + |p.hostPort|] == ':'
    ensures var c := |p.address| + |p.hostPort| + 2;
            r[c..c + |p.containerPort|] == p.containerPort && r[c + |p.containerPort|] == '/'
            && r[c + |p.containerPort| + 1..] == p.protocol
  {
    p.address + ":" + p.hostPort + ":" + p.containerPort + "/" + p.protocol
  }

  /** The port specifications of a list of ports, in order. */
  function PortSpecs(ports: seq<ExposedPort>): (specs: seq<string>)
    ensures |specs| == |ports|
    ensures forall i :: 0 <= i < |ports| ==> specs[i] == PortSpec(ports[i])
  {
    if ports == [] then [] else [PortSpec(ports[0])] + PortSpecs(ports[1..])
  }

  // ---------------------------------------------------------------------
  // Reading a port specification back
  // ---------------------------------------------------------------------

  /** The position of the first `c` in `s`, if any. */
  function IndexOf(s: string, c: char): (r: Option<nat>)
    ensures r.Some? ==> r.value < |s| && s[r.value] == c && c !in s[..r.value]
    ensures r.None? ==> c !in s
  {
    if s == [] then None
    else if s[0] == c then Some(0)
    else match IndexOf(s[1..], c)
      case None => None
      case Some(i) => assert s[..i + 1] == [s[0]] + s[1..][..i]; Some(i + 1)
  }

  /** `s` cut at its first `c`: the part before and the part after. */
  function SplitFirst(s: string, c: char): Option<(string, string)>
  {
    match IndexOf(s, c)
    case None => None
    case Some(i) => Some((s[..i], s[i + 1..]))
  }

  /** Reads `address:hostPort:containerPort/protocol`. */
  function ParsePortSpec(s: string): Option<ExposedPort>
  {
    match SplitFirst(s, ':')
    case None => None
    case Some((address, afterAddress)) =>
      match SplitFirst(afterAddress, ':')
      case None => None
      case Some((hostPort, afterHost)) =>
        match SplitFirst(afterHost, '/')
        case None => None
        case Some((containerPort, protocol)) => Some(ExposedPort(address, containerPort, hostPort, protocol))
  }

  lemma SplitFirstJoin(x: string, y: string, c: char)
    requires c !in x
    ensures SplitFirst(x + [c] + y, c) == Some((x, y))
  {
    var s := x + [c] + y;
    assert s[|x|] == c;
    assert s[..|x|] == x && s[|x| + 1..] == y;
  }

  /**
   * A port whose address and host port hold no ':' and whose container port
   * holds no '/' is read back from its specification field by field: the
   * host port is the second field and the container port the third.
   */
  lemma PortSpecRoundTrip(p: ExposedPort)
    requires ':' !in p.address && ':' !in p.hostPort && '/' !in p.containerPort
    ensures ParsePortSpec(PortSpec(p)) == Some(p)
  {
    var afterHost := p.containerPort + "/" + p.protocol;
    var afterAddress := p.hostPort + ":" + afterHost;
    assert PortSpec(p) == p.address + [':'] + afterAddress;
    SplitFirstJoin(p.address, afterAddress, ':');
    assert afterAddress == p.hostPort + [':'] + afterHost;
    SplitFirstJoin(p.hostPort, afterHost, ':');
    assert afterHost == p.containerPort + ['/'] + p.protocol;
    SplitFirstJoin(p.containerPort, p.protocol, '/');
  }

  // ---------------------------------------------------------------------
  // Containers
  // ---------------------------------------------------------------------

  /** A running container handle. */
  datatype Container = Container(id: string)

  /** `testcontainers.GenericContainerRequest` with its `ContainerRequest`. */
  datatype ContainerRequest = ContainerRequest(image: string, exposedPorts: seq<string>, started: bool)

  /**
   * The container runtime: start requests and terminations are recorded in
   * order; the outcome of the n-th start and of the n-th termination are
   * given by the two oracles.
   */
  class ContainerRuntime {
    var requests: seq<ContainerRequest>
    var terminated: seq<Container>
    const startOutcome: (nat, ContainerRequest) -> Result<Container, string>
    const terminateOutcome: (nat, Container) -> Option<string>

    constructor (startOutcome: (nat, ContainerRequest) -> Result<Container, string>,
                 terminateOutcome: (nat, Container) -> Option<string>)
      ensures requests == [] && terminated == []
      ensures this.startOutcome == startOutcome && this.terminateOutcome == terminateOutcome
    {
      requests, terminated := [], [];
      this.startOutcome, this.terminateOutcome := startOutcome, terminateOutcome;
    }

    /** `testcontainers.GenericContainer`. */
    method GenericContainer(req: ContainerRequest) returns (r: Result<Container, string>)
      modifies this
      ensures requests == old(requests) + [req] && terminated == old(terminated)
      ensures r == startOutcome(|old(requests)|, req)
    {
      r := startOutcome(|requests|, req);
      requests := requests + [req];
    }

    /** `Container.Terminate`. */
    method Terminate(c: Container) returns (err: Option<string>)
      modifies this
      ensures terminated == old(terminated) + [c] && requests == old(requests)
      ensures err == terminateOutcome(|old(terminated)|, c)
    {
      err := terminateOutcome(|terminated|, c);
      terminated := terminated + [c];
    }
  }

  // ---------------------------------------------------------------------
  // DockerService
  // ---------------------------------------------------------------------

  /** The fields of a `DockerService`, as a value. */
  datatype ServiceState = ServiceState(daemon: bool, exposedPorts: seq<ExposedPort>, imageTag: string,
                                       runningService: Option<Container>)

  /** What `AsDaemon` does to the fields: only the daemon flag is set. */
  function MarkDaemon(s: ServiceState): (r: ServiceState)
    ensures r.daemon
    ensures r.exposedPorts == s.exposedPorts && r.imageTag == s.imageTag && r.runningService == s.runningService
  {
    s.(daemon := true)
  }

  /** Marking a service as a daemon twice is marking it once. */
  lemma MarkDaemonIdempotent(s: ServiceState)
    ensures MarkDaemon(MarkDaemon(s)) == MarkDaemon(s)
  {
  }

  class DockerService {
    var daemon: bool
    var exposedPorts: seq<ExposedPort>
    var imageTag: string
    var runningService: Option<Container>

    /** A service as the caller-side factories build it: no container yet. */
    constructor (imageTag: string, exposedPorts: seq<ExposedPort>, daemon: bool)
      ensures Snapshot() == ServiceState(daemon, exposedPorts, imageTag, None)
    {
      this.daemon := daemon;
      this.exposedPorts := exposedPorts;
      this.imageTag := imageTag;
      this.runningService := None;
    }

    function Snapshot(): ServiceState
      reads this
    {
      ServiceState(daemon, exposedPorts, imageTag, runningService)
    }

    /** `ExposePorts`: one specification per exposed port, in order; the service is not changed. */
    method ExposePorts() returns (ports: seq<string>)
      ensures ports == PortSpecs(exposedPorts)
    {
      ports := [];
      for i := 0 to |exposedPorts|
        invariant |ports| == i
        invariant forall j :: 0 <= j < i ==> ports[j] == PortSpec(exposedPorts[j])
      {
        ports := ports + [PortSpec(exposedPorts[i])];
      }
    }

    /** `AsDaemon`: sets the daemon flag and returns the same service. */
    method AsDaemon() returns (s: DockerService)
      modifies this
      ensures s == this
      ensures Snapshot() == MarkDaemon(old(Snapshot()))
    {
      daemon := true;
      s := this;
    }

    /**
     * `Run`: requests a started container for the image with the exposed
     * ports, and keeps the handle only when the start succeeds.
     */
    method Run(runtime: ContainerRuntime) returns (r: Result<Container, string>)
      modifies this, runtime
      ensures var req := ContainerRequest(imageTag, PortSpecs(exposedPorts), true);
              && runtime.requests == old(runtime.requests) + [req]
              && r == runtime.startOutcome(|old(runtime.requests)|, req)
      ensures runtime.terminated == old(runtime.terminated)
      ensures daemon == old(daemon) && exposedPorts == old(exposedPorts) && imageTag == old(imageTag)
      ensures runningService == if r.Ok? then Some(r.value) else old(runningService)
    {
      var ports := ExposePorts();
      var req := ContainerRequest(imageTag, ports, true);
      r := runtime.GenericContainer(req);
      if r.Err? {
        return;
      }
      runningService := Some(r.value);
    }

    /**
     * `Destroy`: terminates the running container and reports success
     * whatever the termination returns; the handle is kept.
     */
    method Destroy(runtime: ContainerRuntime) returns (err: Option<string>)
      requires runningService.Some?
      modifies runtime
      ensures err == None
      ensures runtime.terminated == old(runtime.terminated) + [runningService.value]
      ensures runtime.requests == old(runtime.requests)
    {
      var _ := runtime.Terminate(runningService.value);
      err := None;
    }
  }
}
