/**
  The coordinator's side of the container lifecycle as functions over a
  `World`: the three process-wide globals (cgroup path, host and container
  interface names), the host state, and the steps issued so far. Each
  function gives the world after the corresponding routine and how it ended
  (completed, or raised). A step run with `check=True` raises when it fails,
  which ends the routine; the routines that catch errors say so.
 */
module Lifecycle {
  import opened Common
  import opened Host
  import PidHandoff

  const CGROUP_DIR := "/sys/fs/cgroup/mycontainer"
  /** 10000 us of CPU per 100000 us period: a tenth of one core. */
  const CPU_MAX := "10000 100000"
  const VETH_HOST := "veth0"
  const VETH_CONTAINER := "veth1"
  const HOST_CIDR := "192.168.1.1/24"
  const CONTAINER_CIDR := "192.168.1.2/24"
  const HOST_ADDRESS := "192.168.1.1"
  const CONTAINER_SUBNET := "192.168.1.0/24"
  const IP_FORWARD := "net.ipv4.ip_forward"

  /** The module globals CGROUP_PATH, VETH_HOST and VETH_CONTAINER (None until assigned). */
  datatype Globals = Globals(cgroupPath: Option<string>, vethHost: Option<string>, vethContainer: Option<string>)
  {
    /** Each global is unset or holds the one value the setup routines ever assign. */
    predicate WellFormed() {
      && (cgroupPath == None || cgroupPath == Some(CGROUP_DIR))
      && (vethHost == None || vethHost == Some(VETH_HOST))
      && (vethContainer == None || vethContainer == Some(VETH_CONTAINER))
    }
  }

  const UNSET := Globals(None, None, None)

  datatype Failure =
    | StepFailed(step: Step)                       // CalledProcessError or OSError from that step
    | NoneArgument                                 // TypeError: None among a command's arguments
    | BadHandoff(reason: PidHandoff.HandoffError)  // the PID read from the pipe does not parse

  datatype Outcome = Done | Raised(failure: Failure)

  datatype World = World(globals: Globals, host: Host, issued: seq<Step>)

  /** Python truthiness of an optional string: set and non-empty. */
  predicate Truthy(o: Option<string>) {
    o.Some? && o.value != ""
  }

  /** Runs one step; a failed step raises and leaves the host as it was. */
  function Run(w: World, s: Step): (r: (World, Outcome))
    ensures r.0.issued == w.issued + [s] && r.0.globals == w.globals
    ensures r.1.Done? <==> Apply(w.host, s).Some?
    ensures r.1.Done? ==> r.0.host == Apply(w.host, s).value
    ensures r.1.Raised? ==> r.0.host == w.host && r.1.failure == StepFailed(s)
  {
    var w' := w.(issued := w.issued + [s]);
    match Apply(w.host, s)
    case None => (w', Raised(StepFailed(s)))
    case Some(h) => (w'.(host := h), Done)
  }

  /** The next `check=True` step of a routine, reached only if nothing raised before it. */
  function Then(p: (World, Outcome), s: Step): (World, Outcome) {
    if p.1.Raised? then p else Run(p.0, s)
  }

  /** `enable_ip_forwarding` */
  function EnableIpForwarding(w: World): (r: (World, Outcome))
    ensures r.0.globals == w.globals && r.0.issued == w.issued + [Sysctl(IP_FORWARD, "1")]
    ensures r.1.Done? <==> Sysctl(IP_FORWARD, "1") !in w.host.refused
    ensures r.1.Done? ==> r.0.host == w.host.(sysctl := w.host.sysctl[IP_FORWARD := "1"])
    ensures r.1.Raised? ==> r.0.host == w.host
  {
    Run(w, Sysctl(IP_FORWARD, "1"))
  }

  /** The cgroup's files hold the CPU quota and, as decimal text, the PID. */
  predicate QuotaAndPidWritten(files: map<string, string>, pid: int) {
    && "cpu.max" in files && files["cpu.max"] == CPU_MAX
    && "cgroup.procs" in files && files["cgroup.procs"] == PidHandoff.DecimalString(pid)
  }

  /**
    `limit_resources`: create the cgroup directory, write the CPU quota, write
    the PID; CGROUP_PATH is recorded only once all three have succeeded.
   */
  function LimitResources(w: World, pid: int): (r: (World, Outcome))
    ensures r.1.Raised? ==> r.0.globals == w.globals
    ensures r.1.Done? ==> r.0.globals == w.globals.(cgroupPath := Some(CGROUP_DIR))
    ensures r.1.Done? ==> CGROUP_DIR in r.0.host.cgroups && QuotaAndPidWritten(r.0.host.cgroups[CGROUP_DIR], pid)
  {
    var p1 := Run(w, MakeDirs(CGROUP_DIR));
    var p2 := Then(p1, WriteFile(CGROUP_DIR, "cpu.max", CPU_MAX));
    var p3 := Then(p2, WriteFile(CGROUP_DIR, "cgroup.procs", PidHandoff.DecimalString(pid)));
    if p3.1.Raised? then p3
    else (p3.0.(globals := p3.0.globals.(cgroupPath := Some(CGROUP_DIR))), Done)
  }

  /**
    `setup_network`: both interface names are recorded before any command
    runs, so they are set however the routine ends; then the veth pair is
    created, its container end moved into the PID's network namespace, and
    both ends addressed and brought up, with a default route in the container.
   */
  function SetupNetwork(w: World, pid: int): (r: (World, Outcome))
    ensures r.0.globals == w.globals.(vethHost := Some(VETH_HOST), vethContainer := Some(VETH_CONTAINER))
  {
    var w0 := w.(globals := w.globals.(vethHost := Some(VETH_HOST), vethContainer := Some(VETH_CONTAINER)));
    var p1 := Run(w0, LinkAddVeth(VETH_HOST, VETH_CONTAINER));
    var p2 := Then(p1, LinkSetNetns(VETH_CONTAINER, pid));
    ConfigureLinks(p2, pid)
  }

  /**
    The address, link and route commands of `setup_network`, run only if
    nothing raised before them. They change no modelled host state, so only
    a refusal can make them fail.
   */
  function ConfigureLinks(p: (World, Outcome), pid: int): (r: (World, Outcome))
    ensures r.0.host == p.0.host && r.0.globals == p.0.globals
    ensures p.1.Raised? ==> r == p
    ensures p.1.Done? && (forall s :: s in p.0.host.refused ==> !s.IpConfig?) ==> r.1 == Done
  {
    var p3 := Then(p, IpConfig(None, ["addr", "add", HOST_CIDR, "dev", VETH_HOST]));
    var p4 := Then(p3, IpConfig(None, ["link", "set", VETH_HOST, "up"]));
    var p5 := Then(p4, IpConfig(Some(pid), ["addr", "add", CONTAINER_CIDR, "dev", VETH_CONTAINER]));
    var p6 := Then(p5, IpConfig(Some(pid), ["link", "set", VETH_CONTAINER, "up"]));
    Then(p6, IpConfig(Some(pid), ["route", "add", "default", "via", HOST_ADDRESS]))
  }

  /** Masquerade traffic from the container subnet that leaves by any interface other than `v`. */
  function MasqueradeRule(v: string): Rule {
    Rule(Some(CONTAINER_SUBNET), AnyIface, IsNot(v), "MASQUERADE")
  }

  /** Accept forwarded traffic arriving on `v`. */
  function ForwardInRule(v: string): Rule {
    Rule(None, Is(v), AnyIface, "ACCEPT")
  }

  /** Accept forwarded traffic leaving by `v`. */
  function ForwardOutRule(v: string): Rule {
    Rule(None, AnyIface, Is(v), "ACCEPT")
  }

  /** `setup_nat`: masquerade the subnet leaving by any other interface, and accept forwarding in and out. */
  function SetupNat(w: World): (r: (World, Outcome))
    ensures r.0.globals == w.globals
    ensures w.globals.vethHost.None? ==> r == (w, Raised(NoneArgument))
  {
    match w.globals.vethHost
    case None => (w, Raised(NoneArgument))
    case Some(v) =>
      var p1 := Run(w, Append(NatPostrouting, MasqueradeRule(v)));
      var p2 := Then(p1, Append(FilterForward, ForwardInRule(v)));
      Then(p2, Append(FilterForward, ForwardOutRule(v)))
  }

  /**
    `cleanup_nat`: delete the three rules. Unlike the other cleanup routines
    it has no guard, so with VETH_HOST unset it raises before running anything.
   */
  function CleanupNat(w: World): (r: (World, Outcome))
    ensures r.0.globals == w.globals
    ensures w.globals.vethHost.None? ==> r == (w, Raised(NoneArgument))
  {
    match w.globals.vethHost
    case None => (w, Raised(NoneArgument))
    case Some(v) =>
      var p1 := Run(w, Delete(NatPostrouting, MasqueradeRule(v)));
      var p2 := Then(p1, Delete(FilterForward, ForwardInRule(v)));
      Then(p2, Delete(FilterForward, ForwardOutRule(v)))
  }

  /**
    `cleanup_cgroups`: nothing when CGROUP_PATH is unset; otherwise one
    `rmdir`, whose failure is caught, so it never raises.
   */
  function CleanupCgroups(w: World): (r: World)
    ensures !Truthy(w.globals.cgroupPath) ==> r == w
    ensures Truthy(w.globals.cgroupPath) ==>
      && r.issued == w.issued + [RemoveDir(w.globals.cgroupPath.value)]
      && r.globals == w.globals
      && (Apply(w.host, RemoveDir(w.globals.cgroupPath.value)).None? ==> r.host == w.host)
  {
    if Truthy(w.globals.cgroupPath) then Run(w, RemoveDir(w.globals.cgroupPath.value)).0 else w
  }

  /** `cleanup_network`: when VETH_HOST is set, delete the host-side interface; a failure raises. */
  function CleanupNetwork(w: World): (r: (World, Outcome))
    ensures !Truthy(w.globals.vethHost) ==> r == (w, Done)
    ensures Truthy(w.globals.vethHost) ==> r == Run(w, LinkDelete(w.globals.vethHost.value))
  {
    if Truthy(w.globals.vethHost) then Run(w, LinkDelete(w.globals.vethHost.value)) else (w, Done)
  }

  /** `cleanup`: cgroups, then network, then NAT; a network failure propagates and skips NAT. */
  function Cleanup(w: World): (World, Outcome) {
    var w1 := CleanupCgroups(w);
    var p2 := CleanupNetwork(w1);
    if p2.1.Raised? then p2 else CleanupNat(p2.0)
  }

  /** The `try` block of `start_container` up to and including `limit_resources`. */
  function ThroughLimits(w: World, pid: int): (World, Outcome) {
    var p := EnableIpForwarding(w);
    if p.1.Raised? then p else LimitResources(p.0, pid)
  }

  /** ... then `setup_network`, if nothing raised before it. */
  function ThroughNetwork(w: World, pid: int): (World, Outcome) {
    var p := ThroughLimits(w, pid);
    if p.1.Raised? then p else SetupNetwork(p.0, pid)
  }

  /** ... then `setup_nat`, if nothing raised before it. */
  function ThroughNat(w: World, pid: int): (World, Outcome) {
    var p := ThroughNetwork(w, pid);
    if p.1.Raised? then p else SetupNat(p.0)
  }

  /** The whole `try` block: forwarding, limits, network, NAT, then the wait. */
  function Body(w: World, pid: int): (World, Outcome) {
    Then(ThroughNat(w, pid), WaitChild)
  }

  /**
    The `try`/`finally` of `start_container`: cleanup runs after the body
    however the body ended; an exception from cleanup replaces the body's.
   */
  function Supervise(w: World, pid: int): (r: (World, Outcome))
    ensures r.0 == Cleanup(Body(w, pid).0).0
    ensures Cleanup(Body(w, pid).0).1.Raised? ==> r.1 == Cleanup(Body(w, pid).0).1
    ensures Cleanup(Body(w, pid).0).1.Done? ==> r.1 == Body(w, pid).1
  {
    var b := Body(w, pid);
    var c := Cleanup(b.0);
    (c.0, if c.1.Raised? then c.1 else b.1)
  }

  /**
    The coordinator after the fork: read the handoff, parse the PID (a parse
    error raises before anything is set up), then supervise.
   */
  function StartContainer(w: World, written: seq<byte>): (r: (World, Outcome))
  {
    match PidHandoff.DecodePid(PidHandoff.ReadPipe(written))
    case Err(e) => (w, Raised(BadHandoff(e)))
    case Ok(pid) => Supervise(w, pid)
  }

  datatype FsAction = Chroot(path: string) | Chdir(path: string)

  /**
    `setup_filesystem`: a root path that does not exist raises
    FileNotFoundError before any chroot; otherwise change root, then directory.
   */
  function SetupFilesystem(existing: set<string>, rootfs: string): (r: Result<seq<FsAction>, string>)
    ensures r.Err? <==> rootfs !in existing
    ensures r.Err? ==> r.error == "Root filesystem not found at " + rootfs
    ensures r.Ok? ==> r.value == [Chroot(rootfs), Chdir("/")]
  {
    if rootfs !in existing then Err("Root filesystem not found at " + rootfs)
    else Ok([Chroot(rootfs), Chdir("/")])
  }
}
