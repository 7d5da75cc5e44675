/**
  The coordinator process as an object: its fields are the module globals
  CGROUP_PATH, VETH_HOST and VETH_CONTAINER, the host state it changes, and
  the steps it has issued. Each method runs the routine of the same name step
  by step and is specified by the corresponding function of `Lifecycle`.
 */
module ContainerRuntime {
  import opened Common
  import opened Host
  import opened Lifecycle
  import PidHandoff

  /**
    A step that releases one of the container's own resources: its cgroup,
    the host end of its veth pair, or one of its three NAT rules.
   */
  predicate ReleasesOwnResource(s: Step) {
    || s == RemoveDir(CGROUP_DIR)
    || s == LinkDelete(VETH_HOST)
    || s == Delete(NatPostrouting, MasqueradeRule(VETH_HOST))
    || s == Delete(FilterForward, ForwardInRule(VETH_HOST))
    || s == Delete(FilterForward, ForwardOutRule(VETH_HOST))
  }

  /** Every step of `steps` releases one of the container's own resources. */
  predicate ReleasesOnly(steps: seq<Step>) {
    forall k :: 0 <= k < |steps| ==> ReleasesOwnResource(steps[k])
  }

  /**
    With the globals well-formed, `cleanup` only appends steps to those
    issued before, and each of them releases one of the container's own
    resources.
   */
  lemma CleanupReleasesOwnResources(w: World) returns (r: seq<Step>)
    requires w.globals.WellFormed()
    ensures Lifecycle.Cleanup(w).0.issued == w.issued + r && ReleasesOnly(r)
  {
    var t := CgroupAndNetworkReleases(w);
    var c2 := CleanupNetwork(CleanupCgroups(w));
    if c2.1.Done? {
      r := ReleasesThroughNat(w.issued, t, c2.0);
    } else {
      r := t;
    }
  }

  /** Releases appended before `cleanup_nat` and by it together form one released suffix. */
  lemma ReleasesThroughNat(before: seq<Step>, t: seq<Step>, c: World) returns (r: seq<Step>)
    requires c.issued == before + t && ReleasesOnly(t)
    requires c.globals.vethHost == None || c.globals.vethHost == Some(VETH_HOST)
    ensures CleanupNat(c).0.issued == before + r && ReleasesOnly(r)
  {
    var u := CleanupNatReleases(c);
    r := t + u;
    assert (before + t) + u == before + r;
  }

  /** `cleanup_cgroups` then `cleanup_network`, with the globals well-formed, append only releases of the cgroup and `veth0`. */
  lemma CgroupAndNetworkReleases(w: World) returns (t: seq<Step>)
    requires w.globals.WellFormed()
    ensures CleanupNetwork(CleanupCgroups(w)).0.issued == w.issued + t && ReleasesOnly(t)
    ensures CleanupNetwork(CleanupCgroups(w)).0.globals == w.globals
  {
    var c1 := CleanupCgroups(w);
    var t1 := if Truthy(w.globals.cgroupPath) then [RemoveDir(CGROUP_DIR)] else [];
    assert c1.issued == w.issued + t1 && c1.globals == w.globals;
    t := if Truthy(w.globals.vethHost) then t1 + [LinkDelete(VETH_HOST)] else t1;
    assert w.issued + t1 + [LinkDelete(VETH_HOST)] == w.issued + (t1 + [LinkDelete(VETH_HOST)]);
  }

  /** `cleanup_nat` with VETH_HOST unset or `veth0` appends only deletions of the container's three rules. */
  lemma CleanupNatReleases(w: World) returns (u: seq<Step>)
    requires w.globals.vethHost == None || w.globals.vethHost == Some(VETH_HOST)
    ensures CleanupNat(w).0.issued == w.issued + u && ReleasesOnly(u)
  {
    if w.globals.vethHost.None? {
      u := [];
    } else {
      var v := VETH_HOST;
      var d1, d2, d3 := Delete(NatPostrouting, MasqueradeRule(v)), Delete(FilterForward, ForwardInRule(v)), Delete(FilterForward, ForwardOutRule(v));
      var p1 := Run(w, d1);
      var p2 := Then(p1, d2);
      u := if p1.1.Raised? then [d1] else if p2.1.Raised? then [d1, d2] else [d1, d2, d3];
    }
  }

  class Runtime {
    var cgroupPath: Option<string>
    var vethHost: Option<string>
    var vethContainer: Option<string>
    var host: Host
    var issued: seq<Step>

    /** The abstract state: globals, host, and the steps issued so far. */
    function State(): World
      reads this
    {
      World(Globals(cgroupPath, vethHost, vethContainer), host, issued)
    }

    /** The globals hold nothing but the values the setup routines assign. */
    predicate Valid()
      reads this
    {
      State().globals.WellFormed()
    }

    /** A fresh coordinator: no global set, nothing issued yet. */
    constructor (h: Host)
      ensures Valid()
      ensures State() == World(UNSET, h, [])
    {
      cgroupPath, vethHost, vethContainer := None, None, None;
      host, issued := h, [];
    }

    /** One external step (`subprocess.run(..., check=True)` or a file operation). */
    method Exec(s: Step) returns (o: Outcome)
      modifies this`host, this`issued
      ensures (State(), o) == Run(old(State()), s)
    {
      issued := issued + [s];
      match Apply(host, s)
      case None =>
        o := Raised(StepFailed(s));
      case Some(h) =>
        host := h;
        o := Done;
    }

    method EnableIpForwarding() returns (o: Outcome)
      modifies this`host, this`issued
      ensures (State(), o) == Lifecycle.EnableIpForwarding(old(State()))
    {
      o := Exec(Sysctl(IP_FORWARD, "1"));
    }

    method LimitResources(pid: int) returns (o: Outcome)
      requires Valid()
      modifies this
      ensures Valid()
      ensures (State(), o) == Lifecycle.LimitResources(old(State()), pid)
    {
      o := Exec(MakeDirs(CGROUP_DIR));
      if o.Raised? { return; }
      o := Exec(WriteFile(CGROUP_DIR, "cpu.max", CPU_MAX));
      if o.Raised? { return; }
      o := Exec(WriteFile(CGROUP_DIR, "cgroup.procs", PidHandoff.DecimalString(pid)));
      if o.Raised? { return; }
      cgroupPath := Some(CGROUP_DIR);
    }

    method SetupNetwork(pid: int) returns (o: Outcome)
      requires Valid()
      modifies this
      ensures Valid()
      ensures (State(), o) == Lifecycle.SetupNetwork(old(State()), pid)
    {
      vethHost := Some(VETH_HOST);
      vethContainer := Some(VETH_CONTAINER);
      o := Exec(LinkAddVeth(VETH_HOST, VETH_CONTAINER));
      if o.Raised? { return; }
      o := Exec(LinkSetNetns(VETH_CONTAINER, pid));
      if o.Raised? { return; }
      o := Exec(IpConfig(None, ["addr", "add", HOST_CIDR, "dev", VETH_HOST]));
      if o.Raised? { return; }
      o := Exec(IpConfig(None, ["link", "set", VETH_HOST, "up"]));
      if o.Raised? { return; }
      o := Exec(IpConfig(Some(pid), ["addr", "add", CONTAINER_CIDR, "dev", VETH_CONTAINER]));
      if o.Raised? { return; }
      o := Exec(IpConfig(Some(pid), ["link", "set", VETH_CONTAINER, "up"]));
      if o.Raised? { return; }
      o := Exec(IpConfig(Some(pid), ["route", "add", "default", "via", HOST_ADDRESS]));
    }

    method SetupNat() returns (o: Outcome)
      modifies this`host, this`issued
      ensures (State(), o) == Lifecycle.SetupNat(old(State()))
    {
      if vethHost.None? {
        o := Raised(NoneArgument);
        return;
      }
      var v := vethHost.value;
      o := Exec(Append(NatPostrouting, MasqueradeRule(v)));
      if o.Raised? { return; }
      o := Exec(Append(FilterForward, ForwardInRule(v)));
      if o.Raised? { return; }
      o := Exec(Append(FilterForward, ForwardOutRule(v)));
    }

    method CleanupNat() returns (o: Outcome)
      requires Valid()
      modifies this`host, this`issued
      ensures (State(), o) == Lifecycle.CleanupNat(old(State()))
      ensures |old(issued)| <= |issued| && forall k :: |old(issued)| <= k < |issued| ==> ReleasesOwnResource(issued[k])
    {
      if vethHost.None? {
        o := Raised(NoneArgument);
        return;
      }
      var v := vethHost.value;
      o := Exec(Delete(NatPostrouting, MasqueradeRule(v)));
      if o.Raised? { return; }
      o := Exec(Delete(FilterForward, ForwardInRule(v)));
      if o.Raised? { return; }
      o := Exec(Delete(FilterForward, ForwardOutRule(v)));
    }

    method CleanupCgroups()
      requires Valid()
      modifies this`host, this`issued
      ensures State() == Lifecycle.CleanupCgroups(old(State()))
      ensures issued == old(issued) || issued == old(issued) + [RemoveDir(CGROUP_DIR)]
    {
      if Truthy(cgroupPath) {
        var _ := Exec(RemoveDir(cgroupPath.value));
      }
    }

    method CleanupNetwork() returns (o: Outcome)
      requires Valid()
      modifies this`host, this`issued
      ensures (State(), o) == Lifecycle.CleanupNetwork(old(State()))
      ensures issued == old(issued) || issued == old(issued) + [LinkDelete(VETH_HOST)]
    {
      o := Done;
      if Truthy(vethHost) {
        o := Exec(LinkDelete(vethHost.value));
      }
    }

    /**
      `cleanup`. With the globals well-formed, every step it issues releases
      one of the container's own resources.
     */
    method Cleanup() returns (o: Outcome)
      requires Valid()
      modifies this`host, this`issued
      ensures (State(), o) == Lifecycle.Cleanup(old(State()))
      ensures |old(issued)| <= |issued| && issued[..|old(issued)|] == old(issued)
      ensures ReleasesOnly(issued[|old(issued)|..])
    {
      ghost var start := State();
      ghost var released := CleanupReleasesOwnResources(start);
      CleanupCgroups();
      o := CleanupNetwork();
      if o.Raised? { return; }
      o := CleanupNat();
    }

    /** The `try`/`finally` of `start_container` for a known PID. */
    method Supervise(pid: int) returns (o: Outcome)
      requires Valid()
      modifies this
      ensures Valid()
      ensures (State(), o) == Lifecycle.Supervise(old(State()), pid)
    {
      var body := EnableIpForwarding();
      if body.Done? {
        body := LimitResources(pid);
      }
      if body.Done? {
        body := SetupNetwork(pid);
      }
      if body.Done? {
        body := SetupNat();
      }
      if body.Done? {
        body := Exec(WaitChild);
      }
      var final := Cleanup();
      o := if final.Raised? then final else body;
    }

    /** The coordinator's branch of `start_container`, given the bytes the intermediate process wrote. */
    method StartContainer(written: seq<byte>) returns (o: Outcome)
      requires Valid()
      modifies this
      ensures Valid()
      ensures (State(), o) == Lifecycle.StartContainer(old(State()), written)
    {
      var got := PidHandoff.ReadPipe(written);
      var pid := PidHandoff.DecodePid(got);
      if pid.Err? {
        o := Raised(BadHandoff(pid.error));
        return;
      }
      o := Supervise(pid.value);
    }
  }
}
