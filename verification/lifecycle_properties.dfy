/**
  What the coordinator's lifecycle guarantees about the host, and where it
  does not: NAT rules removed exactly as added, a clean run that leaves
  nothing behind but the forwarding setting, cleanup that removes the veth
  pair whenever it was recorded and the cgroup once the container has
  exited, and the ways a failure in one routine changes what the others do.
 */
module LifecycleProperties {
  import opened Common
  import opened Host
  import opened Lifecycle
  import PidHandoff
  import PyText

  /** None of the three NAT deletions for interface `v` is refused by the host. */
  predicate NatDeletesAccepted(h: Host, v: string) {
    && Delete(NatPostrouting, MasqueradeRule(v)) !in h.refused
    && Delete(FilterForward, ForwardInRule(v)) !in h.refused
    && Delete(FilterForward, ForwardOutRule(v)) !in h.refused
  }

  /** The host outside the two iptables chains. */
  predicate SameOutsideChains(a: Host, b: Host) {
    && a.sysctl == b.sysctl && a.cgroups == b.cgroups && a.links == b.links
    && a.refused == b.refused && a.exitTearsDownPeers == b.exitTearsDownPeers
    && a.containerExited == b.containerExited
  }

  /** `s` is the deletion of exactly the rule the append `a` added, in the same chain. */
  predicate Undoes(s: Step, a: Step) {
    a.Append? && s == Delete(a.chain, a.rule)
  }

  /**
    After `setup_nat` has installed its three rules, `cleanup_nat` issues one
    deletion per appended rule, in the same order and with the same match
    criteria.
   */
  lemma NatDeletesMirrorAppends(w: World)
    requires w.globals.vethHost.Some? && SetupNat(w).1.Done?
    requires NatDeletesAccepted(w.host, w.globals.vethHost.value)
    ensures var s := SetupNat(w).0;
            var c := CleanupNat(s).0;
            && |w.issued| <= |s.issued| <= |c.issued|
            && var added := s.issued[|w.issued|..];
               var removed := c.issued[|s.issued|..];
               && |added| == |removed| == 3
               && forall k :: 0 <= k < 3 ==> Undoes(removed[k], added[k])
  {
    var v := w.globals.vethHost.value;
    var m, i, o := MasqueradeRule(v), ForwardInRule(v), ForwardOutRule(v);
    NatRoundTrip(w, v);
    var s := SetupNat(w).0;
    var c := CleanupNat(s).0;
    assert s.issued[|w.issued|..] == [Append(NatPostrouting, m), Append(FilterForward, i), Append(FilterForward, o)];
    assert c.issued[|s.issued|..] == [Delete(NatPostrouting, m), Delete(FilterForward, i), Delete(FilterForward, o)];
  }

  /**
    `cleanup_nat` after a successful `setup_nat` succeeds and gives each chain
    back the same rules, as a multiset, with the rest of the host untouched.
   */
  lemma NatSetupThenCleanup(w: World)
    requires w.globals.vethHost.Some? && SetupNat(w).1.Done?
    requires NatDeletesAccepted(w.host, w.globals.vethHost.value)
    ensures CleanupNat(SetupNat(w).0).1.Done?
    ensures SameOutsideChains(CleanupNat(SetupNat(w).0).0.host, w.host)
    ensures multiset(CleanupNat(SetupNat(w).0).0.host.postrouting) == multiset(w.host.postrouting)
    ensures multiset(CleanupNat(SetupNat(w).0).0.host.forward) == multiset(w.host.forward)
  {
    var v := w.globals.vethHost.value;
    var m, i, o := MasqueradeRule(v), ForwardInRule(v), ForwardOutRule(v);
    var f0 := w.host.forward + [i] + [o];
    NatRoundTrip(w, v);
    RemoveFirstKeepsOthers(f0, i, o);
    RemoveFirstMultiset(w.host.postrouting + [m], m);
    RemoveFirstMultiset(f0, i);
    RemoveFirstMultiset(RemoveFirst(f0, i), o);
  }

  /** `cleanup_nat` after a successful `setup_nat`: each deletion takes out the first copy of its rule from the grown chain. */
  lemma NatRoundTrip(w: World, v: string)
    requires w.globals.vethHost == Some(v) && SetupNat(w).1.Done? && NatDeletesAccepted(w.host, v)
    ensures CleanupNat(SetupNat(w).0).1.Done?
    ensures SetupNat(w).0.issued
         == w.issued + [Append(NatPostrouting, MasqueradeRule(v)), Append(FilterForward, ForwardInRule(v)), Append(FilterForward, ForwardOutRule(v))]
    ensures CleanupNat(SetupNat(w).0).0.issued
         == SetupNat(w).0.issued + [Delete(NatPostrouting, MasqueradeRule(v)), Delete(FilterForward, ForwardInRule(v)), Delete(FilterForward, ForwardOutRule(v))]
    ensures SameOutsideChains(CleanupNat(SetupNat(w).0).0.host, w.host)
    ensures CleanupNat(SetupNat(w).0).0.host.postrouting
         == RemoveFirst(w.host.postrouting + [MasqueradeRule(v)], MasqueradeRule(v))
    ensures var f0 := w.host.forward + [ForwardInRule(v)] + [ForwardOutRule(v)];
            && ForwardOutRule(v) in RemoveFirst(f0, ForwardInRule(v))
            && CleanupNat(SetupNat(w).0).0.host.forward == RemoveFirst(RemoveFirst(f0, ForwardInRule(v)), ForwardOutRule(v))
  {
    var f0 := w.host.forward + [ForwardInRule(v)] + [ForwardOutRule(v)];
    SetupNatResult(w, v);
    RemoveFirstKeepsOthers(f0, ForwardInRule(v), ForwardOutRule(v));
    CleanupNatResult(SetupNat(w).0, v);
  }

  /** What a successful `setup_nat` does to the host: one rule appended to POSTROUTING, two to FORWARD. */
  lemma SetupNatResult(w: World, v: string)
    requires w.globals.vethHost == Some(v) && SetupNat(w).1.Done?
    ensures SameOutsideChains(SetupNat(w).0.host, w.host)
    ensures SetupNat(w).0.host.postrouting == w.host.postrouting + [MasqueradeRule(v)]
    ensures SetupNat(w).0.host.forward == w.host.forward + [ForwardInRule(v)] + [ForwardOutRule(v)]
    ensures SetupNat(w).0.host
         == w.host.(postrouting := w.host.postrouting + [MasqueradeRule(v)],
                    forward := w.host.forward + [ForwardInRule(v)] + [ForwardOutRule(v)])
    ensures SetupNat(w).0.issued
         == w.issued + [Append(NatPostrouting, MasqueradeRule(v)), Append(FilterForward, ForwardInRule(v)), Append(FilterForward, ForwardOutRule(v))]
  {
    var p1 := Run(w, Append(NatPostrouting, MasqueradeRule(v)));
    var p2 := Run(p1.0, Append(FilterForward, ForwardInRule(v)));
    assert p1.1.Done? && p2.1.Done?;
  }

  /** `setup_nat` can only fail by the host refusing one of its appends. */
  lemma SetupNatSucceeds(w: World, v: string)
    requires w.globals.vethHost == Some(v)
    requires Append(NatPostrouting, MasqueradeRule(v)) !in w.host.refused
    requires Append(FilterForward, ForwardInRule(v)) !in w.host.refused
    requires Append(FilterForward, ForwardOutRule(v)) !in w.host.refused
    ensures SetupNat(w).1.Done?
  {
    var p1 := Run(w, Append(NatPostrouting, MasqueradeRule(v)));
    var p2 := Run(p1.0, Append(FilterForward, ForwardInRule(v)));
    assert p1.1.Done? && p2.1.Done?;
  }

  /** What `cleanup_nat` does to a host holding all three rules and refusing none of their deletions. */
  lemma CleanupNatResult(s: World, v: string)
    requires s.globals.vethHost == Some(v) && NatDeletesAccepted(s.host, v)
    requires MasqueradeRule(v) in s.host.postrouting && ForwardInRule(v) in s.host.forward
    requires ForwardOutRule(v) in RemoveFirst(s.host.forward, ForwardInRule(v))
    ensures CleanupNat(s).1.Done?
    ensures SameOutsideChains(CleanupNat(s).0.host, s.host)
    ensures CleanupNat(s).0.host.postrouting == RemoveFirst(s.host.postrouting, MasqueradeRule(v))
    ensures CleanupNat(s).0.host.forward
         == RemoveFirst(RemoveFirst(s.host.forward, ForwardInRule(v)), ForwardOutRule(v))
    ensures CleanupNat(s).0.host
         == s.host.(postrouting := RemoveFirst(s.host.postrouting, MasqueradeRule(v)),
                    forward := RemoveFirst(RemoveFirst(s.host.forward, ForwardInRule(v)), ForwardOutRule(v)))
    ensures CleanupNat(s).0.issued
         == s.issued + [Delete(NatPostrouting, MasqueradeRule(v)), Delete(FilterForward, ForwardInRule(v)), Delete(FilterForward, ForwardOutRule(v))]
  {
    var p1 := Run(s, Delete(NatPostrouting, MasqueradeRule(v)));
    assert p1.1.Done?;
    var p2 := Run(p1.0, Delete(FilterForward, ForwardInRule(v)));
    assert p2.1.Done?;
    var p3 := Run(p2.0, Delete(FilterForward, ForwardOutRule(v)));
    assert p3.1.Done?;
  }

  /** The three NAT rules for `v` are not already in the chains. */
  predicate NatRulesAbsent(h: Host, v: string) {
    && MasqueradeRule(v) !in h.postrouting
    && ForwardInRule(v) !in h.forward && ForwardOutRule(v) !in h.forward
  }

  /**
    When none of the three rules was present beforehand, `cleanup_nat` after
    `setup_nat` gives back the very same chains, rule order included.
   */
  lemma NatSetupThenCleanupExact(w: World)
    requires w.globals.vethHost.Some? && SetupNat(w).1.Done?
    requires NatDeletesAccepted(w.host, w.globals.vethHost.value)
    requires NatRulesAbsent(w.host, w.globals.vethHost.value)
    ensures CleanupNat(SetupNat(w).0).1.Done?
    ensures CleanupNat(SetupNat(w).0).0.host == w.host
  {
    var v := w.globals.vethHost.value;
    var m, i, o := MasqueradeRule(v), ForwardInRule(v), ForwardOutRule(v);
    var h := w.host;
    NatRoundTrip(w, v);
    assert h.forward + [i] + [o] == h.forward + [i, o];
    AppendThenDelete(h.postrouting, m);
    RemoveFirstSkipsPrefix(h.forward, [i, o], i);
    assert h.forward + [i, o][1..] == h.forward + [o];
    AppendThenDelete(h.forward, o);
  }

  /** The globals once every setup routine has recorded its value. */
  const ALL_SET := Globals(Some(CGROUP_DIR), Some(VETH_HOST), Some(VETH_CONTAINER))

  /** The host refuses, at most, some of the steps cleanup runs; every setup step is accepted. */
  predicate SetupAccepted(h: Host) {
    forall s :: s in h.refused ==> s.RemoveDir? || s.LinkDelete? || s.Delete?
  }

  /** A host that accepts every setup step and holds none of the container's resources yet. */
  predicate FreshHost(h: Host) {
    && SetupAccepted(h)
    && CGROUP_DIR !in h.cgroups
    && VETH_HOST !in h.links && VETH_CONTAINER !in h.links
    && NatRulesAbsent(h, VETH_HOST)
  }

  /**
    The host while the container runs: forwarding on, the cgroup with its
    quota and member, the host end of the veth pair (the other end is in the
    container's namespace), and the three rules at the end of their chains.
   */
  function Provisioned(h: Host, pid: int): Host {
    Limited(h, pid).(links := h.links[VETH_HOST := VETH_CONTAINER],
                     postrouting := h.postrouting + [MasqueradeRule(VETH_HOST)],
                     forward := h.forward + [ForwardInRule(VETH_HOST), ForwardOutRule(VETH_HOST)])
  }

  /** `limit_resources` on a host that accepts its steps and lacks the cgroup: it creates the cgroup with both files. */
  lemma LimitResourcesOnFreshHost(w: World, pid: int)
    requires MakeDirs(CGROUP_DIR) !in w.host.refused && WriteFile(CGROUP_DIR, "cpu.max", CPU_MAX) !in w.host.refused
    requires WriteFile(CGROUP_DIR, "cgroup.procs", PidHandoff.DecimalString(pid)) !in w.host.refused
    requires CGROUP_DIR !in w.host.cgroups
    ensures LimitResources(w, pid).1 == Done
    ensures LimitResources(w, pid).0.globals == w.globals.(cgroupPath := Some(CGROUP_DIR))
    ensures LimitResources(w, pid).0.host
         == w.host.(cgroups := w.host.cgroups[CGROUP_DIR := map["cpu.max" := CPU_MAX, "cgroup.procs" := PidHandoff.DecimalString(pid)]])
  {
    var q1 := Run(w, MakeDirs(CGROUP_DIR));
    var q2 := Run(q1.0, WriteFile(CGROUP_DIR, "cpu.max", CPU_MAX));
    var q3 := Run(q2.0, WriteFile(CGROUP_DIR, "cgroup.procs", PidHandoff.DecimalString(pid)));
    assert q1.1.Done? && q2.1.Done? && q3.1.Done?;
    assert q3.0.host.cgroups[CGROUP_DIR] == map["cpu.max" := CPU_MAX, "cgroup.procs" := PidHandoff.DecimalString(pid)];
  }

  /** `setup_network` on a host that accepts its steps and lacks both names: only the host end stays in its namespace. */
  lemma SetupNetworkOnFreshHost(w: World, pid: int)
    requires SetupAccepted(w.host) && VETH_HOST !in w.host.links && VETH_CONTAINER !in w.host.links
    ensures SetupNetwork(w, pid).1 == Done
    ensures SetupNetwork(w, pid).0.host == w.host.(links := w.host.links[VETH_HOST := VETH_CONTAINER])
  {
    var w0 := w.(globals := w.globals.(vethHost := Some(VETH_HOST), vethContainer := Some(VETH_CONTAINER)));
    var n1 := Run(w0, LinkAddVeth(VETH_HOST, VETH_CONTAINER));
    var n2 := Run(n1.0, LinkSetNetns(VETH_CONTAINER, pid));
    assert n1.1.Done? && n2.1.Done?;
    assert n2.0.host.links == w.host.links[VETH_HOST := VETH_CONTAINER];
  }

  /** When the veth pair outlives the container's exit, waiting for the child changes nothing on the host but the container's exit. */
  lemma WaitChildOnlyMarksExit(h: Host)
    requires WaitChild !in h.refused && !h.exitTearsDownPeers
    ensures Apply(h, WaitChild) == Some(h.(containerExited := true))
  {
  }

  /** The host after forwarding and limits, on a fresh host. */
  function Limited(h: Host, pid: int): Host {
    h.(sysctl := h.sysctl[IP_FORWARD := "1"],
       cgroups := h.cgroups[CGROUP_DIR := map["cpu.max" := CPU_MAX, "cgroup.procs" := PidHandoff.DecimalString(pid)]])
  }

  lemma ThroughLimitsOnFreshHost(w: World, pid: int)
    requires w.globals == UNSET && FreshHost(w.host)
    ensures ThroughLimits(w, pid).1 == Done
    ensures ThroughLimits(w, pid).0.globals == UNSET.(cgroupPath := Some(CGROUP_DIR))
    ensures ThroughLimits(w, pid).0.host == Limited(w.host, pid)
  {
    var p1 := EnableIpForwarding(w);
    assert p1.1.Done? && p1.0.host == w.host.(sysctl := w.host.sysctl[IP_FORWARD := "1"]);
    LimitResourcesOnFreshHost(p1.0, pid);
  }

  lemma ThroughNetworkOnFreshHost(w: World, pid: int)
    requires w.globals == UNSET && FreshHost(w.host)
    ensures ThroughNetwork(w, pid).1 == Done
    ensures ThroughNetwork(w, pid).0.globals == ALL_SET
    ensures ThroughNetwork(w, pid).0.host == Limited(w.host, pid).(links := w.host.links[VETH_HOST := VETH_CONTAINER])
  {
    ThroughLimitsOnFreshHost(w, pid);
    SetupNetworkOnFreshHost(ThroughLimits(w, pid).0, pid);
  }

  lemma ThroughNatOnFreshHost(w: World, pid: int)
    requires w.globals == UNSET && FreshHost(w.host)
    ensures ThroughNat(w, pid).1 == Done
    ensures ThroughNat(w, pid).0.globals == ALL_SET
    ensures ThroughNat(w, pid).0.host == Provisioned(w.host, pid)
  {
    ThroughNetworkOnFreshHost(w, pid);
    SetupNatOnNetworkedHost(ThroughNetwork(w, pid).0, w.host, pid);
  }

  /** `setup_nat` once forwarding, limits and the network are in place on a fresh host. */
  lemma SetupNatOnNetworkedHost(n: World, h: Host, pid: int)
    requires FreshHost(h) && n.globals == ALL_SET
    requires n.host == Limited(h, pid).(links := h.links[VETH_HOST := VETH_CONTAINER])
    ensures SetupNat(n).1 == Done
    ensures SetupNat(n).0.globals == ALL_SET
    ensures SetupNat(n).0.host == Provisioned(h, pid)
  {
    assert n.host.refused == h.refused;
    assert n.host.postrouting == h.postrouting && n.host.forward == h.forward;
    SetupNatSucceeds(n, VETH_HOST);
    SetupNatResult(n, VETH_HOST);
    assert h.forward + [ForwardInRule(VETH_HOST)] + [ForwardOutRule(VETH_HOST)]
        == h.forward + [ForwardInRule(VETH_HOST), ForwardOutRule(VETH_HOST)];
  }

  /**
    The wait at the end of the `try` block changes no global and, outside the
    interfaces and the container's exit, nothing on the host; once it
    returns the container has exited; it keeps the veth pairing, and when
    the pair outlives the container it keeps the interfaces too.
   */
  lemma WaitChildFrame(p: (World, Outcome))
    ensures Then(p, WaitChild).0.globals == p.0.globals
    ensures p.1.Raised? ==> Then(p, WaitChild) == p
    ensures Then(p, WaitChild).0.host
         == p.0.host.(links := Then(p, WaitChild).0.host.links, containerExited := Then(p, WaitChild).0.host.containerExited)
    ensures Then(p, WaitChild).0.host.containerExited <==> p.0.host.containerExited || Then(p, WaitChild).1.Done?
    ensures VethPaired(p.0.host.links) ==> VethPaired(Then(p, WaitChild).0.host.links)
    ensures !p.0.host.exitTearsDownPeers ==> Then(p, WaitChild).0.host.links == p.0.host.links
  {
    if p.1.Done? && WaitChild !in p.0.host.refused && p.0.host.exitTearsDownPeers {
      ReapedKeepsPairing(p.0.host.links);
    }
  }

  /** Losing the interfaces whose peers are gone keeps the veth pairing. */
  lemma ReapedKeepsPairing(links: map<string, string>)
    ensures VethPaired(links) ==> VethPaired(Reaped(links))
  {
  }

  /**
    With the pair torn down at the container's exit, the host end is gone
    once the wait returns, on a host where the container end had been moved
    out of the host namespace.
   */
  lemma ReapedLosesHostEnd(links: map<string, string>)
    requires VETH_HOST in links && links[VETH_HOST] == VETH_CONTAINER && VETH_CONTAINER !in links
    ensures VETH_HOST !in Reaped(links) && VETH_CONTAINER !in Reaped(links)
  {
  }

  /** On a fresh host every setup step succeeds, and when the veth pair outlives the container the host ends up provisioned. */
  lemma BodyOnFreshHost(w: World, pid: int)
    requires w.globals == UNSET && FreshHost(w.host) && !w.host.exitTearsDownPeers
    ensures Body(w, pid).1 == Done
    ensures Body(w, pid).0.globals == ALL_SET
    ensures Body(w, pid).0.host == Provisioned(w.host, pid).(containerExited := true)
  {
    ThroughNatOnFreshHost(w, pid);
    var p := ThroughNat(w, pid);
    assert WaitChild !in w.host.refused && p.0.host.refused == w.host.refused;
    WaitReturns(p);
  }

  /** A wait reached with the veth pair outliving the container: it completes and only marks the container's exit. */
  lemma WaitReturns(p: (World, Outcome))
    requires p.1 == Done && WaitChild !in p.0.host.refused && !p.0.host.exitTearsDownPeers
    ensures Then(p, WaitChild) == (p.0.(host := p.0.host.(containerExited := true), issued := p.0.issued + [WaitChild]), Done)
  {
    WaitChildOnlyMarksExit(p.0.host);
  }

  /**
    On a fresh host every setup step succeeds; when the container's exit
    tears down the veth pair before the wait returns, the host is
    provisioned except that neither end of the pair is left.
   */
  lemma BodyOnFreshHostWithPairTornDown(w: World, pid: int)
    requires w.globals == UNSET && FreshHost(w.host) && w.host.exitTearsDownPeers
    ensures Body(w, pid).1 == Done
    ensures Body(w, pid).0.globals == ALL_SET
    ensures Body(w, pid).0.host
         == Provisioned(w.host, pid).(links := Reaped(w.host.links[VETH_HOST := VETH_CONTAINER]), containerExited := true)
    ensures VETH_HOST !in Body(w, pid).0.host.links && VETH_CONTAINER !in Body(w, pid).0.host.links
  {
    ThroughNatOnFreshHost(w, pid);
    var p := ThroughNat(w, pid);
    assert WaitChild !in w.host.refused && p.0.host.refused == w.host.refused;
    WaitChildTearsDown(p.0.host);
    ReapedLosesHostEnd(w.host.links[VETH_HOST := VETH_CONTAINER]);
  }

  /** When the pair is torn down at the container's exit, the wait leaves only the interfaces whose peers are still there. */
  lemma WaitChildTearsDown(h: Host)
    requires WaitChild !in h.refused && h.exitTearsDownPeers
    ensures Apply(h, WaitChild) == Some(h.(links := Reaped(h.links), containerExited := true))
  {
  }

  /**
    The host after a run, with the container gone: forwarding stays on,
    since `enable_ip_forwarding` has no counterpart in cleanup.
   */
  function Forwarding(h: Host): Host {
    h.(sysctl := h.sysctl[IP_FORWARD := "1"], containerExited := true)
  }

  /** Cleanup of a provisioned host whose container has exited removes the cgroup, the veth pair and the three rules, leaving only forwarding. */
  lemma CleanupOfProvisionedHost(w: World, h: Host, pid: int)
    requires FreshHost(h) && h.refused == {} && w.globals == ALL_SET
    requires w.host == Provisioned(h, pid).(containerExited := true)
    ensures Cleanup(w).1 == Done
    ensures Cleanup(w).0.host == Forwarding(h)
  {
    ReleaseOfProvisionedHost(w, h, pid);
    var c2 := CleanupNetwork(CleanupCgroups(w));
    RemoveFirstSkipsPrefix(h.forward, [ForwardInRule(VETH_HOST), ForwardOutRule(VETH_HOST)], ForwardInRule(VETH_HOST));
    assert RemoveFirst(c2.0.host.forward, ForwardInRule(VETH_HOST)) == h.forward + [ForwardOutRule(VETH_HOST)];
    CleanupNatResult(c2.0, VETH_HOST);
    AppendThenDelete(h.postrouting, MasqueradeRule(VETH_HOST));
    AppendThenDelete(h.forward, ForwardOutRule(VETH_HOST));
  }

  /** `cleanup_cgroups` and `cleanup_network` on a provisioned host whose container has exited: only the three rules are left. */
  lemma ReleaseOfProvisionedHost(w: World, h: Host, pid: int)
    requires FreshHost(h) && h.refused == {} && w.globals == ALL_SET
    requires w.host == Provisioned(h, pid).(containerExited := true)
    ensures CleanupNetwork(CleanupCgroups(w)).1 == Done
    ensures CleanupNetwork(CleanupCgroups(w)).0.globals == ALL_SET
    ensures CleanupNetwork(CleanupCgroups(w)).0.host
         == Forwarding(h).(postrouting := h.postrouting + [MasqueradeRule(VETH_HOST)],
                           forward := h.forward + [ForwardInRule(VETH_HOST), ForwardOutRule(VETH_HOST)])
  {
    assert w.host.refused == {} && w.host.containerExited;
    var c1 := CleanupCgroups(w);
    assert c1.host == w.host.(cgroups := h.cgroups);
    assert w.host.links[VETH_HOST] == VETH_CONTAINER;
    assert w.host.links - {VETH_HOST, VETH_CONTAINER} == h.links;
  }

  /**
    A run on a fresh host in which nothing fails, and in which the veth pair
    is still there when the wait returns, completes, records every global,
    and leaves the host exactly as it found it except for the forwarding
    setting: no cgroup, interface or rule is left behind.
   */
  lemma CleanRunLeavesOnlyForwarding(w: World, pid: int)
    requires w.globals == UNSET && FreshHost(w.host) && w.host.refused == {} && !w.host.exitTearsDownPeers
    ensures Supervise(w, pid).1 == Done
    ensures Supervise(w, pid).0.globals == ALL_SET
    ensures Supervise(w, pid).0.host == Forwarding(w.host)
  {
    BodyOnFreshHost(w, pid);
    CleanupOfProvisionedHost(Body(w, pid).0, w.host, pid);
  }

  /** Whatever PID in range the intermediate process writes, the coordinator supervises exactly that PID. */
  lemma HandoffStartsSupervision(w: World, pid: int)
    requires 0 <= pid <= PidHandoff.PID_MAX_LIMIT
    ensures StartContainer(w, PidHandoff.EncodePid(pid)) == Supervise(w, pid)
  {
    PidHandoff.HandoffDeliversPid(pid);
  }

  /** The clean run, started from the bytes the intermediate process writes. */
  lemma CleanStartLeavesOnlyForwarding(w: World, pid: int)
    requires w.globals == UNSET && FreshHost(w.host) && w.host.refused == {} && !w.host.exitTearsDownPeers
    requires 0 <= pid <= PidHandoff.PID_MAX_LIMIT
    ensures StartContainer(w, PidHandoff.EncodePid(pid)).1 == Done
    ensures StartContainer(w, PidHandoff.EncodePid(pid)).0.host == Forwarding(w.host)
  {
    HandoffStartsSupervision(w, pid);
    CleanRunLeavesOnlyForwarding(w, pid);
  }

  /**
    A handoff that is empty (the writer closed without writing) or holds
    only whitespace raises before anything is issued or recorded.
   */
  lemma BlankHandoffConfiguresNothing(w: World, written: seq<byte>)
    requires forall i :: 0 <= i < |written| ==> written[i] < 128 && PyText.IsSpace(written[i] as char)
    ensures StartContainer(w, written).0 == w
    ensures StartContainer(w, written).1.Raised? && StartContainer(w, written).1.failure.BadHandoff?
  {
    PidHandoff.BlankHandoffFails(written);
  }

  /**
    When the host refuses the deletion of the host-side interface, the
    network cleanup raises and the NAT cleanup never runs: the cgroup is
    gone, but all three rules stay in their chains after the run.
   */
  lemma RefusedLinkDeleteLeavesRules(w: World, pid: int)
    requires w.globals == UNSET && FreshHost(w.host)
    requires LinkDelete(VETH_HOST) in w.host.refused && RemoveDir(CGROUP_DIR) !in w.host.refused
    requires !w.host.exitTearsDownPeers
    ensures Supervise(w, pid).1 == Raised(StepFailed(LinkDelete(VETH_HOST)))
    ensures CGROUP_DIR !in Supervise(w, pid).0.host.cgroups
    ensures Supervise(w, pid).0.host.postrouting == w.host.postrouting + [MasqueradeRule(VETH_HOST)]
    ensures Supervise(w, pid).0.host.forward == w.host.forward + [ForwardInRule(VETH_HOST), ForwardOutRule(VETH_HOST)]
  {
    BodyOnFreshHost(w, pid);
    var b := Body(w, pid).0;
    assert b.host.refused == w.host.refused && b.host.containerExited;
    assert b.host.postrouting == w.host.postrouting + [MasqueradeRule(VETH_HOST)];
    assert b.host.forward == w.host.forward + [ForwardInRule(VETH_HOST), ForwardOutRule(VETH_HOST)];
    CleanupWhenLinkDeleteFails(b);
  }

  /**
    A run on a fresh host in which no step is refused, but in which the
    container's exit has torn down the veth pair before the wait returns:
    `ip link delete` finds no interface and raises, so the NAT cleanup never
    runs and all three rules stay in their chains; the cgroup is removed.
   */
  lemma TornDownPairLeaksRules(w: World, pid: int)
    requires w.globals == UNSET && FreshHost(w.host) && w.host.refused == {} && w.host.exitTearsDownPeers
    ensures Supervise(w, pid).1 == Raised(StepFailed(LinkDelete(VETH_HOST)))
    ensures CGROUP_DIR !in Supervise(w, pid).0.host.cgroups
    ensures VETH_HOST !in Supervise(w, pid).0.host.links && VETH_CONTAINER !in Supervise(w, pid).0.host.links
    ensures Supervise(w, pid).0.host.postrouting == w.host.postrouting + [MasqueradeRule(VETH_HOST)]
    ensures Supervise(w, pid).0.host.forward == w.host.forward + [ForwardInRule(VETH_HOST), ForwardOutRule(VETH_HOST)]
  {
    BodyOnFreshHostWithPairTornDown(w, pid);
    var b := Body(w, pid).0;
    assert b.host.refused == w.host.refused && b.host.containerExited;
    CleanupWhenLinkDeleteFails(b);
  }

  /** The same run started from the bytes the intermediate process writes: it ends with the three rules leaked. */
  lemma CleanStartWithTornDownPairLeaksRules(w: World, pid: int)
    requires w.globals == UNSET && FreshHost(w.host) && w.host.refused == {} && w.host.exitTearsDownPeers
    requires 0 <= pid <= PidHandoff.PID_MAX_LIMIT
    ensures StartContainer(w, PidHandoff.EncodePid(pid)).1 == Raised(StepFailed(LinkDelete(VETH_HOST)))
    ensures StartContainer(w, PidHandoff.EncodePid(pid)).0.host.postrouting == w.host.postrouting + [MasqueradeRule(VETH_HOST)]
    ensures StartContainer(w, PidHandoff.EncodePid(pid)).0.host.forward
         == w.host.forward + [ForwardInRule(VETH_HOST), ForwardOutRule(VETH_HOST)]
  {
    HandoffStartsSupervision(w, pid);
    TornDownPairLeaksRules(w, pid);
  }

  /**
    Cleanup when `ip link delete` fails, because the host refuses it or the
    interface is already gone, on a host where the cgroup is not busy: the
    cgroup goes, the error propagates, and the interfaces and chains stay as
    they were.
   */
  lemma CleanupWhenLinkDeleteFails(b: World)
    requires b.globals == ALL_SET && RemoveDir(CGROUP_DIR) !in b.host.refused && !Busy(b.host, CGROUP_DIR)
    requires LinkDelete(VETH_HOST) in b.host.refused || VETH_HOST !in b.host.links
    ensures Cleanup(b).1 == Raised(StepFailed(LinkDelete(VETH_HOST)))
    ensures Cleanup(b).0.host.cgroups == b.host.cgroups - {CGROUP_DIR}
    ensures Cleanup(b).0.host.links == b.host.links
    ensures Cleanup(b).0.host.postrouting == b.host.postrouting
    ensures Cleanup(b).0.host.forward == b.host.forward
  {
    var c1 := CleanupCgroups(b);
    if CGROUP_DIR in b.host.cgroups {
      assert c1.host.cgroups == b.host.cgroups - {CGROUP_DIR};
    } else {
      assert c1.host.cgroups == b.host.cgroups;
    }
    assert c1.host.postrouting == b.host.postrouting && c1.host.forward == b.host.forward;
    assert c1.host.refused == b.host.refused && c1.host.links == b.host.links;
    assert CleanupNetwork(c1) == (c1.(issued := c1.issued + [LinkDelete(VETH_HOST)]), Raised(StepFailed(LinkDelete(VETH_HOST))));
  }

  /**
    A second cleanup after a clean run raises (the host-side interface is
    already gone), skips the NAT cleanup, and changes nothing on the host.
   */
  lemma SecondCleanupRaises(w: World, pid: int)
    requires w.globals == UNSET && FreshHost(w.host) && w.host.refused == {} && !w.host.exitTearsDownPeers
    ensures Cleanup(Supervise(w, pid).0).1 == Raised(StepFailed(LinkDelete(VETH_HOST)))
    ensures Cleanup(Supervise(w, pid).0).0.host == Supervise(w, pid).0.host
  {
    CleanRunLeavesOnlyForwarding(w, pid);
    CleanupOfCleanedHost(Supervise(w, pid).0);
  }

  /**
    Cleanup with every global recorded on a host that no longer has the
    cgroup or the host-side interface: the removal of the cgroup fails
    quietly, the interface deletion raises, and the host is unchanged.
   */
  lemma CleanupOfCleanedHost(s: World)
    requires s.globals == ALL_SET && CGROUP_DIR !in s.host.cgroups && VETH_HOST !in s.host.links
    ensures Cleanup(s).1 == Raised(StepFailed(LinkDelete(VETH_HOST)))
    ensures Cleanup(s).0.host == s.host
  {
    assert CleanupCgroups(s).host == s.host;
  }

  /**
    A failure in forwarding or limits, before any interface name is recorded,
    is replaced by a TypeError from `cleanup_nat`, and cleanup leaves the host
    as the failure left it: a cgroup directory created before the failing
    write is not removed, since CGROUP_PATH was never recorded.
   */
  lemma EarlyFailureEndsInTypeError(w: World, pid: int)
    requires w.globals == UNSET && ThroughLimits(w, pid).1.Raised?
    ensures Supervise(w, pid).1 == Raised(NoneArgument)
    ensures Supervise(w, pid).0.host == ThroughLimits(w, pid).0.host
  {
    var p := ThroughLimits(w, pid);
    assert p.0.globals == UNSET;
    assert Body(w, pid) == p;
  }

  /** For instance, a refused quota write leaves the freshly created cgroup directory behind. */
  lemma RefusedQuotaWriteLeaksCgroup(w: World, pid: int)
    requires w.globals == UNSET && CGROUP_DIR !in w.host.cgroups
    requires w.host.refused == {WriteFile(CGROUP_DIR, "cpu.max", CPU_MAX)}
    ensures Supervise(w, pid).1 == Raised(NoneArgument)
    ensures CGROUP_DIR in Supervise(w, pid).0.host.cgroups
  {
    var p1 := EnableIpForwarding(w);
    assert p1.1.Done?;
    var q1 := Run(p1.0, MakeDirs(CGROUP_DIR));
    assert q1.1.Done? && CGROUP_DIR in q1.0.host.cgroups;
    assert ThroughLimits(w, pid).0.host == q1.0.host;
    EarlyFailureEndsInTypeError(w, pid);
  }

  /** Forwarding and limits leave the interfaces, the refusals, the container and the interface names alone. */
  lemma ThroughLimitsFrame(w: World, pid: int)
    ensures ThroughLimits(w, pid).0.host.links == w.host.links
    ensures ThroughLimits(w, pid).0.host.refused == w.host.refused
    ensures ThroughLimits(w, pid).0.host.containerExited == w.host.containerExited
    ensures ThroughLimits(w, pid).0.globals.vethHost == w.globals.vethHost
    ensures w.globals.WellFormed() ==> ThroughLimits(w, pid).0.globals.WellFormed()
  {
    var p1 := EnableIpForwarding(w);
    if p1.1.Done? {
      var q1 := Run(p1.0, MakeDirs(CGROUP_DIR));
      var q2 := Then(q1, WriteFile(CGROUP_DIR, "cpu.max", CPU_MAX));
      var q3 := Then(q2, WriteFile(CGROUP_DIR, "cgroup.procs", PidHandoff.DecimalString(pid)));
      assert q3.0.host.links == w.host.links && q3.0.host.refused == w.host.refused;
      assert q3.0.host.containerExited == w.host.containerExited;
    }
  }

  /** An interface table in which the host end, if present, is paired with the container end, which never outlives it. */
  predicate VethPaired(links: map<string, string>) {
    && (VETH_CONTAINER in links ==> VETH_HOST in links)
    && (VETH_HOST in links ==> links[VETH_HOST] == VETH_CONTAINER)
  }

  /** `setup_network` keeps the pairing however far it gets, and keeps the refusals, the cgroups and the container. */
  lemma SetupNetworkFrame(w: World, pid: int)
    ensures VethPaired(w.host.links) ==> VethPaired(SetupNetwork(w, pid).0.host.links)
    ensures SetupNetwork(w, pid).0.host.refused == w.host.refused
    ensures SetupNetwork(w, pid).0.host.cgroups == w.host.cgroups
    ensures SetupNetwork(w, pid).0.host.containerExited == w.host.containerExited
  {
    var w0 := w.(globals := w.globals.(vethHost := Some(VETH_HOST), vethContainer := Some(VETH_CONTAINER)));
    var p1 := Run(w0, LinkAddVeth(VETH_HOST, VETH_CONTAINER));
    var p2 := Then(p1, LinkSetNetns(VETH_CONTAINER, pid));
    assert VethPaired(w.host.links) ==> VethPaired(p2.0.host.links);
    assert p2.0.host.refused == w.host.refused;
    assert p2.0.host.cgroups == w.host.cgroups && p2.0.host.containerExited == w.host.containerExited;
  }

  /** `setup_nat` changes only the two chains. */
  lemma SetupNatFrame(w: World)
    ensures SameOutsideChains(SetupNat(w).0.host, w.host)
  {
    if w.globals.vethHost.Some? {
      var v := w.globals.vethHost.value;
      var p1 := Run(w, Append(NatPostrouting, MasqueradeRule(v)));
      var p2 := Then(p1, Append(FilterForward, ForwardInRule(v)));
      assert SameOutsideChains(p2.0.host, w.host);
    }
  }

  /** Through `setup_network`: pairing and refusals kept; VETH_HOST recorded, or the interfaces as they were. */
  lemma ThroughNetworkFrame(w: World, pid: int)
    ensures VethPaired(w.host.links) ==> VethPaired(ThroughNetwork(w, pid).0.host.links)
    ensures ThroughNetwork(w, pid).0.host.refused == w.host.refused
    ensures || ThroughNetwork(w, pid).0.globals.vethHost == Some(VETH_HOST)
            || (ThroughNetwork(w, pid).0.globals.vethHost == w.globals.vethHost
                && ThroughNetwork(w, pid).0.host.links == w.host.links)
    ensures w.globals.WellFormed() ==> ThroughNetwork(w, pid).0.globals.WellFormed()
  {
    ThroughLimitsFrame(w, pid);
    var p := ThroughLimits(w, pid);
    if p.1.Done? {
      SetupNetworkFrame(p.0, pid);
    }
  }

  /**
    However far the `try` block gets, the veth pairing and the refusals
    survive it, and either VETH_HOST is recorded or the interfaces are as
    they were. When the block completes, CGROUP_PATH is recorded and the
    container has exited.
   */
  lemma BodyFrame(w: World, pid: int)
    ensures VethPaired(w.host.links) ==> VethPaired(Body(w, pid).0.host.links)
    ensures Body(w, pid).0.host.refused == w.host.refused
    ensures || Body(w, pid).0.globals.vethHost == Some(VETH_HOST)
            || (Body(w, pid).0.globals.vethHost == w.globals.vethHost && Body(w, pid).0.host.links == w.host.links)
    ensures w.globals.WellFormed() ==> Body(w, pid).0.globals.WellFormed()
    ensures Body(w, pid).1.Done? ==> Body(w, pid).0.globals.cgroupPath == Some(CGROUP_DIR) && Body(w, pid).0.host.containerExited
  {
    ThroughNetworkFrame(w, pid);
    var q := ThroughNetwork(w, pid);
    SetupNatFrame(q.0);
    var r := ThroughNat(w, pid);
    assert r.0.host.links == q.0.host.links && r.0.host.refused == q.0.host.refused && r.0.globals == q.0.globals;
    WaitChildFrame(r);
    if r.1.Done? {
      assert ThroughLimits(w, pid).1.Done? && q.1.Done?;
    }
  }

  /**
    Once `limit_resources` has completed, the cgroup path stays recorded,
    and if the rest of the `try` block raises, the wait was never reached
    (or failed): the container and the cgroups are as `limit_resources`
    left them.
   */
  lemma AfterLimitsFrame(w: World, pid: int)
    requires ThroughLimits(w, pid).1.Done?
    ensures Body(w, pid).0.globals.cgroupPath == Some(CGROUP_DIR)
    ensures Body(w, pid).1.Raised? ==>
      && Body(w, pid).0.host.cgroups == ThroughLimits(w, pid).0.host.cgroups
      && Body(w, pid).0.host.containerExited == w.host.containerExited
  {
    ThroughLimitsFrame(w, pid);
    var p := ThroughLimits(w, pid);
    assert p.0.globals.cgroupPath == Some(CGROUP_DIR);
    SetupNetworkFrame(p.0, pid);
    var q := ThroughNetwork(w, pid);
    assert q.0.globals.cgroupPath == Some(CGROUP_DIR);
    assert q.0.host.cgroups == p.0.host.cgroups && q.0.host.containerExited == w.host.containerExited;
    SetupNatFrame(q.0);
    var r := ThroughNat(w, pid);
    assert r.0.host.cgroups == p.0.host.cgroups && r.0.host.containerExited == w.host.containerExited;
    WaitChildFrame(r);
  }

  /** `cleanup_network` and `cleanup_nat` leave the cgroups alone, and `cleanup_nat` the interfaces too. */
  lemma TeardownFrame(w: World)
    ensures CleanupNetwork(w).0.host.cgroups == w.host.cgroups
    ensures CleanupNat(w).0.host.cgroups == w.host.cgroups
    ensures CleanupNat(w).0.host.links == w.host.links
  {
    if w.globals.vethHost.Some? {
      var v := w.globals.vethHost.value;
      var p1 := Run(w, Delete(NatPostrouting, MasqueradeRule(v)));
      var p2 := Then(p1, Delete(FilterForward, ForwardInRule(v)));
      assert p2.0.host.links == w.host.links && p2.0.host.cgroups == w.host.cgroups;
    }
  }

  /**
    With CGROUP_PATH recorded, its removal accepted and the cgroup not busy,
    no cgroup directory survives cleanup, whatever else fails.
   */
  lemma CleanupRemovesRecordedCgroup(w: World)
    requires w.globals.cgroupPath == Some(CGROUP_DIR) && RemoveDir(CGROUP_DIR) !in w.host.refused
    requires !Busy(w.host, CGROUP_DIR)
    ensures CGROUP_DIR !in Cleanup(w).0.host.cgroups
  {
    var c1 := CleanupCgroups(w);
    assert CGROUP_DIR !in c1.host.cgroups;
    TeardownFrame(c1);
    TeardownFrame(CleanupNetwork(c1).0);
  }

  /** With VETH_HOST recorded, the pairing kept and the deletion accepted, neither end of the pair survives cleanup. */
  lemma CleanupRemovesVethPair(w: World)
    requires w.globals.vethHost == Some(VETH_HOST) && VethPaired(w.host.links)
    requires LinkDelete(VETH_HOST) !in w.host.refused
    ensures VETH_HOST !in Cleanup(w).0.host.links && VETH_CONTAINER !in Cleanup(w).0.host.links
  {
    var c1 := CleanupCgroups(w);
    assert c1.host.links == w.host.links && c1.host.refused == w.host.refused;
    var c2 := CleanupNetwork(c1);
    assert VETH_HOST !in c2.0.host.links && VETH_CONTAINER !in c2.0.host.links;
    TeardownFrame(c2.0);
  }

  /**
    Starting with no interface name recorded and neither interface present,
    a run leaves neither end of the veth pair behind, whichever setup step
    failed, as long as the host accepts the deletion.
   */
  lemma SuperviseRemovesVethPair(w: World, pid: int)
    requires w.globals.vethHost == None && VETH_HOST !in w.host.links && VETH_CONTAINER !in w.host.links
    requires LinkDelete(VETH_HOST) !in w.host.refused
    ensures VETH_HOST !in Supervise(w, pid).0.host.links && VETH_CONTAINER !in Supervise(w, pid).0.host.links
  {
    BodyFrame(w, pid);
    var b := Body(w, pid).0;
    if b.globals.vethHost == Some(VETH_HOST) {
      CleanupRemovesVethPair(b);
    } else {
      var c1 := CleanupCgroups(b);
      assert c1.host.links == w.host.links;
      TeardownFrame(c1);
    }
  }

  /**
    A run whose `try` block completes, so that the wait has returned and
    the container has exited, leaves no cgroup directory behind, as long as
    the host accepts its removal.
   */
  lemma SuperviseRemovesRecordedCgroup(w: World, pid: int)
    requires RemoveDir(CGROUP_DIR) !in w.host.refused
    ensures Body(w, pid).1.Done? ==> CGROUP_DIR !in Supervise(w, pid).0.host.cgroups
  {
    BodyFrame(w, pid);
    var b := Body(w, pid);
    if b.1.Done? {
      CleanupRemovesRecordedCgroup(b.0);
    }
  }

  /**
    A run whose `try` block raises after `limit_resources` (in
    `setup_network`, in `setup_nat` or at the wait) skips the wait, so the
    container is still running when `cleanup_cgroups` calls `rmdir`. The
    kernel refuses to remove a cgroup with a member, `cleanup_cgroups`
    swallows the error, and the cgroup directory is left exactly as
    `limit_resources` made it.
   */
  lemma LateFailureLeaksCgroup(w: World, pid: int)
    requires !w.host.containerExited
    requires ThroughLimits(w, pid).1.Done? && Body(w, pid).1.Raised?
    ensures Supervise(w, pid).1.Raised?
    ensures CGROUP_DIR in Supervise(w, pid).0.host.cgroups
    ensures Supervise(w, pid).0.host.cgroups == ThroughLimits(w, pid).0.host.cgroups
  {
    AfterLimitsFrame(w, pid);
    var b := Body(w, pid).0;
    assert Busy(b.host, CGROUP_DIR);
    var c1 := CleanupCgroups(b);
    assert c1.host == b.host;
    TeardownFrame(c1);
    TeardownFrame(CleanupNetwork(c1).0);
  }

  /**
    For instance, a host that refuses to move the container end of the veth
    pair into the container's namespace: `setup_network` raises, and the
    cgroup directory outlives the run.
   */
  lemma RefusedNetnsMoveLeaksCgroup(w: World, pid: int)
    requires !w.host.containerExited && CGROUP_DIR !in w.host.cgroups
    requires VETH_HOST !in w.host.links && VETH_CONTAINER !in w.host.links
    requires LimitsAccepted(w.host, pid) && LinkAddVeth(VETH_HOST, VETH_CONTAINER) !in w.host.refused
    requires LinkSetNetns(VETH_CONTAINER, pid) in w.host.refused
    ensures CGROUP_DIR in Supervise(w, pid).0.host.cgroups
  {
    ThroughLimitsAccepted(w, pid);
    ThroughLimitsFrame(w, pid);
    var p := ThroughLimits(w, pid);
    var n1 := Run(p.0.(globals := p.0.globals.(vethHost := Some(VETH_HOST), vethContainer := Some(VETH_CONTAINER))),
                  LinkAddVeth(VETH_HOST, VETH_CONTAINER));
    assert n1.1.Done?;
    assert ThroughNetwork(w, pid).1.Raised?;
    LateFailureLeaksCgroup(w, pid);
  }

  /**
    An interface already named `veth0` makes `ip link add` fail; since the
    name was recorded first, cleanup deletes that pre-existing interface, and
    `cleanup_nat` then fails on the rule that was never added, replacing the
    original error.
   */
  lemma PreexistingHostInterfaceDeleted(w: World, pid: int)
    requires w.globals == UNSET && w.host.refused == {} && CGROUP_DIR !in w.host.cgroups
    requires VETH_HOST in w.host.links && NatRulesAbsent(w.host, VETH_HOST)
    ensures Supervise(w, pid).1 == Raised(StepFailed(Delete(NatPostrouting, MasqueradeRule(VETH_HOST))))
    ensures VETH_HOST !in Supervise(w, pid).0.host.links
  {
    ThroughLimitsFrame(w, pid);
    ThroughLimitsAccepted(w, pid);
    var p := ThroughLimits(w, pid);
    var n := ThroughNetwork(w, pid);
    assert n.1.Raised? && n.0.host == p.0.host && n.0.globals.vethHost == Some(VETH_HOST);
    WaitChildFrame(ThroughNat(w, pid));
    CleanupAfterRefusedVethAdd(Body(w, pid).0);
  }

  /** The host accepts the steps of `enable_ip_forwarding` and `limit_resources`. */
  predicate LimitsAccepted(h: Host, pid: int) {
    && Sysctl(IP_FORWARD, "1") !in h.refused
    && MakeDirs(CGROUP_DIR) !in h.refused && WriteFile(CGROUP_DIR, "cpu.max", CPU_MAX) !in h.refused
    && WriteFile(CGROUP_DIR, "cgroup.procs", PidHandoff.DecimalString(pid)) !in h.refused
  }

  /** Forwarding and limits succeed on a host that accepts their steps and lacks the cgroup. */
  lemma ThroughLimitsAccepted(w: World, pid: int)
    requires LimitsAccepted(w.host, pid) && CGROUP_DIR !in w.host.cgroups
    ensures ThroughLimits(w, pid).1.Done? && ThroughLimits(w, pid).0.host.postrouting == w.host.postrouting
  {
    var p1 := EnableIpForwarding(w);
    assert p1.1.Done?;
    LimitResourcesOnFreshHost(p1.0, pid);
  }

  /** Cleanup with VETH_HOST recorded, that interface present, and no NAT rule installed. */
  lemma CleanupAfterRefusedVethAdd(b: World)
    requires b.globals.vethHost == Some(VETH_HOST) && b.host.refused == {}
    requires VETH_HOST in b.host.links && MasqueradeRule(VETH_HOST) !in b.host.postrouting
    ensures Cleanup(b).1 == Raised(StepFailed(Delete(NatPostrouting, MasqueradeRule(VETH_HOST))))
    ensures VETH_HOST !in Cleanup(b).0.host.links
  {
    var c1 := CleanupCgroups(b);
    assert c1.host.links == b.host.links && c1.host.postrouting == b.host.postrouting && c1.host.refused == {};
    var c2 := CleanupNetwork(c1);
    assert c2.1.Done? && VETH_HOST !in c2.0.host.links && c2.0.host.postrouting == b.host.postrouting;
    assert CleanupNat(c2.0).1 == Raised(StepFailed(Delete(NatPostrouting, MasqueradeRule(VETH_HOST))));
  }
}
