/**
  The host state the coordinator changes, as far as the container lifecycle
  touches it, and the effect of each external step on it: sysctl settings,
  cgroup directories with their files, host-namespace network interfaces,
  and the two iptables chains the container uses. Every step can be refused
  (missing privilege, a busy device); some also fail on their own, as the
  kernel or iptables would.
 */
module Host {
  import opened Common

  /** The two chains the container's rules live in. */
  datatype Chain = NatPostrouting | FilterForward

  /** An interface match of an iptables rule: none, `-i/-o name`, or `! -o name`. */
  datatype IfaceMatch = AnyIface | Is(name: string) | IsNot(name: string)

  /** An iptables rule: source match, in- and out-interface matches, and the jump target. */
  datatype Rule = Rule(source: Option<string>, inIface: IfaceMatch, outIface: IfaceMatch, target: string)

  /** One external step run by the coordinator. */
  datatype Step =
    | Sysctl(key: string, value: string)                  // sysctl -w key=value
    | MakeDirs(path: string)                              // os.makedirs(path, exist_ok=True)
    | WriteFile(dir: string, name: string, text: string)  // open(dir/name, "w").write(text)
    | RemoveDir(path: string)                             // os.rmdir(path)
    | LinkAddVeth(name: string, peer: string)             // ip link add name type veth peer name peer
    | LinkSetNetns(name: string, pid: int)                // ip link set name netns pid
    | IpConfig(netnsOf: Option<int>, args: seq<string>)   // ip args, through nsenter --net=/proc/pid/ns/net if netnsOf
    | LinkDelete(name: string)                            // ip link delete name
    | Append(chain: Chain, rule: Rule)                    // iptables [-t nat] -A chain rule
    | Delete(chain: Chain, rule: Rule)                    // iptables [-t nat] -D chain rule
    | WaitChild                                           // os.waitpid on the intermediate process

  datatype Host = Host(
    sysctl: map<string, string>,
    cgroups: map<string, map<string, string>>,  // cgroup directory -> file name -> contents
    links: map<string, string>,                 // host-namespace interface -> its veth peer
    postrouting: seq<Rule>,                     // nat table, POSTROUTING chain
    forward: seq<Rule>,                         // filter table, FORWARD chain
    refused: set<Step>,                         // steps this host rejects
    exitTearsDownPeers: bool,                   // see `Apply` of `WaitChild`
    containerExited: bool)                      // the container's processes are gone
  {
    function Rules(c: Chain): seq<Rule> {
      match c
      case NatPostrouting => postrouting
      case FilterForward => forward
    }

    function WithRules(c: Chain, rs: seq<Rule>): (h: Host)
      ensures h.Rules(c) == rs
      ensures forall other :: other != c ==> h.Rules(other) == Rules(other)
      ensures h.sysctl == sysctl && h.cgroups == cgroups && h.links == links
      ensures h.refused == refused && h.exitTearsDownPeers == exitTearsDownPeers
      ensures h.containerExited == containerExited
    {
      match c
      case NatPostrouting => this.(postrouting := rs)
      case FilterForward => this.(forward := rs)
    }
  }

  /** The chain without its first occurrence of `r` (what `iptables -D` removes). */
  function RemoveFirst(rs: seq<Rule>, r: Rule): (out: seq<Rule>)
    requires r in rs
    ensures |out| == |rs| - 1
  {
    if rs[0] == r then rs[1..] else [rs[0]] + RemoveFirst(rs[1..], r)
  }

  /** `RemoveFirst` cuts the chain at the first position holding `r` and splices the two sides together. */
  lemma {:induction false} RemoveFirstIsSplice(rs: seq<Rule>, r: Rule) returns (i: nat)
    requires r in rs
    ensures i < |rs| && rs[i] == r && r !in rs[..i]
    ensures RemoveFirst(rs, r) == rs[..i] + rs[i + 1..]
  {
    if rs[0] == r {
      i := 0;
    } else {
      var k := RemoveFirstIsSplice(rs[1..], r);
      i := k + 1;
      assert rs[..i] == [rs[0]] + rs[1..][..k];
      assert rs[i + 1..] == rs[1..][k + 1..];
    }
  }

  /**
    A cgroup directory the kernel will not remove (EBUSY): a process was
    placed in it through `cgroup.procs` and the container has not exited.
   */
  predicate Busy(h: Host, p: string) {
    !h.containerExited && p in h.cgroups && "cgroup.procs" in h.cgroups[p]
  }

  /**
    The effect of one step, or None when it fails: a refused step; a write
    into or removal of a directory that does not exist; removal of a busy
    cgroup; a veth pair whose names are taken; moving or deleting an
    interface the host namespace does not have; deleting a rule the chain
    does not hold.

    Waiting for the intermediate process returns once the container has
    exited. Its network namespace then goes away, and with it the veth end
    inside and that end's host-side peer; the kernel does this
    asynchronously, so whether it has happened by the time the wait returns
    is a race the coordinator does not control. `exitTearsDownPeers` says
    which way the race went on this host.
   */
  function Apply(h: Host, s: Step): (r: Option<Host>)
    ensures s in h.refused ==> r.None?
    ensures s.RemoveDir? && Busy(h, s.path) ==> r.None?
    ensures r.Some? ==> r.value.refused == h.refused && r.value.exitTearsDownPeers == h.exitTearsDownPeers
    ensures r.Some? && s != WaitChild ==> r.value.containerExited == h.containerExited
    ensures r.Some? && s == WaitChild ==> r.value.containerExited
  {
    if s in h.refused then None
    else match s
      case Sysctl(k, v) => Some(h.(sysctl := h.sysctl[k := v]))
      case MakeDirs(p) => Some(if p in h.cgroups then h else h.(cgroups := h.cgroups[p := map[]]))
      case WriteFile(d, f, t) =>
        if d in h.cgroups then Some(h.(cgroups := h.cgroups[d := h.cgroups[d][f := t]])) else None
      case RemoveDir(p) => if p in h.cgroups && !Busy(h, p) then Some(h.(cgroups := h.cgroups - {p})) else None
      case LinkAddVeth(a, b) =>
        if a == b || a in h.links || b in h.links then None
        else Some(h.(links := h.links[a := b][b := a]))
      case LinkSetNetns(b, _) => if b in h.links then Some(h.(links := h.links - {b})) else None
      case IpConfig(_, _) => Some(h)
      case LinkDelete(a) => if a in h.links then Some(h.(links := h.links - {a, h.links[a]})) else None
      case Append(c, rule) => Some(h.WithRules(c, h.Rules(c) + [rule]))
      case Delete(c, rule) => if rule in h.Rules(c) then Some(h.WithRules(c, RemoveFirst(h.Rules(c), rule))) else None
      case WaitChild =>
        var exited := h.(containerExited := true);
        Some(if h.exitTearsDownPeers then exited.(links := Reaped(h.links)) else exited)
  }

  /**
    The host interfaces left once the namespace their peers were moved into
    is gone: the kernel destroys a veth end together with its namespace, and
    its peer with it. The model has one such namespace, the container's.
   */
  function Reaped(links: map<string, string>): map<string, string> {
    map a | a in links && links[a] in links :: links[a]
  }

  /** Deleting a rule takes exactly one copy of it out of the chain. */
  lemma {:induction false} RemoveFirstMultiset(rs: seq<Rule>, r: Rule)
    requires r in rs
    ensures multiset(RemoveFirst(rs, r)) == multiset(rs) - multiset{r}
  {
    if rs[0] != r {
      RemoveFirstMultiset(rs[1..], r);
      assert rs == [rs[0]] + rs[1..];
    } else {
      assert rs == [rs[0]] + rs[1..];
    }
  }

  /** Deleting one rule leaves every different rule of the chain in place. */
  lemma RemoveFirstKeepsOthers(rs: seq<Rule>, r: Rule, other: Rule)
    requires r in rs && other in rs && other != r
    ensures other in RemoveFirst(rs, r)
  {
    RemoveFirstMultiset(rs, r);
    assert other in multiset(rs);
  }

  /** Deleting a rule that the front part of a chain lacks only touches the back part. */
  lemma {:induction false} RemoveFirstSkipsPrefix(front: seq<Rule>, back: seq<Rule>, r: Rule)
    requires r !in front && r in back
    ensures RemoveFirst(front + back, r) == front + RemoveFirst(back, r)
    decreases |front|
  {
    if front != [] {
      assert (front + back)[0] == front[0];
      assert (front + back)[1..] == front[1..] + back;
      RemoveFirstSkipsPrefix(front[1..], back, r);
      assert front == [front[0]] + front[1..];
    } else {
      assert front + back == back;
    }
  }

  /** Appending a rule and then deleting it restores the chain, when the rule was not already in it. */
  lemma AppendThenDelete(rs: seq<Rule>, r: Rule)
    requires r !in rs
    ensures RemoveFirst(rs + [r], r) == rs
  {
    RemoveFirstSkipsPrefix(rs, [r], r);
  }

  /**
    With an equal rule already in the chain, append-then-delete removes the
    older copy: the new copy stays, last in the chain.
   */
  lemma {:induction false} AppendThenDeleteMovesDuplicate(rs: seq<Rule>, r: Rule)
    requires r in rs
    ensures RemoveFirst(rs + [r], r) == RemoveFirst(rs, r) + [r]
  {
    assert (rs + [r])[0] == rs[0];
    if rs[0] != r {
      assert (rs + [r])[1..] == rs[1..] + [r];
      AppendThenDeleteMovesDuplicate(rs[1..], r);
    } else {
      assert (rs + [r])[1..] == rs[1..] + [r];
    }
  }
}
