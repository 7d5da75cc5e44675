# simple_docker, modelled in Dafny

simple_docker is a small container tool with two commands:

- `pull` fetches an image from Docker Hub and unpacks its layers into a root filesystem.
- `run` starts a shell inside new namespaces on that filesystem. Around the shell it provisions a cgroup, a veth pair and NAT rules, and it removes them again afterwards.

This project models the plain logic at the core of both commands and proves properties of it:

- **Image references** (`image_ref.dfy`, module `ImageRef`). `decode_image` splits `name[:tag]` at the first colon. A reference without a colon gets the tag `latest`.
- **Pull decisions** (`docker_pull.dfy`, module `DockerPull`):
  - how a platform is selected from a manifest list;
  - how a manifest response's media type is determined and classified;
  - where each layer archive is written (the chunked write is a loop);
  - the order in which layers are downloaded and unpacked (an action trace produced by a loop).

  HTTP, the token service and tar extraction are a `Registry` value that says what each request returns.
- **PID handoff** (`pid_handoff.dfy`, module `PidHandoff`). The intermediate process writes `str(pid).encode()`. The coordinator reads at most 1024 bytes, then decodes, strips and parses them.
- **Host state** (`host.dfy`, module `Host`). This is the part of the host the coordinator changes:
  - sysctl settings;
  - cgroup directories and their files;
  - host-namespace interfaces with their veth peers;
  - the nat/POSTROUTING and filter/FORWARD chains as rule sequences.

  Each external command is a `Step`. `Apply` gives a step's effect, or failure. A step fails when the host refuses it (the set `refused` stands for missing privilege, a busy device and the like), and also where the command itself would fail:
  - writing into or removing a directory that does not exist;
  - removing a cgroup directory whose `cgroup.procs` names a process while the container still runs (the kernel answers EBUSY);
  - creating a veth pair whose names are taken;
  - moving or deleting an interface that is not there;
  - `iptables -D` of a rule the chain does not hold.

  Waiting for the intermediate process is a step too. Once the container has exited, its network namespace goes away, and the kernel destroys `veth1` and its peer `veth0` with it. This happens asynchronously, so it may or may not have happened when the wait returns. The host flag `exitTearsDownPeers` says which way that race went. The host flag `containerExited` records that the container is gone; the wait sets it.
- **Coordinator lifecycle** (`lifecycle.dfy`, module `Lifecycle`). Each routine of `container_runtime.py` is a function over a `World`. A world holds the three module globals `CGROUP_PATH`, `VETH_HOST` and `VETH_CONTAINER`, the host, and the steps issued so far. A `check=True` step that fails raises and ends the routine. `cleanup_cgroups` swallows its error. The `try`/`finally` in `start_container` runs cleanup whatever the body did, and an exception from cleanup replaces the body's.
- **The coordinator object** (`container_runtime.dfy`, class `ContainerRuntime.Runtime`). The same routines appear as methods that update the globals and the host in place, step by step. Each is proved equal to its `Lifecycle` function.
- **Lifecycle properties** (`lifecycle_properties.dfy`, module `LifecycleProperties`):
  - NAT add/delete symmetry;
  - a clean run leaves nothing behind but IP forwarding, provided the veth pair is still there when the wait returns;
  - when the container's exit has already removed the pair, the same run raises in cleanup and leaves the three NAT rules installed;
  - veth removal whenever `VETH_HOST` was recorded and the host accepts `ip link delete veth0`, whichever setup step failed;
  - cgroup removal when the `try` block reached the wait and it returned; a failure after `limit_resources` leaves the cgroup behind;
  - the failure paths in which the code does not clean up.

`common.dfy` holds `Option`, `Result` and `byte`. `pytext.dfy` holds the Python string built-ins the core relies on: `str.find`, `str.lower` on ASCII, `str.replace` with an empty replacement, `str.strip` on ASCII whitespace, and `os.path.join`.

### Where cleanup is not best-effort

A best-effort cleanup would run every release step even if an earlier one fails, and a repeated teardown would change nothing and raise nothing. This code does not behave that way:

- `cleanup_network` runs `ip link delete` with `check=True`, so its failure propagates and `cleanup_nat` never runs. The three NAT rules stay installed (`RefusedLinkDeleteLeavesRules`).
- When the container's exit has torn down the veth pair before `os.waitpid` returns, `ip link delete veth0` finds nothing and raises, even though the host refused no step. `cleanup_nat` never runs, and the three NAT rules stay installed (`TornDownPairLeaksRules`, `CleanStartWithTornDownPairLeaksRules`).
- When `setup_network` or `setup_nat` raises, the `try` block never reaches `os.waitpid`, so the container is still running when `cleanup_cgroups` calls `os.rmdir`. A cgroup that still holds a process cannot be removed. The EBUSY error is swallowed, and the cgroup directory stays exactly as `limit_resources` made it (`LateFailureLeaksCgroup`, `RefusedNetnsMoveLeaksCgroup`).
- A second `cleanup` after a clean run raises `CalledProcessError` from `ip link delete`, although it changes nothing on the host (`SecondCleanupRaises`).
- `cleanup_nat` has no guard. If setup failed before `setup_network` recorded `VETH_HOST`, it passes `None` to `subprocess.run`. The resulting `TypeError` replaces the original error, and a cgroup directory created before a failed write is never removed, because `CGROUP_PATH` was not yet recorded (`EarlyFailureEndsInTypeError`, `RefusedQuotaWriteLeaksCgroup`).

Because `setup_network` records `veth0` before running `ip link add`, a pre-existing `veth0` makes setup fail and is then deleted by cleanup (`PreexistingHostInterfaceDeleted`).

## Model

| member | source | states |
|---|---|---|
| ImageRef.DecodeImage | utils.py:3-10 | Total on every string. The name never contains a colon. Without a colon the result is the whole input with tag `latest`. With a colon, name + ":" + tag is the input again, so the split is at the first colon. |
| ImageRef.JoinThenDecode | utils.py:5-6 | For every colon-free name and every tag, decoding `name:tag` gives back exactly that name and tag. |
| ImageRef.EmptyTagKept | utils.py:5-6 | `x:` decodes to tag "", not to `latest`. |
| ImageRef.LaterColonsStayInTag | utils.py:6 | Only the first colon splits: `host:5000:v1` has tag `5000:v1`. |
| DockerPull.FirstMatch | docker_pull.py:60-65 | Gives the index of the first entry whose lower-cased os and architecture equal the current ones, or None exactly when no entry matches. |
| DockerPull.DigestOf | docker_pull.py:65 | An entry's digest, or KeyError("digest") exactly when the entry has none. |
| DockerPull.SelectPlatformManifest | docker_pull.py:57-68 | An empty list is an IndexError. Otherwise the result is the digest of the first matching entry, or of entry 0 when none matches. A missing platform, os or architecture compares as "". A successful result is always the digest of some entry. |
| DockerPull.FetchResult | docker_pull.py:30-36 | A non-200 status raises with that status. Otherwise the result is the body, with media type equal to the body's `mediaType` when present and the `Content-Type` header otherwise. |
| DockerPull.Classify | docker_pull.py:75-88 | Index exactly for the Docker list and OCI index types. Single manifest exactly for the Docker v2 and OCI manifest types. |
| DockerPull.LayersOf | docker_pull.py:85-92 | Any type other than a single manifest raises "unsupported media type". A single manifest yields exactly its `layers`, or KeyError("layers") when it has none. |
| DockerPull.Resolve | docker_pull.py:72-92 | Fetches the tag first, and a failed tag fetch is the result. An index without `manifests` is a KeyError, and a failed platform selection is its error. Otherwise an index leads to exactly one more fetch, of the selected digest, and the result is that fetch's error or that manifest's layers. A non-index tag yields its own layers. Any layer list obtained comes from a single-image manifest, the last one fetched. |
| DockerPull.LayerFileIsTar | docker_pull.py:45 | Every layer archive's file name ends in `.tar`, whatever the digest. |
| DockerPull.LayerFileOfSha256 | docker_pull.py:45 | A `sha256:<hex>` digest is written to `<hex>.tar` in the given directory. |
| DockerPull.DownloadLayer | docker_pull.py:43-51 | Fails exactly on a non-200 status and then writes nothing. Otherwise the chunked loop writes exactly the blob's bytes, to the digest-derived file name. |
| DockerPull.LayerSteps | docker_pull.py:100-104 | The loop records at most two actions per layer, and exactly two per layer when it completes. |
| DockerPull.LayersInOrder | docker_pull.py:100-104 | A completed layer loop is, for layer i in manifest order, the download of its archive at position 2i and its extraction into the root filesystem at position 2i+1. |
| DockerPull.ExtractFollowsDownload | docker_pull.py:100-104 | Whatever the outcome, every extraction comes right after the download of the same archive. |
| DockerPull.PullLayers | docker_pull.py:100-104 | The loop's actions and outcome are those of the layer specification, stopping at the first failure. |
| DockerPull.PullSpec | docker_pull.py:70-104 | Every pull first requests a token. A refused token ends the pull there. A pull completes only if the token was granted and manifest resolution yielded a layer list. |
| DockerPull.Pull | docker_pull.py:70-104 | The pull's actions: token, manifest fetches, the two directories, then the layer loop, each stage reached only if nothing failed before it. |
| DockerPull.PullDownloadsResolvedLayers | docker_pull.py:70-104 | A completed pull has resolved to a single-image manifest, the last one fetched. After the token, the fetches and the two directories, its actions download and unpack exactly that manifest's layers, one after another, in order. |
| PidHandoff.Digits | container_runtime.py:72 | The decimal digits of a natural number: non-empty, all digits, and beginning with `0` exactly for zero, so there are no leading zeros. |
| PidHandoff.DecimalString | container_runtime.py:72 | `str(pid)` is non-empty ASCII with no whitespace at either end. |
| PidHandoff.EncodePid | container_runtime.py:72 | The written bytes are ASCII, one per character of `str(pid)`. |
| PidHandoff.ReadPipe | container_runtime.py:85 | One read returns a prefix of what was written, at most 1024 bytes, and all of it when fewer than 1024 bytes were written. |
| PidHandoff.ParseInt | container_runtime.py:87 | `int("")` fails. |
| PidHandoff.DecodePid | container_runtime.py:87 | Bytes that do not decode are an error. So is text that strips to nothing. What it returns for a written PID is stated by `HandoffRoundTrip`. |
| PidHandoff.DigitsValueOfDigits | container_runtime.py:72 | The digit string of n denotes n. |
| PidHandoff.ParseDecimalString | container_runtime.py:72-87 | `int(str(n)) == n` for every integer n. |
| PidHandoff.HandoffRoundTrip | container_runtime.py:72-87 | Decoding, stripping and parsing `str(pid).encode()` gives pid back, for every integer. |
| PidHandoff.HandoffDeliversPid | container_runtime.py:72-87 | For every PID Linux can assign, the single 1024-byte read returns the whole message, and it parses to that PID. |
| PidHandoff.BlankHandoffFails | container_runtime.py:85-87 | An empty or all-whitespace read is an error, never a PID. |
| Host.Apply | container_runtime.py:116-232 | A step the host refuses fails. An `rmdir` of a cgroup whose `cgroup.procs` names a process fails while the container has not exited. No step changes the host's refusals or the outcome of the teardown race. Every step but the wait keeps `containerExited`; after the wait the container has exited. |
| Host.RemoveFirst | container_runtime.py:207-212 | `iptables -D` removes one rule: the chain gets exactly one shorter. |
| Host.RemoveFirstIsSplice | container_runtime.py:207-212 | `iptables -D` cuts the chain at the first position holding the rule and joins the two sides. |
| Host.RemoveFirstMultiset | container_runtime.py:207-212 | Deleting a rule removes exactly one copy of it from the chain's multiset. |
| Host.AppendThenDelete | container_runtime.py:182-212 | Appending a rule the chain lacks and then deleting it restores the chain exactly. |
| Host.AppendThenDeleteMovesDuplicate | container_runtime.py:182-212 | For any chain that already holds the rule, append-then-delete removes the older copy, and the new one ends up last: the result is the chain without its first copy, followed by the rule. |
| Lifecycle.EnableIpForwarding | container_runtime.py:171-174 | One `sysctl` step, recorded. It succeeds exactly when the host accepts it, and then only `net.ipv4.ip_forward` changes, to "1". On failure the host is unchanged. No global changes. |
| Lifecycle.Run | container_runtime.py:143 | A `check=True` step is always recorded. It succeeds exactly when the host accepts it, and then the host takes the step's effect. Otherwise it raises and the host is unchanged. |
| Lifecycle.LimitResources | container_runtime.py:116-132 | On success, the cgroup directory holds `cpu.max` = "10000 100000" and `cgroup.procs` = str(pid), and CGROUP_PATH is recorded. On failure, no global changes. |
| Lifecycle.SetupNetwork | container_runtime.py:136-167 | VETH_HOST = veth0 and VETH_CONTAINER = veth1 are recorded however the routine ends. |
| Lifecycle.ConfigureLinks | container_runtime.py:148-167 | The five address, link and route commands run only if nothing raised before them. They change no modelled host state or global. They succeed whenever the host refuses none of them. |
| Lifecycle.SetupNat | container_runtime.py:176-188 | With VETH_HOST unset it raises a TypeError before running anything. It never changes a global. |
| Lifecycle.CleanupNat | container_runtime.py:203-212 | Unguarded: with VETH_HOST unset it raises a TypeError before running anything. |
| Lifecycle.CleanupCgroups | container_runtime.py:215-224 | With CGROUP_PATH unset it does nothing. Otherwise it issues one `rmdir`, whose failure leaves the host as it was and never raises. |
| Lifecycle.CleanupNetwork | container_runtime.py:226-232 | With VETH_HOST unset it completes without a step. Otherwise it deletes the host-side interface, and a failure raises. |
| Lifecycle.Supervise | container_runtime.py:91-98 | Cleanup runs on the body's final state whatever the body did. Cleanup's exception, if any, replaces the body's outcome. |
| Lifecycle.SetupFilesystem | container_runtime.py:101-106 | A missing root raises FileNotFoundError with no chroot. Otherwise it changes root and then changes directory to `/`. |
| LifecycleProperties.NatDeletesMirrorAppends | container_runtime.py:182-212 | After a successful `setup_nat`, `cleanup_nat` issues three deletions. Each has the same chain and rule as the append at the same position. |
| LifecycleProperties.NatSetupThenCleanup | container_runtime.py:182-212 | `cleanup_nat` after a successful `setup_nat` succeeds. Both chains hold the same rules as before, as multisets, and nothing outside the chains changes. |
| LifecycleProperties.NatSetupThenCleanupExact | container_runtime.py:182-212 | When the three rules were absent beforehand, setup then cleanup gives back the identical host, rule order included. |
| LifecycleProperties.SetupNatResult | container_runtime.py:182-188 | A successful `setup_nat` appends the masquerade rule to POSTROUTING and the in and out rules to FORWARD, and changes nothing else. |
| LifecycleProperties.CleanupNatResult | container_runtime.py:207-212 | With all three rules present, `cleanup_nat` removes the first copy of each and touches nothing outside the chains. |
| LifecycleProperties.LimitResourcesOnFreshHost | container_runtime.py:116-132 | Where the host accepts the steps, `limit_resources` creates the cgroup directory with exactly the quota and member files. |
| LifecycleProperties.SetupNetworkOnFreshHost | container_runtime.py:136-167 | Where the host accepts the steps, only the host end of the veth pair remains in the host namespace, peered with the container end. |
| LifecycleProperties.BodyOnFreshHost | container_runtime.py:91-96 | On a fresh host where the veth pair outlives the container's exit, every setup step succeeds. Every global is recorded, the host holds forwarding, the cgroup, the host-side interface and the three rules, and the container has exited. |
| LifecycleProperties.WaitChildTearsDown | container_runtime.py:96 | When the container's exit has torn down its namespace, the wait leaves only the interfaces whose peers are still in the host namespace, and records that the container has exited. |
| LifecycleProperties.WaitChildOnlyMarksExit | container_runtime.py:96 | When the veth pair outlives the container's exit, the wait changes nothing on the host except recording that the container has exited. |
| LifecycleProperties.WaitChildFrame | container_runtime.py:96 | The wait changes no global, and nothing on the host outside the interfaces and the exit flag. Afterwards the container counts as exited exactly when it already had or the wait returned. The veth pairing is kept, and so are the interfaces when the pair outlives the container. |
| LifecycleProperties.BodyOnFreshHostWithPairTornDown | container_runtime.py:91-96 | On a fresh host where the container's exit tears down the veth pair, every setup step still succeeds and every global is recorded. The host is provisioned, except that neither end of the pair is left. |
| LifecycleProperties.CleanupOfProvisionedHost | container_runtime.py:191-232 | Cleanup of a provisioned host whose container has exited succeeds and removes the cgroup, both interfaces and the three rules. |
| LifecycleProperties.ReleaseOfProvisionedHost | container_runtime.py:215-232 | On a provisioned host whose container has exited, `cleanup_cgroups` and `cleanup_network` succeed and remove the cgroup and both interfaces; only the three rules remain. |
| LifecycleProperties.CleanRunLeavesOnlyForwarding | container_runtime.py:91-98 | A run in which nothing fails, and in which the veth pair outlives the container's exit, completes. The host ends exactly as it began, except that IP forwarding is on and the container has exited. |
| LifecycleProperties.TornDownPairLeaksRules | container_runtime.py:91-201 | A run on a fresh host that refuses nothing, but whose veth pair is gone when the wait returns, raises from `ip link delete`. The cgroup and both interfaces are gone, and all three NAT rules remain at the end of their chains. |
| LifecycleProperties.HandoffStartsSupervision | container_runtime.py:84-98 | For every PID in range written by the intermediate process, the coordinator supervises exactly that PID. |
| LifecycleProperties.CleanStartLeavesOnlyForwarding | container_runtime.py:84-98 | The clean run, started from the handoff bytes, leaves only IP forwarding behind, with the container exited, when the veth pair outlives the container's exit. |
| LifecycleProperties.CleanStartWithTornDownPairLeaksRules | container_runtime.py:84-98 | Started from the handoff bytes, a run whose veth pair is torn down at the container's exit raises from `ip link delete` and leaves all three NAT rules installed. |
| LifecycleProperties.BlankHandoffConfiguresNothing | container_runtime.py:85-91 | An empty or blank handoff raises before any step is issued or any global is recorded. |
| LifecycleProperties.RefusedLinkDeleteLeavesRules | container_runtime.py:196-201 | If the host refuses `ip link delete` during cleanup but accepts the `rmdir`, the cgroup is still removed, the error propagates, and all three NAT rules remain. |
| LifecycleProperties.CleanupWhenLinkDeleteFails | container_runtime.py:191-201 | When `ip link delete` fails, refused or because the interface is already gone, cleanup of a host whose cgroup is not busy removes the cgroup, raises that failure, and leaves the interfaces and both chains as they were. |
| LifecycleProperties.SecondCleanupRaises | container_runtime.py:191-232 | A second cleanup after a clean run raises from `ip link delete` and changes nothing on the host. |
| LifecycleProperties.CleanupOfCleanedHost | container_runtime.py:191-232 | Cleanup on a host that no longer has the cgroup or the interface fails quietly on the cgroup, raises on the interface, and leaves the host unchanged. |
| LifecycleProperties.EarlyFailureEndsInTypeError | container_runtime.py:91-212 | A failure in forwarding or limits ends in a TypeError from `cleanup_nat`. Cleanup leaves the host as the failure left it. |
| LifecycleProperties.RefusedQuotaWriteLeaksCgroup | container_runtime.py:116-132 | A refused quota write leaves the newly created cgroup directory behind, and the run ends in a TypeError. |
| LifecycleProperties.ThroughLimitsFrame | container_runtime.py:116-132 | Forwarding and limits touch neither the interfaces, the container's state nor VETH_HOST. |
| LifecycleProperties.BodyFrame | container_runtime.py:91-96 | However far the body gets, the veth pairing survives. Either VETH_HOST is recorded, or the interfaces are as they were. When the body completes, CGROUP_PATH is recorded and the container has exited. |
| LifecycleProperties.CleanupRemovesRecordedCgroup | container_runtime.py:191-224 | With CGROUP_PATH recorded, `rmdir` accepted and the cgroup not busy, no cgroup directory survives cleanup, whatever else fails. |
| LifecycleProperties.CleanupRemovesVethPair | container_runtime.py:226-232 | With VETH_HOST recorded, `veth0` paired with `veth1` (or absent, with `veth1` absent too) and the deletion accepted, neither veth end survives cleanup. |
| LifecycleProperties.SuperviseRemovesRecordedCgroup | container_runtime.py:91-98 | A run whose `try` block completes, so that the wait has returned and the container has exited, leaves no cgroup directory behind when the host accepts the `rmdir`. |
| LifecycleProperties.AfterLimitsFrame | container_runtime.py:91-96 | Once `limit_resources` has completed, CGROUP_PATH stays recorded. If the rest of the body raises, the cgroups and the container's state are as `limit_resources` left them. |
| LifecycleProperties.LateFailureLeaksCgroup | container_runtime.py:91-98 | When the body raises after `limit_resources` on a host whose container is running, the run raises and the cgroup directory survives cleanup exactly as `limit_resources` made it: `rmdir` fails on the busy cgroup and `cleanup_cgroups` swallows the error. |
| LifecycleProperties.RefusedNetnsMoveLeaksCgroup | container_runtime.py:136-160 | A host that refuses to move `veth1` into the container's namespace makes `setup_network` raise, and the cgroup directory outlives the run. |
| LifecycleProperties.SuperviseRemovesVethPair | container_runtime.py:91-98 | Starting without either interface, no veth end survives a run in which the host accepts `ip link delete veth0`, whichever setup step failed. |
| LifecycleProperties.PreexistingHostInterfaceDeleted | container_runtime.py:139-143 | A pre-existing `veth0` makes `ip link add` fail, cleanup then deletes that interface, and the run ends in the `iptables -D` failure. |
| ContainerRuntime.Runtime.constructor | container_runtime.py:8-10 | All three globals start unset, and no step has been issued. |
| ContainerRuntime.Runtime.Exec | container_runtime.py:143 | One `check=True` step, changing the host as `Lifecycle.Run` says. |
| ContainerRuntime.Runtime.EnableIpForwarding | container_runtime.py:171-174 | Runs `sysctl -w net.ipv4.ip_forward=1`. |
| ContainerRuntime.Runtime.LimitResources | container_runtime.py:116-132 | New state and outcome as `Lifecycle.LimitResources` says. The globals stay well-formed. |
| ContainerRuntime.Runtime.SetupNetwork | container_runtime.py:136-167 | New state and outcome as `Lifecycle.SetupNetwork` says. |
| ContainerRuntime.Runtime.SetupNat | container_runtime.py:176-188 | New state and outcome as `Lifecycle.SetupNat` says. |
| ContainerRuntime.Runtime.CleanupNat | container_runtime.py:203-212 | New state and outcome as `Lifecycle.CleanupNat` says. With the globals well-formed, each step it issues deletes one of the three rules for `veth0`. |
| ContainerRuntime.Runtime.CleanupCgroups | container_runtime.py:215-224 | New state as `Lifecycle.CleanupCgroups` says. It never raises. With the globals well-formed, it issues nothing or exactly `rmdir` of the container's own cgroup. |
| ContainerRuntime.Runtime.CleanupNetwork | container_runtime.py:226-232 | New state and outcome as `Lifecycle.CleanupNetwork` says. With the globals well-formed, it issues nothing or exactly `ip link delete veth0`. |
| ContainerRuntime.Runtime.Cleanup | container_runtime.py:191-201 | New state and outcome as `Lifecycle.Cleanup` says: cgroups, then network, then NAT. A network failure skips NAT. With the globals well-formed, every step it issues releases the container's own cgroup, `veth0` or one of its three rules. |
| ContainerRuntime.CleanupReleasesOwnResources | container_runtime.py:191-232 | With the globals well-formed, cleanup only appends to the steps issued before, and every appended step removes the container's own cgroup, `veth0` or one of the three rules for `veth0`. |
| ContainerRuntime.CgroupAndNetworkReleases | container_runtime.py:215-232 | With the globals well-formed, `cleanup_cgroups` then `cleanup_network` append only `rmdir` of the own cgroup and `ip link delete veth0`, and keep the globals. |
| ContainerRuntime.CleanupNatReleases | container_runtime.py:203-212 | With VETH_HOST unset or `veth0`, `cleanup_nat` appends only deletions of the three rules for `veth0`. |
| ContainerRuntime.Runtime.Supervise | container_runtime.py:91-98 | New state and outcome as `Lifecycle.Supervise` says, the try/finally. |
| ContainerRuntime.Runtime.StartContainer | container_runtime.py:84-98 | New state and outcome as `Lifecycle.StartContainer` says: the handoff is parsed first, and a bad handoff touches nothing. |

## Left out

- The network and archive I/O are abstract: the token request, the manifest and blob requests, and `tarfile` extraction. A `Registry` value supplies the responses, and whether an archive unpacks.
- JSON `null` values are not modelled: a present `platform`, `os`, `architecture` or `mediaType` is assumed to be an object or a string. Bodies that are not JSON objects are not modelled either.
- The `os.makedirs` calls of `docker_pull` (lines 95-97) are recorded as actions and assumed to succeed.
- Text handling is ASCII only:
  - `str.lower` and `str.strip` are modelled on ASCII;
  - `int()` accepts an optional sign, ASCII digits and single underscores between digits;
  - handoff bytes that are not ASCII are reported as a decoding error. Python would accept valid UTF-8, such as non-ASCII digits or Unicode spaces.
- Processes are not modelled: `fork`, `unshare`, the pipe and `waitpid` timing, `setpgrp` and the SIGINT handler (container_runtime.py:43-79). Only the bytes of the handoff message are modelled. Waiting for the intermediate process is one step. Its effects are recording that the container has exited and the optional teardown of the veth pair; the flag `exitTearsDownPeers` stands for the race that decides the teardown.
- The container is taken to run until the wait returns. A container that exits on its own earlier, and so empties its cgroup before cleanup, is modelled only as a host that starts with `containerExited` set.
- LifecycleProperties.SuperviseRemovesRecordedCgroup holds only for runs whose `try` block reached the wait and saw it return. After a later failure the cgroup is left behind (`LateFailureLeaksCgroup`). The model has one foreign namespace, the container's: the teardown removes every host interface whose peer is not in the host namespace.
- LifecycleProperties.BodyOnFreshHost holds only when the veth pair outlives the container's exit. `BodyOnFreshHostWithPairTornDown` states the other outcome of that race.
- LifecycleProperties.CleanRunLeavesOnlyForwarding holds only when the veth pair outlives the container's exit. Otherwise cleanup raises and the NAT rules leak (`TornDownPairLeaksRules`).
- LifecycleProperties.CleanStartLeavesOnlyForwarding holds only when the veth pair outlives the container's exit. Otherwise the run leaks the NAT rules (`CleanStartWithTornDownPairLeaksRules`).
- The container side is not modelled: `set_hostname`, the `mount`/`umount` commands, `mount_proc` and `grandchild_process`. `setup_filesystem` is modelled only as its existence check, followed by the chroot and chdir actions.
- The kernel and tool semantics of `ip`, `nsenter`, `sysctl` and `iptables` are not modelled. Each command is an abstract host update that may fail, and address, link-state and route commands leave the modelled host unchanged.
- `main.py` (argument parsing and the root check) is not part of this model.
- All `print` output is left out. So is `platform.system()`/`platform.machine()`, whose values are parameters.
- Lifecycle.Cleanup, Lifecycle.Body and Lifecycle.StartContainer carry no contract of their own. Their behaviour is stated by the `LifecycleProperties` lemmas and by the `ContainerRuntime.Runtime` methods proved against them.
- LifecycleProperties.NatSetupThenCleanupExact: the NAT round trip restores the chains exactly only when the three rules were absent beforehand. In general it holds as multisets (`NatSetupThenCleanup`), because `iptables -D` removes the first matching copy.
