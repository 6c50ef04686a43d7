# containerfs CSI driver: provisioning and mount lifecycle, modelled in Dafny

This project models the two parts of the containerfs (CFS) CSI driver that
make decisions:

- the **controller** (`pkg/cfs/controllerserver.go`): CreateVolume turns a
  capacity request into a whole number of 120 GiB data partitions and asks the
  cluster's master leader to create the volume and its partitions; DeleteVolume
  asks the leader to delete a volume by name; ValidateVolumeCapabilities accepts
  only MULTI_NODE_MULTI_WRITER. The process-wide `defaultMaster` that CreateVolume
  writes and DeleteVolume reads is a field of `Controller.ControllerServer`, next
  to `sent`, the log of every URL passed to `http.Get`, including those Go
  refuses before sending because they name no host.
- the **node** (`pkg/cfs/nodeserver.go`): NodePublishVolume probes the target
  path, creates it if missing, writes the mount client's configuration to the
  fixed file `/etc/cfs/fuse.json` and runs `cfs-client -c /etc/cfs/fuse.json`;
  NodeUnpublishVolume unmounts; staging calls do nothing. `Node.NodeServer` holds
  the filesystem as the server sees it: existing directories, mount points (with
  the volume mounted at each), file contents, and the mount-client command lines.

Everything the driver gets from outside is an input of the model: what
`getCluster` returned (a leader address, `""` when the body was unreadable or
undecodable, or no response), whether each admin request got a response and
whether its body could be read, whether the path probe, mkdir, config write,
mount client and unmount helper succeeded. Each stateful method is proved against
a specification function of the old state and these inputs (`Controller.Create`,
`Controller.Delete`, `Node.Publish`, `Node.Unpublish`); the lemmas in
`ControllerProperties`, `NodeProperties` and `Handoff` state what the driver
promises about those functions.

Files: `common.dfy` (Option, Result, Go's map read), `decimal.dfy`
(`strconv.Itoa` and its inverse), `sizing.dfy`, `controller.dfy`,
`controller_properties.dfy`, `mount_config.dfy`, `node.dfy`,
`node_properties.dfy`, `handoff.dfy`.

Some behaviours of the code are easy to misread; the model follows the code:

- A capacity range asking for 0 bytes is not replaced by the 1 GiB default; only
  a request with no capacity range gets it. Such a request asks for 0 partitions
  (`Sizing.ZeroRequiredBytesIsNotDefaulted`, `ControllerProperties.ZeroBytesScenario`).
- An unreadable or undecodable `getCluster` body is not reported where it
  happens: the leader is the empty string and the create or delete goes on to
  request `http:///admin/createVol?...` or `http:///vol/delete?...`. Go's HTTP
  client refuses a URL without a host before sending anything, so that request
  fails and its error ends the call
  (`ControllerProperties.EmptyLeaderFailsAtCreateVol`).
- The same holds for the first request: a missing `cfsMaster1` parameter, or a
  DeleteVolume before any CreateVolume has set the default master, asks
  getCluster of `http:///admin/getCluster` and fails
  (`ControllerProperties.DeleteOnFreshServerFails`).
- What CreateVolume records for DeleteVolume is `cfsMaster1`, not the resolved
  leader, and it is recorded before any request, so a create that fails still
  changes it (`ControllerProperties.CreateRecordsDefaultMaster`).
- Any HTTP response counts as success: status codes and response bodies are
  never examined; the only failures are transport errors (a URL without a host
  among them) and, for the two create requests, a body that cannot be read.
- Controller failures are returned as the underlying Go errors, not as
  Unavailable statuses; the node answers with Internal and NotFound statuses.

## Model

| member | source | states |
|---|---|---|
| `Sizing.RequestedBytes` | pkg/cfs/controllerserver.go:50-54 | 1 GiB without a capacity range, otherwise the required bytes as given |
| `Sizing.RoundUpSize` | pkg/cfs/controllerserver.go:55 | the result is the least number of whole units that holds the size (ceiling division) |
| `Sizing.PartitionCount` | pkg/cfs/controllerserver.go:93-99 | count * 120 is at least the size and less than size + 120; on an exact multiple it equals the size |
| `Sizing.ProvisionedGiB` | pkg/cfs/controllerserver.go:93-99 | both branches leave the size at count * 120, a multiple of 120, at least the request and within one unit above it |
| `Sizing.PartitionCountIsLeast` | pkg/cfs/controllerserver.go:93-99 | no smaller partition count holds the size: the provisioned size is the least multiple of 120 at or above it |
| `Sizing.ExactMultipleUnchanged` | pkg/cfs/controllerserver.go:94-95 | an exact multiple of 120 keeps its size and gets size / 120 partitions |
| `Sizing.DefaultCapacityIsOnePartition` | pkg/cfs/controllerserver.go:50-55 | no capacity range: 1 GiB, one partition, 120 GiB |
| `Sizing.ZeroRequiredBytesIsNotDefaulted` | pkg/cfs/controllerserver.go:52-55 | a capacity range of 0 bytes gives 0 GiB and 0 partitions |
| `Sizing.SizingExamples` | pkg/cfs/controllerserver.go:93-99 | 120 GiB gives 1 partition (120 GiB); 130 GiB gives 2 (240 GiB); 240 GiB gives 2 |
| `Decimal.Itoa` | pkg/cfs/controllerserver.go:101 | the numeral is non-empty, all digits, without a leading zero, one digit exactly for n < 10 |
| `Decimal.AtoiItoa` | pkg/cfs/controllerserver.go:101 | reading the numeral back gives the count again |
| `Decimal.ItoaInjective` | pkg/cfs/controllerserver.go:101 | different counts give different numerals |
| `Controller.AuthorityIsPrefix` | pkg/cfs/controllerserver.go:66-67 | the authority Go reads after `http://` is the longest prefix without `/`, `?` or `#`, and the whole text when it has none of them |
| `Controller.AfterLastAtIsSuffix` | pkg/cfs/controllerserver.go:66-67 | the host is the part of the authority after its last `@`, the whole authority when it has no `@` |
| `Controller.AfterLastAtDropsUserInfo` | pkg/cfs/controllerserver.go:66-67 | user information before an `@` is not part of the host |
| `Controller.PlainAddressIsHost` | pkg/cfs/controllerserver.go:66-67 | an address without `/`, `?`, `#` or `@` is its own host |
| `Controller.GetClusterUrl` | pkg/cfs/controllerserver.go:66 | the getCluster URL is addressed to the host of the master address (its authority without user information) (empty for an empty address) |
| `Controller.CreateVolUrl` | pkg/cfs/controllerserver.go:79 | the createVol URL is addressed to the host of the leader address (its authority without user information) |
| `Controller.CreatePartitionsUrl` | pkg/cfs/controllerserver.go:102 | the dataPartition/create URL is addressed to the host of the leader address (its authority without user information) |
| `Controller.DeleteVolUrl` | pkg/cfs/controllerserver.go:154 | the vol/delete URL is addressed to the host of the leader address (its authority without user information) |
| `Controller.CreatedVolume` | pkg/cfs/controllerserver.go:119-129 | the volume's id is its name and its attributes are exactly cfsvolname and cfsMaster1..3, the masters read from the parameters ("" when absent) |
| `Controller.Create` | pkg/cfs/controllerserver.go:43-131 | requests are only appended, at most three, all three on success; the volume returned carries the requested name; without the capability nothing changes |
| `Controller.Delete` | pkg/cfs/controllerserver.go:133-164 | the default master is never changed; requests are only appended, at most two, both on success |
| `Controller.ControllerServer.GetCluster` | pkg/cfs/controllerserver.go:66-67 | the URL is logged and the answer is the cluster's unless the URL names no host |
| `Controller.ControllerServer.Get` | pkg/cfs/controllerserver.go:79-80 | the URL is logged and the response is the cluster's unless the URL names no host |
| `Controller.ControllerServer.constructor` | pkg/cfs/controllerserver.go:32 | a fresh server has an empty default master and has sent nothing |
| `Controller.ControllerServer.CreateVolume` | pkg/cfs/controllerserver.go:43-131 | new state and reply are those of `Create` on the old state: capability check, default master, the request sequence with early exits, the response |
| `Controller.ControllerServer.DeleteVolume` | pkg/cfs/controllerserver.go:133-164 | new state and reply are those of `Delete` on the old state |
| `Controller.ValidateVolumeCapabilities` | pkg/cfs/controllerserver.go:166-173 | supported exactly when every capability's access mode (UNKNOWN when absent) is MULTI_NODE_MULTI_WRITER; true for an empty list |
| `ControllerProperties.CreateRejectedChangesNothing` | pkg/cfs/controllerserver.go:45-48 | without the create/delete capability, create fails with no request and no state change |
| `ControllerProperties.CreateRecordsDefaultMaster` | pkg/cfs/controllerserver.go:60-63 | every create past the capability check sets the default master to cfsMaster1, whatever the cluster answers |
| `ControllerProperties.CreateSucceedsIff` | pkg/cfs/controllerserver.go:66-130 | create succeeds iff the capability holds, cfsMaster1 names a host, getCluster answers with a leader that names a host, and both admin bodies are read |
| `ControllerProperties.CreateRequestsInOrder` | pkg/cfs/controllerserver.go:66-114 | the requests made are getCluster on master 1, createVol and dataPartition/create on the leader, cut after the first failing one, whose URL the error carries; a request to no host fails with RequestFailed |
| `ControllerProperties.SuccessfulCreate` | pkg/cfs/controllerserver.go:119-130 | a successful create made exactly the three requests and returns id = name with exactly the attributes cfsvolname and cfsMaster1..3 taken verbatim from the parameters |
| `ControllerProperties.EmptyLeaderFailsAtCreateVol` | pkg/cfs/controllerserver.go:73-83 | an empty leader is not reported at getCluster; createVol is requested at `http:///admin/createVol?name=...` and the create ends with RequestFailed of that URL, whatever the cluster would answer |
| `ControllerProperties.UserInfoAloneIsNoHost` | pkg/cfs/controllerserver.go:66-67 | an address `u@` names no host |
| `ControllerProperties.UserInfoIsNotHost` | pkg/cfs/controllerserver.go:66-67 | the host of `u@h:80` is `h:80` |
| `ControllerProperties.AtInPathIsNotUserInfo` | pkg/cfs/controllerserver.go:66-67 | an `@` after the first `/` belongs to the path: the host of `h:80/x@y` is `h:80` |
| `ControllerProperties.UserInfoMasterFailsAtGetCluster` | pkg/cfs/controllerserver.go:66-71 | with cfsMaster1 `u@` the getCluster request names no host, so the create ends there with RequestFailed of `http://u@/admin/getCluster` |
| `ControllerProperties.PartitionUrlDeterminesCount` | pkg/cfs/controllerserver.go:101-102 | two partition URLs for the same leader and name are equal only for equal counts |
| `ControllerProperties.DefaultClaimScenario` | pkg/cfs/controllerserver.go:50-102 | "pvc-1" without a capacity range, with a master and a leader that name hosts, sends getCluster, createVol for pvc-1, then dataPartition/create with count=1, and succeeds |
| `ControllerProperties.ZeroBytesScenario` | pkg/cfs/controllerserver.go:52-102 | a 0-byte capacity range sends dataPartition/create with count=0 |
| `ControllerProperties.DeleteRequestsInOrder` | pkg/cfs/controllerserver.go:140-159 | delete sends getCluster to the default master, then vol/delete?name=id to the leader, stopping when getCluster fails or names no host; the default master is unchanged |
| `ControllerProperties.DeleteSucceedsIff` | pkg/cfs/controllerserver.go:133-163 | delete succeeds iff the capability holds, the default master and the leader name hosts, and neither request meets a transport error; the body is never examined |
| `ControllerProperties.DeleteOnFreshServerFails` | pkg/cfs/controllerserver.go:141-146 | before any create the default master is still the empty string it starts as (line 32), so delete requests `http:///admin/getCluster` and fails with that URL, whatever the cluster would answer |
| `ControllerProperties.DeleteUsesLastCreatesMaster` | pkg/cfs/controllerserver.go:141-142 | after any create past the capability check, the next delete asks getCluster of that create's cfsMaster1 |
| `MountConfig.JoinMasters` | pkg/cfs/nodeserver.go:79 | comma-free masters joined with commas split back into the three, in order |
| `MountConfig.SplitThreeFields` | pkg/cfs/nodeserver.go:79 | three comma-free fields joined by commas split on commas into those three fields |
| `MountConfig.BuildConfig` | pkg/cfs/nodeserver.go:73-85 | the configuration has exactly the keys mountpoint, volname, master, logpath: the target path, cfsvolname, the three masters joined in order, and the fixed log path |
| `MountConfig.CommaInMasterIsAmbiguous` | pkg/cfs/nodeserver.go:79 | commas inside addresses are not escaped, so different master lists can give the same entry |
| `Node.ProbeTarget` | pkg/cfs/nodeserver.go:52-62 | the probe, here and at line 106, fails exactly on a fault; otherwise the target does not exist, is a mount point, or exists (as a directory or a regular file) and is not one |
| `Node.WriteFile` | pkg/cfs/nodeserver.go:40-48 | only the file at the path can change: kept when it cannot be created, truncated on a failed write, the whole content after a full one |
| `Node.MountClient` | pkg/cfs/nodeserver.go:95-96 | one more client run is logged; directories and files are unchanged; a successful run mounts the volume the config file names at the mountpoint it names, and a failed one mounts nothing |
| `Node.Publish` | pkg/cfs/nodeserver.go:50-102 | at most one client run; the only directory created is the target; errors are always Internal, never NotFound |
| `Node.Unpublish` | pkg/cfs/nodeserver.go:104-125 | no file changes and no client run; only the target's mount can go; on success the target was a mount point and is one no more |
| `Node.NodeServer.WriteBytes` | pkg/cfs/nodeserver.go:40-48 | the file at the path is overwritten with the content, truncated or partly written on a failed write, untouched when it cannot be created |
| `Node.NodeServer.RunMountClient` | pkg/cfs/nodeserver.go:95-99 | one more `cfs-client -c /etc/cfs/fuse.json` run, mounting what the config file names |
| `Node.NodeServer.NodePublishVolume` | pkg/cfs/nodeserver.go:50-102 | new state and reply are those of `Publish` on the old state; every mount point stays an existing directory |
| `Node.NodeServer.NodeUnpublishVolume` | pkg/cfs/nodeserver.go:104-125 | new state and reply are those of `Unpublish` on the old state; every mount point stays an existing directory |
| `Node.NodeServer.NodeStageVolume` | pkg/cfs/nodeserver.go:127-129 | always succeeds and changes nothing |
| `Node.NodeServer.NodeUnstageVolume` | pkg/cfs/nodeserver.go:131-133 | always succeeds and changes nothing |
| `NodeProperties.PublishOnMountPointIsNoop` | pkg/cfs/nodeserver.go:64-66 | publish on a mount point succeeds with no state change, whatever volume is mounted there |
| `NodeProperties.PublishEarlyFailures` | pkg/cfs/nodeserver.go:52-62 | a probe error, or a target that does not exist (neither directory nor file) and that mkdir cannot create, is Internal with no state change |
| `NodeProperties.PublishRunsClientIff` | pkg/cfs/nodeserver.go:52-96 | the mount client runs exactly once when publish reaches it and the state is untouched otherwise |
| `NodeProperties.PublishMountStep` | pkg/cfs/nodeserver.go:55-101 | mkdir runs only when nothing is at the target; the fixed config file holds the built configuration as far as the write got; after a full write the reply is Ok iff the client succeeded and the target is a directory, mounting the requested volume there |
| `NodeProperties.PublishOntoFileFails` | pkg/cfs/nodeserver.go:52-98 | a regular file at the target is not created again: the config is written and the client runs, but the target is never mounted, and after the config file was opened the reply is Internal |
| `NodeProperties.PublishIgnoresReadonlyAndFlags` | pkg/cfs/nodeserver.go:68-71 | readonly and mount flags do not change the outcome |
| `NodeProperties.IgnoredWriteErrorMountsStaleConfig` | pkg/cfs/nodeserver.go:93-101 | when the config write fails, the client mounts the previous configuration and publish still answers Ok |
| `NodeProperties.PublishTwiceMountsOnce` | pkg/cfs/nodeserver.go:64-66 | after a publish that mounted the target, a second publish runs no mount client and changes nothing |
| `NodeProperties.PublishPreservesValid` | pkg/cfs/nodeserver.go:50-102 | every mount point stays an existing directory |
| `NodeProperties.UnpublishOutcomes` | pkg/cfs/nodeserver.go:104-125 | probe error gives Internal; a missing target gives "Targetpath not found" and an existing target (directory or file) that is not mounted "Volume not mounted", with no change; otherwise unmount failure gives Internal and success takes the path off the mount points |
| `NodeProperties.UnpublishUnmountedIsNotFound` | pkg/cfs/nodeserver.go:108-117 | unpublish of a path that is not mounted answers NotFound, never Internal, and changes nothing |
| `NodeProperties.UnpublishPreservesValid` | pkg/cfs/nodeserver.go:104-125 | every mount point stays an existing directory |
| `NodeProperties.PublishThenUnpublish` | pkg/cfs/nodeserver.go:104-125 | publish that makes the target a directory and mounts it, then a successful unpublish, leaves the target unmounted, existing unless the helper removed it; a second unpublish is NotFound |
| `Handoff.CreatedAttributesConfigureMount` | pkg/cfs/nodeserver.go:73-85 | the configuration built from a created volume's attributes names that volume and carries its masters in creation order |
| `Handoff.CreatedVolumeMountsUnderItsName` | pkg/cfs/nodeserver.go:73-101 | publishing a created volume's attributes at an unmounted directory, or a missing path mkdir creates, mounts that volume's name there |

## Left out

- HTTP transport, reading response bodies and JSON decoding of the `getCluster`
  body: replaced by the reply inputs (`ClusterInfo`, `AdminReply`). HTTP status
  codes are not modelled because the code never looks at them.
- Error texts: Go error values become `RequestFailed(url)` or
  `ResponseUnreadable(url)`; the node's Internal status carries no message; the
  NotFound messages are modelled exactly.
- `json.MarshalIndent`: the configuration is modelled as the string map it is
  built from, not as indented JSON text. Its error branch (nodeserver.go lines
  87-91) is not modelled, since marshalling a map of strings cannot fail.
- `exec.Command("cfs-client")`: its effect is reduced to "mount the volume the
  config file names at the mountpoint it names", with success as an input.
- `mount.IsLikelyNotMountPoint` heuristics: the probe answers from the modelled
  state (a directory or a regular file exists; a mount point is one of the
  recorded mounts), except for an input that makes it fail with an error other
  than "does not exist".
- The mount client's own checks: the model's client mounts only onto an
  existing directory and fails otherwise, so a regular file at the target is
  never mounted.
- `util.UnmountPath` is not part of this model: the unmount outcome is an input,
  including whether the helper removed the directory and whether it reported an
  error after unmounting.
- Directory permissions (0750 for the target, ModePerm for the config directory)
  and the creation of `/etc/cfs` inside WriteBytes, whose result is ignored: it
  is folded into the write outcome. Parent directories of paths are not tracked.
- `util.RoundUpSize` is not part of this model; it is specified as ceiling
  division. Byte counts are unbounded naturals: Go's int64 range of the required
  bytes is not modelled (in that range count * 120 cannot overflow).
- URL parse failures other than a missing host (invalid characters, a port
  that is not a number, unbalanced IPv6 brackets, percent escapes): a URL is
  refused only when its host, the authority after its last `@`, is empty;
  whatever else that text holds is taken as the host.
- The capability check of csicommon: a boolean fixed when the server is built.
- The `Message` field of the ValidateVolumeCapabilities response (always empty)
  and the final provisioned size, which the driver only logs.
- Logging, `context` cancellation, and the concurrency races on `defaultMaster`
  and `/etc/cfs/fuse.json`: the model is sequential.
