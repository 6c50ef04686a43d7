/** The node side: NodePublishVolume, NodeUnpublishVolume and the staging calls,
    over an abstract filesystem. The filesystem probe, mkdir, the config-file
    write, the mount client and the unmount helper are outside collaborators;
    how each of them turns out is an input of the model. */
module Node {
  import opened Common
  import opened MountConfig

  /** The single, fixed place the mount configuration is written to. */
  const ConfigPath: string := "/etc/cfs/fuse.json"

  /** The mount client's command line. */
  const MountClientArgs: seq<string> := ["cfs-client", "-c", ConfigPath]

  /** What a file holds: a configuration serialized in full, or whatever a
      write that failed part way left behind. */
  datatype FileContent = JsonConfig(config: map<string, string>) | Truncated

  /** What happens to `WriteBytes`: the file cannot be created, it is created
      (emptied) but the write fails, or the whole content is written. */
  datatype WriteOutcome = CreateFailed | WriteFailed | Written

  /** What the unmount helper does with a mount point: nothing (error), unmount
      it but report an error from its clean-up, or unmount it and report success,
      having removed the directory or not. */
  datatype UnmountOutcome = UnmountFailed | UnmountedWithError | Unmounted(dirRemoved: bool)

  /** The gRPC status codes the node server answers with. */
  datatype NodeError = NotFound(message: string) | Internal

  /** What probing a target path finds. */
  datatype Probe = NotExist | ProbeFailed | MountPoint | NotMountPoint

  datatype PublishRequest = PublishRequest(
    targetPath: string,
    volumeAttributes: map<string, string>,
    readonly: bool,
    mountFlags: seq<string>)

  datatype PublishEnv = PublishEnv(probeFault: bool, mkdirOk: bool, write: WriteOutcome, clientOk: bool)

  datatype UnpublishEnv = UnpublishEnv(probeFault: bool, unmount: UnmountOutcome)

  /** The node's filesystem as far as the server sees it: existing directories,
      mount points with the volume mounted at each, files, and the command lines
      of every mount-client run. */
  datatype NodeState = NodeState(
    dirs: set<string>,
    mounts: map<string, string>,
    files: map<string, FileContent>,
    clientRuns: seq<seq<string>>)

  /** Only an existing directory can be a mount point. */
  ghost predicate Valid(s: NodeState)
  {
    s.mounts.Keys <= s.dirs
  }

  /** Something, a directory or a regular file, is at `path`. */
  predicate Exists(s: NodeState, path: string)
  {
    path in s.dirs || path in s.files
  }

  /** `IsLikelyNotMountPoint` on `path`: an error other than "does not exist" when
      `fault`, otherwise what the state says; a regular file stats like a
      directory that is not a mount point. */
  function ProbeTarget(s: NodeState, path: string, fault: bool): (p: Probe)
    ensures p == ProbeFailed <==> fault
    ensures p == NotExist <==> !fault && !Exists(s, path)
    ensures p == MountPoint <==> !fault && Exists(s, path) && path in s.mounts
    ensures p == NotMountPoint <==> !fault && Exists(s, path) && path !in s.mounts
  {
    if fault then ProbeFailed
    else if !Exists(s, path) then NotExist
    else if path in s.mounts then MountPoint
    else NotMountPoint
  }

  /** The state after `WriteBytes(path, content)`: only the file at `path` can
      change, and it exists afterwards unless it could not be created. */
  function WriteFile(s: NodeState, path: string, content: map<string, string>, outcome: WriteOutcome)
    : (s': NodeState)
    ensures s'.dirs == s.dirs && s'.mounts == s.mounts && s'.clientRuns == s.clientRuns
    ensures s'.files - {path} == s.files - {path}
    ensures outcome == CreateFailed ==> s' == s
    ensures outcome == WriteFailed ==> path in s'.files && s'.files[path] == Truncated
    ensures outcome == Written ==> path in s'.files && s'.files[path] == JsonConfig(content)
  {
    match outcome
    case CreateFailed => s
    case WriteFailed => s.(files := s.files[path := Truncated])
    case Written => s.(files := s.files[path := JsonConfig(content)])
  }

  /** One run of `cfs-client -c /etc/cfs/fuse.json`: it reads the config file and
      mounts the volume it names at the mountpoint it names; it succeeds only
      when the file holds a whole configuration whose mountpoint is an existing
      directory (and `clientOk` says the mount itself went through). */
  function MountClient(s: NodeState, clientOk: bool): (result: (NodeState, bool))
    ensures result.0.clientRuns == s.clientRuns + [MountClientArgs]
    ensures result.0.dirs == s.dirs && result.0.files == s.files
    ensures !result.1 ==> result.0.mounts == s.mounts
    ensures result.1 ==>
      (clientOk && ConfigPath in s.files && s.files[ConfigPath].JsonConfig?
       && result.0.mounts == s.mounts[Lookup(s.files[ConfigPath].config, "mountpoint")
                                      := Lookup(s.files[ConfigPath].config, "volname")])
  {
    var s1 := s.(clientRuns := s.clientRuns + [MountClientArgs]);
    if clientOk && ConfigPath in s.files && s.files[ConfigPath].JsonConfig?
       && Lookup(s.files[ConfigPath].config, "mountpoint") in s.dirs
    then
      var config := s.files[ConfigPath].config;
      (s1.(mounts := s1.mounts[Lookup(config, "mountpoint") := Lookup(config, "volname")]), true)
    else (s1, false)
  }

  /** Writing the configuration for `req` and running the mount client. */
  function MountVolume(s: NodeState, req: PublishRequest, env: PublishEnv): (NodeState, Result<(), NodeError>)
  {
    var config := BuildConfig(req.targetPath, req.volumeAttributes);
    var s1 := WriteFile(s, ConfigPath, config, env.write);
    var (s2, ok) := MountClient(s1, env.clientOk);
    (s2, if ok then Ok(()) else Err(Internal))
  }

  /** NodePublishVolume on state `s`: the new state and the reply. It runs the
      mount client at most once, creates no directory but the target, and never
      answers NotFound. */
  function Publish(s: NodeState, req: PublishRequest, env: PublishEnv): (result: (NodeState, Result<(), NodeError>))
    ensures result.0.clientRuns == s.clientRuns || result.0.clientRuns == s.clientRuns + [MountClientArgs]
    ensures result.0.dirs == s.dirs || result.0.dirs == s.dirs + {req.targetPath}
    ensures result.1.Err? ==> result.1.error == Internal
  {
    match ProbeTarget(s, req.targetPath, env.probeFault)
    case ProbeFailed => (s, Err(Internal))
    case NotExist =>
      if env.mkdirOk then MountVolume(s.(dirs := s.dirs + {req.targetPath}), req, env)
      else (s, Err(Internal))
    case MountPoint => (s, Ok(()))
    case NotMountPoint => MountVolume(s, req, env)
  }

  /** NodeUnpublishVolume on state `s`: the new state and the reply. It touches
      no file and runs no client, can only remove the target's mount, and on
      success the target is no longer a mount point. */
  function Unpublish(s: NodeState, targetPath: string, env: UnpublishEnv)
    : (result: (NodeState, Result<(), NodeError>))
    ensures result.0.files == s.files && result.0.clientRuns == s.clientRuns
    ensures result.0.mounts == s.mounts || result.0.mounts == s.mounts - {targetPath}
    ensures result.1.Ok? ==> targetPath in s.mounts && targetPath !in result.0.mounts
  {
    match ProbeTarget(s, targetPath, env.probeFault)
    case ProbeFailed => (s, Err(Internal))
    case NotExist => (s, Err(NotFound("Targetpath not found")))
    case NotMountPoint => (s, Err(NotFound("Volume not mounted")))
    case MountPoint =>
      match env.unmount
      case UnmountFailed => (s, Err(Internal))
      case UnmountedWithError => (s.(mounts := s.mounts - {targetPath}), Err(Internal))
      case Unmounted(dirRemoved) =>
        (s.(mounts := s.mounts - {targetPath},
            dirs := if dirRemoved then s.dirs - {targetPath} else s.dirs),
         Ok(()))
  }

  /** The node server, with the filesystem state its calls change. */
  class NodeServer {
    var dirs: set<string>
    var mounts: map<string, string>
    var files: map<string, FileContent>
    var clientRuns: seq<seq<string>>

    function State(): NodeState
      reads this
    {
      NodeState(dirs, mounts, files, clientRuns)
    }

    constructor (initial: NodeState)
      requires Valid(initial)
      ensures State() == initial
    {
      dirs := initial.dirs;
      mounts := initial.mounts;
      files := initial.files;
      clientRuns := initial.clientRuns;
    }

    /** Overwrites the file at `filePath` with `content`; reports whether the
        whole content was written. */
    method WriteBytes(filePath: string, content: map<string, string>, outcome: WriteOutcome)
      returns (written: bool)
      modifies this
      ensures State() == WriteFile(old(State()), filePath, content, outcome)
      ensures written <==> outcome == Written
    {
      if outcome == CreateFailed {
        return false;
      }
      if outcome == WriteFailed {
        files := files[filePath := Truncated];
        return false;
      }
      files := files[filePath := JsonConfig(content)];
      return true;
    }

    /** Runs the mount client once; reports whether it exited successfully. */
    method RunMountClient(clientOk: bool) returns (ok: bool)
      modifies this
      ensures (State(), ok) == MountClient(old(State()), clientOk)
    {
      clientRuns := clientRuns + [MountClientArgs];
      ok := clientOk && ConfigPath in files && files[ConfigPath].JsonConfig?
            && Lookup(files[ConfigPath].config, "mountpoint") in dirs;
      if ok {
        var config := files[ConfigPath].config;
        mounts := mounts[Lookup(config, "mountpoint") := Lookup(config, "volname")];
      }
    }

    method NodePublishVolume(req: PublishRequest, env: PublishEnv) returns (r: Result<(), NodeError>)
      requires Valid(State())
      modifies this
      ensures Valid(State())
      ensures (State(), r) == Publish(old(State()), req, env)
    {
      var targetPath := req.targetPath;
      var notMnt: bool;
      var probe := ProbeTarget(State(), targetPath, env.probeFault);
      if probe == ProbeFailed {
        return Err(Internal);
      } else if probe == NotExist {
        if !env.mkdirOk {
          return Err(Internal);
        }
        dirs := dirs + {targetPath};
        notMnt := true;
      } else {
        notMnt := probe == NotMountPoint;
      }

      if !notMnt {
        return Ok(());
      }

      // The option list is built, as in the server, and then never used.
      var options := req.mountFlags;
      if req.readonly {
        options := options + ["ro"];
      }

      var config := BuildConfig(targetPath, req.volumeAttributes);
      var written := WriteBytes(ConfigPath, config, env.write);
      var ok := RunMountClient(env.clientOk);
      if !ok {
        return Err(Internal);
      }
      r := Ok(());
    }

    method NodeUnpublishVolume(targetPath: string, env: UnpublishEnv) returns (r: Result<(), NodeError>)
      requires Valid(State())
      modifies this
      ensures Valid(State())
      ensures (State(), r) == Unpublish(old(State()), targetPath, env)
    {
      var probe := ProbeTarget(State(), targetPath, env.probeFault);
      if probe == ProbeFailed {
        return Err(Internal);
      }
      if probe == NotExist {
        return Err(NotFound("Targetpath not found"));
      }
      if probe == NotMountPoint {
        return Err(NotFound("Volume not mounted"));
      }

      match env.unmount {
        case UnmountFailed =>
          r := Err(Internal);
        case UnmountedWithError =>
          mounts := mounts - {targetPath};
          r := Err(Internal);
        case Unmounted(dirRemoved) =>
          mounts := mounts - {targetPath};
          if dirRemoved {
            dirs := dirs - {targetPath};
          }
          r := Ok(());
      }
    }

    /** Staging is not used by this driver: always succeeds, changes nothing. */
    method NodeStageVolume() returns (r: Result<(), NodeError>)
      ensures r == Ok(())
    {
      r := Ok(());
    }

    /** Unstaging is not used by this driver: always succeeds, changes nothing. */
    method NodeUnstageVolume() returns (r: Result<(), NodeError>)
      ensures r == Ok(())
    {
      r := Ok(());
    }
  }
}
