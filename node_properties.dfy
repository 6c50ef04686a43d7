/** What NodePublishVolume and NodeUnpublishVolume promise, stated over the
    specification functions that the node server's methods are proved against. */
module NodeProperties {
  import opened Common
  import opened MountConfig
  import opened Node

  /** Publish gets as far as writing the configuration and running the mount
      client: the probe works, the target is not a mount point, and something is
      there already or the directory can be created. */
  predicate ReachesMount(s: NodeState, req: PublishRequest, env: PublishEnv)
  {
    !env.probeFault && req.targetPath !in s.mounts && (Exists(s, req.targetPath) || env.mkdirOk)
  }

  /** The target is a directory after the probe step: one was there, or nothing
      was and mkdir created it. */
  predicate TargetBecomesDirectory(s: NodeState, req: PublishRequest, env: PublishEnv)
  {
    req.targetPath in s.dirs || (!Exists(s, req.targetPath) && env.mkdirOk)
  }

  /** Publishing onto a regular file skips mkdir, writes the configuration and
      runs the client, which cannot mount onto a file: the target is never
      mounted, and once the configuration file was (re)written the reply is
      Internal with no mount point added. */
  lemma PublishOntoFileFails(s: NodeState, req: PublishRequest, env: PublishEnv)
    requires Valid(s) && !env.probeFault
    requires req.targetPath in s.files && req.targetPath !in s.dirs
    ensures var (s', r) := Publish(s, req, env);
      && s'.dirs == s.dirs
      && s'.clientRuns == s.clientRuns + [MountClientArgs]
      && req.targetPath !in s'.mounts
      && (env.write != CreateFailed ==> r == Err(Internal) && s'.mounts == s.mounts)
  {
    PublishMountStep(s, req, env);
  }

  /** Publishing onto a path that is already a mount point succeeds and changes
      nothing, whichever volume is mounted there. */
  lemma PublishOnMountPointIsNoop(s: NodeState, req: PublishRequest, env: PublishEnv)
    requires Valid(s) && !env.probeFault && req.targetPath in s.mounts
    ensures Publish(s, req, env) == (s, Ok(()))
  {
  }

  /** A probe error, or a missing target that cannot be created, is Internal and
      leaves the state as it was. */
  lemma PublishEarlyFailures(s: NodeState, req: PublishRequest, env: PublishEnv)
    ensures env.probeFault ==> Publish(s, req, env) == (s, Err(Internal))
    ensures !env.probeFault && !Exists(s, req.targetPath) && !env.mkdirOk
        ==> Publish(s, req, env) == (s, Err(Internal))
  {
  }

  /** The mount client runs exactly once when publish reaches the mount, and
      otherwise not at all. */
  lemma PublishRunsClientIff(s: NodeState, req: PublishRequest, env: PublishEnv)
    requires Valid(s)
    ensures var s' := Publish(s, req, env).0;
      && (ReachesMount(s, req, env) ==> s'.clientRuns == s.clientRuns + [MountClientArgs])
      && (!ReachesMount(s, req, env) ==> s' == s)
  {
  }

  /** When publish reaches the mount: the target directory is created only if
      nothing was there, the fixed config path holds the configuration built from
      the request (as far as the write got), and after a full write the reply is
      Ok exactly when the mount client succeeded onto a directory, in which case
      the target is mounted with the requested volume. */
  lemma PublishMountStep(s: NodeState, req: PublishRequest, env: PublishEnv)
    requires Valid(s) && ReachesMount(s, req, env)
    ensures var (s', r) := Publish(s, req, env);
      var config := BuildConfig(req.targetPath, req.volumeAttributes);
      && s'.dirs == (if Exists(s, req.targetPath) then s.dirs else s.dirs + {req.targetPath})
      && (env.write == Written ==> s'.files == s.files[ConfigPath := JsonConfig(config)])
      && (env.write == WriteFailed ==> s'.files == s.files[ConfigPath := Truncated])
      && (env.write == CreateFailed ==> s'.files == s.files)
      && (r.Err? ==> r.error == Internal && s'.mounts == s.mounts)
      && (env.write == Written ==>
            && (r.Ok? <==> env.clientOk && req.targetPath in s'.dirs)
            && (r.Ok? ==> s'.mounts == s.mounts[req.targetPath := Lookup(req.volumeAttributes, "cfsvolname")]))
  {
  }

  /** The readonly flag and the mount flags make no difference to publish. */
  lemma PublishIgnoresReadonlyAndFlags(s: NodeState, req: PublishRequest, env: PublishEnv,
                                       readonly: bool, mountFlags: seq<string>)
    ensures Publish(s, req.(readonly := readonly, mountFlags := mountFlags), env) == Publish(s, req, env)
  {
  }

  /** Because the write error is ignored, a failed write leaves an earlier
      configuration in place and the mount client mounts that one: publish of
      "/pods/b" answers Ok while "/pods/b" stays unmounted. */
  lemma IgnoredWriteErrorMountsStaleConfig()
    ensures var earlier := BuildConfig("/pods/a", map["cfsvolname" := "vol-a"]);
      var s := NodeState({"/pods/a", "/pods/b"}, map[], map[ConfigPath := JsonConfig(earlier)], []);
      var req := PublishRequest("/pods/b", map["cfsvolname" := "vol-b"], false, []);
      var (s', r) := Publish(s, req, PublishEnv(false, true, CreateFailed, true));
      && r == Ok(())
      && "/pods/b" !in s'.mounts
      && s'.mounts == map["/pods/a" := "vol-a"]
  {
    var earlier := BuildConfig("/pods/a", map["cfsvolname" := "vol-a"]);
    assert Lookup(earlier, "mountpoint") == "/pods/a";
    assert Lookup(earlier, "volname") == "vol-a";
  }

  /** A second publish of a path the first one mounted runs no further mount
      client and changes nothing. */
  lemma PublishTwiceMountsOnce(s: NodeState, req: PublishRequest, env: PublishEnv, env2: PublishEnv)
    requires Valid(s) && env.write == Written && !env2.probeFault
    requires Publish(s, req, env).1.Ok?
    ensures var s1 := Publish(s, req, env).0;
      Publish(s1, req, env2) == (s1, Ok(()))
  {
    var s1 := Publish(s, req, env).0;
    if req.targetPath !in s.mounts {
      PublishMountStep(s, req, env);
    }
    assert req.targetPath in s1.mounts && req.targetPath in s1.dirs;
  }

  /** Publish keeps every mount point an existing directory. */
  lemma PublishPreservesValid(s: NodeState, req: PublishRequest, env: PublishEnv)
    requires Valid(s)
    ensures Valid(Publish(s, req, env).0)
  {
  }

  /** Unpublish's replies: Internal for a probe error or a failed unmount,
      NotFound for a missing target or one that is not mounted (with the state
      unchanged), and Ok after an unmount, which takes the path off the mount
      points and removes the directory only if the helper did. */
  lemma UnpublishOutcomes(s: NodeState, target: string, env: UnpublishEnv)
    requires Valid(s)
    ensures var (s', r) := Unpublish(s, target, env);
      && (env.probeFault ==> s' == s && r == Err(Internal))
      && (!env.probeFault && !Exists(s, target) ==> s' == s && r == Err(NotFound("Targetpath not found")))
      && (!env.probeFault && Exists(s, target) && target !in s.mounts ==>
            s' == s && r == Err(NotFound("Volume not mounted")))
      && (!env.probeFault && target in s.mounts ==>
            && (r.Ok? <==> env.unmount.Unmounted?)
            && (env.unmount.UnmountFailed? ==> s' == s && r == Err(Internal))
            && (!env.unmount.UnmountFailed? ==>
                  && s'.mounts == s.mounts - {target}
                  && s'.files == s.files && s'.clientRuns == s.clientRuns
                  && (target in s'.dirs <==> !(env.unmount.Unmounted? && env.unmount.dirRemoved))
                  && s'.dirs - {target} == s.dirs - {target}))
  {
  }

  /** Unpublish of a path that is not mounted answers NotFound, never Internal,
      unless the probe itself fails. */
  lemma UnpublishUnmountedIsNotFound(s: NodeState, target: string, env: UnpublishEnv)
    requires target !in s.mounts && !env.probeFault
    ensures Unpublish(s, target, env).0 == s
    ensures Unpublish(s, target, env).1.Err? && Unpublish(s, target, env).1.error.NotFound?
  {
  }

  /** Unpublish keeps every mount point an existing directory. */
  lemma UnpublishPreservesValid(s: NodeState, target: string, env: UnpublishEnv)
    requires Valid(s)
    ensures Valid(Unpublish(s, target, env).0)
  {
  }

  /** Publish that mounted the target, then a successful unpublish: the target is
      no longer mounted, still exists unless the helper removed it, and a second
      unpublish answers NotFound without changing anything. */
  lemma PublishThenUnpublish(s: NodeState, req: PublishRequest, env: PublishEnv,
                             dirRemoved: bool, env3: UnpublishEnv)
    requires Valid(s) && ReachesMount(s, req, env) && env.write == Written && env.clientOk
    requires TargetBecomesDirectory(s, req, env)
    requires !env3.probeFault
    ensures var s1 := Publish(s, req, env).0;
      var (s2, r2) := Unpublish(s1, req.targetPath, UnpublishEnv(false, Unmounted(dirRemoved)));
      var (s3, r3) := Unpublish(s2, req.targetPath, env3);
      && r2 == Ok(())
      && req.targetPath !in s2.mounts
      && (req.targetPath in s2.dirs <==> !dirRemoved)
      && s3 == s2 && r3.Err? && r3.error.NotFound?
  {
    PublishMountStep(s, req, env);
    PublishPreservesValid(s, req, env);
    var s1 := Publish(s, req, env).0;
    assert req.targetPath in s1.mounts;
    UnpublishOutcomes(s1, req.targetPath, UnpublishEnv(false, Unmounted(dirRemoved)));
    var s2 := Unpublish(s1, req.targetPath, UnpublishEnv(false, Unmounted(dirRemoved))).0;
    UnpublishUnmountedIsNotFound(s2, req.targetPath, env3);
  }
}
