/** The only channel from CreateVolume to the node: the attributes of the
    created volume, which the orchestrator hands back to NodePublishVolume. */
module Handoff {
  import opened Common
  import opened Controller
  import opened MountConfig
  import opened Node
  import NodeProperties

  /** The configuration built from a created volume's attributes names that
      volume, and its master entry carries the three cfsMaster parameters in
      their order; they read back unchanged when none contains a comma. */
  lemma CreatedAttributesConfigureMount(name: string, parameters: map<string, string>, targetPath: string)
    ensures var config := BuildConfig(targetPath, CreatedVolume(name, parameters).attributes);
      && config["mountpoint"] == targetPath
      && config["volname"] == name
      && config["master"] == JoinMasters(Lookup(parameters, "cfsMaster1"), Lookup(parameters, "cfsMaster2"),
                                         Lookup(parameters, "cfsMaster3"))
      && (',' !in Lookup(parameters, "cfsMaster1") && ',' !in Lookup(parameters, "cfsMaster2")
          && ',' !in Lookup(parameters, "cfsMaster3")
          ==> SplitOnComma(config["master"])
              == [Lookup(parameters, "cfsMaster1"), Lookup(parameters, "cfsMaster2"), Lookup(parameters, "cfsMaster3")])
  {
    var attributes := CreatedVolume(name, parameters).attributes;
    assert Lookup(attributes, "cfsvolname") == name;
    assert Lookup(attributes, "cfsMaster1") == Lookup(parameters, "cfsMaster1");
    assert Lookup(attributes, "cfsMaster2") == Lookup(parameters, "cfsMaster2");
    assert Lookup(attributes, "cfsMaster3") == Lookup(parameters, "cfsMaster3");
  }

  /** Publishing a volume that CreateVolume returned, at a directory that is not
      yet a mount point (or a missing path mkdir can create), with a full config write and a working mount client, mounts
      that very volume there. */
  lemma CreatedVolumeMountsUnderItsName(s: ControllerState, req: CreateVolumeRequest, replies: CreateReplies,
                                        node: NodeState, targetPath: string, env: PublishEnv,
                                        readonly: bool, mountFlags: seq<string>)
    requires Create(s, true, req, replies).1.Ok?
    requires Valid(node) && targetPath !in node.mounts
    requires !env.probeFault
    requires targetPath in node.dirs || (!Exists(node, targetPath) && env.mkdirOk)
    requires env.write == Written && env.clientOk
    ensures var volume := Create(s, true, req, replies).1.value;
      var (node', r) := Publish(node, PublishRequest(targetPath, volume.attributes, readonly, mountFlags), env);
      r == Ok(()) && node'.mounts == node.mounts[targetPath := req.name]
  {
    var volume := Create(s, true, req, replies).1.value;
    var pub := PublishRequest(targetPath, volume.attributes, readonly, mountFlags);
    NodeProperties.PublishMountStep(node, pub, env);
    assert Lookup(volume.attributes, "cfsvolname") == req.name;
  }
}
