/** What CreateVolume and DeleteVolume promise, stated over the specification
    functions that the controller's methods are proved against. */
module ControllerProperties {
  import opened Common
  import Sizing
  import Decimal
  import opened Controller

  /** The three requests of a create, in the order they are made. */
  function CreateRequests(req: CreateVolumeRequest, leader: string): seq<string>
  {
    [GetClusterUrl(Lookup(req.parameters, "cfsMaster1")),
     CreateVolUrl(leader, req.name),
     CreatePartitionsUrl(leader, RequestedPartitions(req), req.name)]
  }

  /** A create the driver does not advertise fails before touching any state. */
  lemma CreateRejectedChangesNothing(s: ControllerState, req: CreateVolumeRequest, replies: CreateReplies)
    ensures Create(s, false, req, replies) == (s, Err(CreateDeleteNotSupported))
  {
  }

  /** Every create that passes the capability check records cfsMaster1 as the
      default master, whatever the cluster later answers. */
  lemma CreateRecordsDefaultMaster(s: ControllerState, req: CreateVolumeRequest, replies: CreateReplies)
    ensures Create(s, true, req, replies).0.defaultMaster == Lookup(req.parameters, "cfsMaster1")
  {
  }

  /** A create succeeds exactly when the capability is advertised, cfsMaster1
      names a host, the cluster answers getCluster with a leader that names a
      host, and both admin responses are read in full. */
  lemma CreateSucceedsIff(s: ControllerState, canCreateDelete: bool, req: CreateVolumeRequest, replies: CreateReplies)
    ensures Create(s, canCreateDelete, req, replies).1.Ok?
        <==> canCreateDelete && AddressHost(Lookup(req.parameters, "cfsMaster1")) != ""
             && replies.getCluster.ClusterInfo? && AddressHost(replies.getCluster.leaderAddr) != ""
             && replies.createVol == BodyRead && replies.createPartitions == BodyRead
  {
  }

  /** The requests a create makes are a prefix of the three-request sequence,
      cut right after the first request that fails; the error names that request.
      A request whose URL names no host fails without reaching the cluster. */
  lemma CreateRequestsInOrder(s: ControllerState, canCreateDelete: bool, req: CreateVolumeRequest, replies: CreateReplies)
    requires canCreateDelete
    ensures var (s', r) := Create(s, canCreateDelete, req, replies);
      var reached := AddressHost(Lookup(req.parameters, "cfsMaster1")) != "" && replies.getCluster.ClusterInfo?;
      var leader := if reached then replies.getCluster.leaderAddr else "";
      var leaderUp := AddressHost(leader) != "";
      var all := CreateRequests(req, leader);
      && (!reached ==>
            s'.sent == s.sent + all[..1] && r == Err(RequestFailed(all[0])))
      && (reached && !leaderUp ==>
            s'.sent == s.sent + all[..2] && r == Err(RequestFailed(all[1])))
      && (reached && leaderUp && replies.createVol != BodyRead ==>
            s'.sent == s.sent + all[..2] && r.Err? && r.error.url == all[1])
      && (reached && leaderUp && replies.createVol == BodyRead ==>
            s'.sent == s.sent + all && (r.Err? ==> r.error.url == all[2]))
  {
    var reached := AddressHost(Lookup(req.parameters, "cfsMaster1")) != "" && replies.getCluster.ClusterInfo?;
    if !reached {
      CreateStopsAtGetCluster(s, req, replies);
    } else if AddressHost(replies.getCluster.leaderAddr) == "" {
      CreateStopsAtHostlessLeader(s, req, replies);
    } else if replies.createVol != BodyRead {
      CreateStopsAtCreateVol(s, req, replies);
    } else {
      CreateReachesPartitions(s, req, replies);
    }
  }

  /** A create whose cfsMaster1 names no host, or whose cluster does not answer,
      stops after getCluster. */
  lemma CreateStopsAtGetCluster(s: ControllerState, req: CreateVolumeRequest, replies: CreateReplies)
    requires !(AddressHost(Lookup(req.parameters, "cfsMaster1")) != "" && replies.getCluster.ClusterInfo?)
    ensures var (s', r) := Create(s, true, req, replies);
      var url := GetClusterUrl(Lookup(req.parameters, "cfsMaster1"));
      s'.sent == s.sent + [url] && r == Err(RequestFailed(url))
  {
  }

  /** A leader address naming no host stops the create at createVol. */
  lemma CreateStopsAtHostlessLeader(s: ControllerState, req: CreateVolumeRequest, replies: CreateReplies)
    requires AddressHost(Lookup(req.parameters, "cfsMaster1")) != "" && replies.getCluster.ClusterInfo?
    requires AddressHost(replies.getCluster.leaderAddr) == ""
    ensures var (s', r) := Create(s, true, req, replies);
      var volUrl := CreateVolUrl(replies.getCluster.leaderAddr, req.name);
      s'.sent == s.sent + [GetClusterUrl(Lookup(req.parameters, "cfsMaster1")), volUrl]
      && r == Err(RequestFailed(volUrl))
  {
  }

  /** A createVol answer that is not read in full stops the create there. */
  lemma CreateStopsAtCreateVol(s: ControllerState, req: CreateVolumeRequest, replies: CreateReplies)
    requires AddressHost(Lookup(req.parameters, "cfsMaster1")) != "" && replies.getCluster.ClusterInfo?
    requires AddressHost(replies.getCluster.leaderAddr) != "" && replies.createVol != BodyRead
    ensures var (s', r) := Create(s, true, req, replies);
      var volUrl := CreateVolUrl(replies.getCluster.leaderAddr, req.name);
      s'.sent == s.sent + [GetClusterUrl(Lookup(req.parameters, "cfsMaster1")), volUrl]
      && r.Err? && r.error.url == volUrl
  {
  }

  /** Once createVol is read in full, all three requests have been made. */
  lemma CreateReachesPartitions(s: ControllerState, req: CreateVolumeRequest, replies: CreateReplies)
    requires AddressHost(Lookup(req.parameters, "cfsMaster1")) != "" && replies.getCluster.ClusterInfo?
    requires AddressHost(replies.getCluster.leaderAddr) != "" && replies.createVol == BodyRead
    ensures Create(s, true, req, replies).0.sent == s.sent + CreateRequests(req, replies.getCluster.leaderAddr)
    ensures Create(s, true, req, replies).1.Err?
        ==> Create(s, true, req, replies).1.error.url == CreateRequests(req, replies.getCluster.leaderAddr)[2]
  {
  }

  /** A successful create has made exactly the three requests and returns the
      volume named after the request, with cfsvolname and the three masters,
      each under its own key, as its only attributes. */
  lemma SuccessfulCreate(s: ControllerState, canCreateDelete: bool, req: CreateVolumeRequest, replies: CreateReplies)
    requires Create(s, canCreateDelete, req, replies).1.Ok?
    ensures var (s', r) := Create(s, canCreateDelete, req, replies);
      && s'.sent == s.sent + CreateRequests(req, replies.getCluster.leaderAddr)
      && s'.defaultMaster == Lookup(req.parameters, "cfsMaster1")
      && r.value.id == req.name
      && r.value.attributes.Keys == {"cfsvolname", "cfsMaster1", "cfsMaster2", "cfsMaster3"}
      && r.value.attributes["cfsvolname"] == req.name
      && r.value.attributes["cfsMaster1"] == Lookup(req.parameters, "cfsMaster1")
      && r.value.attributes["cfsMaster2"] == Lookup(req.parameters, "cfsMaster2")
      && r.value.attributes["cfsMaster3"] == Lookup(req.parameters, "cfsMaster3")
  {
  }

  /** An empty or unparsable getCluster body is not reported at getCluster: the
      create goes on and asks createVol of a URL without a host, which fails
      before reaching the cluster and ends the create with that URL. */
  lemma EmptyLeaderFailsAtCreateVol(s: ControllerState, req: CreateVolumeRequest,
                                    createVol: AdminReply, createPartitions: AdminReply)
    requires AddressHost(Lookup(req.parameters, "cfsMaster1")) != ""
    ensures var (s', r) := Create(s, true, req, CreateReplies(ClusterInfo(""), createVol, createPartitions));
      var volUrl := "http:///admin/createVol?name=" + req.name + "&replicas=3&type=extent";
      && s'.sent == s.sent + [GetClusterUrl(Lookup(req.parameters, "cfsMaster1")), volUrl]
      && r == Err(RequestFailed(volUrl))
  {
    CreateStopsAtHostlessLeader(s, req, CreateReplies(ClusterInfo(""), createVol, createPartitions));
    HostlessCreateVolUrl(req.name);
  }

  /** The createVol request for an empty leader address, written out. */
  lemma HostlessCreateVolUrl(name: string)
    ensures CreateVolUrl("", name) == "http:///admin/createVol?name=" + name + "&replicas=3&type=extent"
  {
  }

  /** User information alone names no host. */
  lemma UserInfoAloneIsNoHost()
    ensures AddressHost("u@") == ""
  {
    AuthorityIsPrefix("u@");
  }

  /** User information before an '@' is not part of the host. */
  lemma UserInfoIsNotHost()
    ensures AddressHost("u@h:80") == "h:80"
  {
    AuthorityIsPrefix("u@h:80");
    assert "u" + "@" + "h:80" == "u@h:80";
    AfterLastAtDropsUserInfo("u", "h:80");
  }

  /** An '@' after the first '/' belongs to the path, not to the authority. */
  lemma AtInPathIsNotUserInfo()
    ensures AddressHost("h:80/x@y") == "h:80"
  {
    assert "h:80" + "/x@y" == "h:80/x@y";
    AuthorityBeforeEnd("h:80", "/x@y");
    PlainAddressIsHost("h:80");
  }

  /** A cfsMaster1 holding only user information names no host, so the create
      fails at getCluster whatever the cluster would answer. */
  lemma UserInfoMasterFailsAtGetCluster(s: ControllerState, req: CreateVolumeRequest, replies: CreateReplies)
    requires Lookup(req.parameters, "cfsMaster1") == "u@"
    ensures Create(s, true, req, replies)
         == (ControllerState("u@", s.sent + ["http://u@/admin/getCluster"]), Err(RequestFailed("http://u@/admin/getCluster")))
  {
    UserInfoAloneIsNoHost();
    assert GetClusterUrl("u@") == "http://u@/admin/getCluster";
  }

  /** The partition request's URL determines the partition count. */
  lemma PartitionUrlDeterminesCount(leader: string, name: string, c1: nat, c2: nat)
    requires CreatePartitionsUrl(leader, c1, name) == CreatePartitionsUrl(leader, c2, name)
    ensures c1 == c2
  {
    var prefix := "http://" + leader + "/dataPartition/create?count=";
    var suffix := "&name=" + name + "&type=extent";
    var d1, d2 := Decimal.Itoa(c1), Decimal.Itoa(c2);
    assert CreatePartitionsUrl(leader, c1, name) == prefix + (d1 + suffix);
    assert CreatePartitionsUrl(leader, c2, name) == prefix + (d2 + suffix);
    var t1, t2 := d1 + suffix, d2 + suffix;
    assert t1 == (prefix + t1)[|prefix|..];
    assert t1 == t2;
    assert |d1| == |d2|;
    assert d1 == t1[..|d1|];
    assert d2 == t2[..|d2|];
    Decimal.ItoaInjective(c1, c2);
  }

  /** The partition request for one partition of "pvc-1", written out. */
  lemma OnePartitionUrl(leader: string)
    ensures CreatePartitionsUrl(leader, 1, "pvc-1")
         == "http://" + leader + "/dataPartition/create?count=" + "1" + "&name=" + "pvc-1" + "&type=extent"
  {
    assert Decimal.Itoa(1) == "1";
  }

  /** The scenario of a claim "pvc-1" without a capacity range: one partition of
      120 GiB, requested from the leader after the volume itself. */
  lemma DefaultClaimScenario(s: ControllerState, leader: string, masters: map<string, string>)
    requires AddressHost(Lookup(masters, "cfsMaster1")) != "" && AddressHost(leader) != ""
    ensures var req := CreateVolumeRequest("pvc-1", None, masters);
      var (s', r) := Create(s, true, req, CreateReplies(ClusterInfo(leader), BodyRead, BodyRead));
      && r.Ok? && r.value.id == "pvc-1"
      && s'.sent[|s.sent|..] == [
        GetClusterUrl(Lookup(masters, "cfsMaster1")),
        CreateVolUrl(leader, "pvc-1"),
        "http://" + leader + "/dataPartition/create?count=" + "1" + "&name=" + "pvc-1" + "&type=extent"]
  {
    var req := CreateVolumeRequest("pvc-1", None, masters);
    var replies := CreateReplies(ClusterInfo(leader), BodyRead, BodyRead);
    Sizing.DefaultCapacityIsOnePartition();
    assert RequestedPartitions(req) == 1;
    OnePartitionUrl(leader);
    CreateReachesPartitions(s, req, replies);
    CreateSucceedsIff(s, true, req, replies);
    var s' := Create(s, true, req, replies).0;
    assert s'.sent[|s.sent|..] == CreateRequests(req, leader);
  }

  /** A capacity range of 0 bytes asks the leader for 0 partitions. */
  lemma ZeroBytesScenario(s: ControllerState, leader: string, masters: map<string, string>)
    requires AddressHost(Lookup(masters, "cfsMaster1")) != "" && AddressHost(leader) != ""
    ensures var req := CreateVolumeRequest("pvc-1", Some(Sizing.CapacityRange(0)), masters);
      var (s', r) := Create(s, true, req, CreateReplies(ClusterInfo(leader), BodyRead, BodyRead));
      s'.sent[|s.sent| + 2] == "http://" + leader + "/dataPartition/create?count=" + "0" + "&name=" + "pvc-1" + "&type=extent"
  {
    var req := CreateVolumeRequest("pvc-1", Some(Sizing.CapacityRange(0)), masters);
    var replies := CreateReplies(ClusterInfo(leader), BodyRead, BodyRead);
    CreateReachesPartitions(s, req, replies);
    Sizing.ZeroRequiredBytesIsNotDefaulted();
    assert RequestedPartitions(req) == 0;
    NoPartitionUrl(leader);
  }

  /** The partition request for zero partitions of "pvc-1", written out. */
  lemma NoPartitionUrl(leader: string)
    ensures CreatePartitionsUrl(leader, 0, "pvc-1")
         == "http://" + leader + "/dataPartition/create?count=" + "0" + "&name=" + "pvc-1" + "&type=extent"
  {
    assert Decimal.Itoa(0) == "0";
  }

  /** A delete asks getCluster of the default master, then vol/delete of the
      leader; it fails only when a request gets no response or names no host,
      and never changes the default master. */
  lemma DeleteRequestsInOrder(s: ControllerState, volumeId: string, replies: DeleteReplies)
    ensures var (s', r) := Delete(s, true, volumeId, replies);
      var reached := AddressHost(s.defaultMaster) != "" && replies.getCluster.ClusterInfo?;
      && s'.defaultMaster == s.defaultMaster
      && (!reached ==>
            s'.sent == s.sent + [GetClusterUrl(s.defaultMaster)]
            && r == Err(RequestFailed(GetClusterUrl(s.defaultMaster))))
      && (reached ==>
            s'.sent == s.sent + [GetClusterUrl(s.defaultMaster), DeleteVolUrl(replies.getCluster.leaderAddr, volumeId)])
  {
  }

  /** A delete succeeds exactly when the capability is advertised, both the
      default master and the leader name a host, and neither request gets no
      response; the delete response body is never examined. */
  lemma DeleteSucceedsIff(s: ControllerState, canCreateDelete: bool, volumeId: string, replies: DeleteReplies)
    ensures Delete(s, canCreateDelete, volumeId, replies).1.Ok?
        <==> canCreateDelete && AddressHost(s.defaultMaster) != ""
             && replies.getCluster.ClusterInfo? && AddressHost(replies.getCluster.leaderAddr) != ""
             && replies.deleteVol != NoResponse
    ensures !canCreateDelete ==> Delete(s, canCreateDelete, volumeId, replies) == (s, Err(CreateDeleteNotSupported))
  {
  }

  /** Before any create has run the default master is empty, so a delete asks
      getCluster of a URL without a host and fails whatever the cluster would say. */
  lemma DeleteOnFreshServerFails(volumeId: string, replies: DeleteReplies)
    ensures Delete(ControllerState("", []), true, volumeId, replies)
         == (ControllerState("", ["http:///admin/getCluster"]), Err(RequestFailed("http:///admin/getCluster")))
  {
    var url := GetClusterUrl("");
    assert url == "http:///admin/getCluster";
    assert Host(url) == "";
    var (s', r) := Delete(ControllerState("", []), true, volumeId, replies);
    assert r == Err(RequestFailed(url));
    assert s' == ControllerState("", [url]);
  }

  /** After any create that passed the capability check, successful or not, the
      next delete asks the cluster through that create's cfsMaster1. */
  lemma DeleteUsesLastCreatesMaster(s: ControllerState, req: CreateVolumeRequest, createReplies: CreateReplies,
                                    volumeId: string, deleteReplies: DeleteReplies)
    ensures var s1 := Create(s, true, req, createReplies).0;
      var s2 := Delete(s1, true, volumeId, deleteReplies).0;
      |s2.sent| > |s1.sent| && s2.sent[|s1.sent|] == GetClusterUrl(Lookup(req.parameters, "cfsMaster1"))
  {
    CreateRecordsDefaultMaster(s, req, createReplies);
  }
}
