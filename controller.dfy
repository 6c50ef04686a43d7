/** The controller side: CreateVolume, DeleteVolume and ValidateVolumeCapabilities.
    The cluster's admin interface is seen only through the URLs the server asks
    for and the replies it gets back, which are inputs of the model. */
module Controller {
  import opened Common
  import Sizing
  import Decimal

  datatype CreateVolumeRequest = CreateVolumeRequest(
    name: string,
    capacityRange: Option<Sizing.CapacityRange>,
    parameters: map<string, string>)

  /** The volume handed back to the orchestrator: its id and the attributes it
      later passes to NodePublishVolume. */
  datatype Volume = Volume(id: string, attributes: map<string, string>)

  /** What a `getCluster` request yields: no response at all, or a response whose
      body gave `leaderAddr` ("" when the body could not be read or decoded). */
  datatype ClusterInfo = ClusterUnreachable | ClusterInfo(leaderAddr: string)

  /** What an admin request yields: a transport error, a response whose body
      could not be read, or a response read in full. */
  datatype AdminReply = NoResponse | BodyUnreadable | BodyRead

  datatype CreateReplies = CreateReplies(
    getCluster: ClusterInfo,
    createVol: AdminReply,
    createPartitions: AdminReply)

  datatype DeleteReplies = DeleteReplies(getCluster: ClusterInfo, deleteVol: AdminReply)

  datatype ControllerError =
    | CreateDeleteNotSupported
    | RequestFailed(url: string)
    | ResponseUnreadable(url: string)

  /** The state the controller keeps across calls: the last master CreateVolume
      saw, and every URL requested so far. */
  datatype ControllerState = ControllerState(defaultMaster: string, sent: seq<string>)

  const Scheme: string := "http://"

  /** The characters that end the authority part of a URL. */
  predicate IsAuthorityEnd(c: char)
  {
    c == '/' || c == '?' || c == '#'
  }

  predicate NoAuthorityEnd(s: string)
  {
    forall i :: 0 <= i < |s| ==> !IsAuthorityEnd(s[i])
  }

  /** The characters of `s` up to the first authority-ending character. */
  function Authority(s: string): string
  {
    if s == [] || IsAuthorityEnd(s[0]) then [] else [s[0]] + Authority(s[1..])
  }

  /** `Authority(s)` is the longest prefix of `s` without an authority-ending
      character; a string without one is its own authority. */
  lemma {:induction false} AuthorityIsPrefix(s: string)
    ensures Authority(s) <= s && NoAuthorityEnd(Authority(s))
    ensures |Authority(s)| < |s| ==> IsAuthorityEnd(s[|Authority(s)|])
    ensures NoAuthorityEnd(s) ==> Authority(s) == s
  {
    if s != [] && !IsAuthorityEnd(s[0]) {
      AuthorityIsPrefix(s[1..]);
      assert [s[0]] + s[1..] == s;
    }
  }

  /** The part of an authority after its last '@'; what comes before is user
      information, not host. */
  function AfterLastAt(a: string): string
  {
    if a == [] || a[|a| - 1] == '@' then [] else AfterLastAt(a[..|a| - 1]) + [a[|a| - 1]]
  }

  /** `AfterLastAt(a)` is the longest suffix of `a` without '@'; an authority
      without '@' is all host. */
  lemma {:induction false} AfterLastAtIsSuffix(a: string)
    ensures |AfterLastAt(a)| <= |a| && a[|a| - |AfterLastAt(a)|..] == AfterLastAt(a)
    ensures '@' !in AfterLastAt(a)
    ensures |AfterLastAt(a)| < |a| ==> a[|a| - |AfterLastAt(a)| - 1] == '@'
    ensures '@' !in a ==> AfterLastAt(a) == a
  {
    if a != [] && a[|a| - 1] != '@' {
      var init, last := a[..|a| - 1], a[|a| - 1];
      var h := AfterLastAt(init);
      AfterLastAtIsSuffix(init);
      assert AfterLastAt(a) == h + [last];
      assert a == init + [last];
      assert a[|a| - |h| - 1..] == init[|init| - |h|..] + [last];
      if |h| + 1 < |a| {
        assert a[|a| - |h| - 2] == init[|init| - |h| - 1];
      }
    }
  }

  /** Whatever precedes the last '@' is dropped. */
  lemma {:induction false} AfterLastAtDropsUserInfo(user: string, host: string)
    requires '@' !in host
    ensures AfterLastAt(user + "@" + host) == host
  {
    var a := user + "@" + host;
    if host != [] {
      var init := host[..|host| - 1];
      AfterLastAtDropsUserInfo(user, init);
      assert a[..|a| - 1] == user + "@" + init;
      assert init + [host[|host| - 1]] == host;
    }
  }

  /** The host a URL built as `http://` + `address` + a path addresses, as Go's
      URL parser reads it: the authority, the text up to the first '/', '?' or
      '#', without any user information ending in '@'. */
  function AddressHost(address: string): string
  {
    AfterLastAt(Authority(address))
  }

  /** An address without '/', '?', '#' or '@' is its own host. */
  lemma PlainAddressIsHost(address: string)
    requires NoAuthorityEnd(address) && '@' !in address
    ensures AddressHost(address) == address
  {
    AuthorityIsPrefix(address);
    AfterLastAtIsSuffix(address);
  }

  /** The host an `http://` URL addresses; "" when it names none. */
  function Host(url: string): string
  {
    if Scheme <= url then AddressHost(url[|Scheme|..]) else ""
  }

  lemma {:induction false} AuthorityBeforeEnd(a: string, rest: string)
    requires rest != [] && IsAuthorityEnd(rest[0])
    ensures Authority(a + rest) == Authority(a)
  {
    if a == [] {
      assert a + rest == rest;
    } else {
      assert (a + rest)[0] == a[0] && (a + rest)[1..] == a[1..] + rest;
      AuthorityBeforeEnd(a[1..], rest);
    }
  }

  /** A URL built as scheme, address text, then a path or query addresses the
      host of the address text. */
  lemma HostOfUrl(host: string, rest: string)
    requires rest != [] && IsAuthorityEnd(rest[0])
    ensures Host(Scheme + host + rest) == AddressHost(host)
  {
    var url := Scheme + host + rest;
    assert Scheme <= url;
    assert url[|Scheme|..] == host + rest;
    AuthorityBeforeEnd(host, rest);
  }

  /** `http://<master>/admin/getCluster`, addressed to `master`. */
  function GetClusterUrl(master: string): (url: string)
    ensures Host(url) == AddressHost(master)
  {
    HostOfUrl(master, "/admin/getCluster");
    Scheme + master + "/admin/getCluster"
  }

  /** `http://<leader>/admin/createVol?name=<name>&replicas=3&type=extent`,
      addressed to `leader`. */
  function CreateVolUrl(leader: string, name: string): (url: string)
    ensures Host(url) == AddressHost(leader)
  {
    var rest := "/admin/createVol?name=" + name + "&replicas=3&type=extent";
    HostOfUrl(leader, rest);
    assert Scheme + leader + rest
        == Scheme + leader + "/admin/createVol?name=" + name + "&replicas=3&type=extent";
    Scheme + leader + "/admin/createVol?name=" + name + "&replicas=3&type=extent"
  }

  /** `http://<leader>/dataPartition/create?count=<count>&name=<name>&type=extent`,
      addressed to `leader`. */
  function CreatePartitionsUrl(leader: string, count: nat, name: string): (url: string)
    ensures Host(url) == AddressHost(leader)
  {
    var rest := "/dataPartition/create?count=" + Decimal.Itoa(count) + "&name=" + name + "&type=extent";
    HostOfUrl(leader, rest);
    assert Scheme + leader + rest
        == Scheme + leader + "/dataPartition/create?count=" + Decimal.Itoa(count) + "&name=" + name + "&type=extent";
    Scheme + leader + "/dataPartition/create?count=" + Decimal.Itoa(count) + "&name=" + name + "&type=extent"
  }

  /** `http://<leader>/vol/delete?name=<volumeId>`, addressed to `leader`. */
  function DeleteVolUrl(leader: string, volumeId: string): (url: string)
    ensures Host(url) == AddressHost(leader)
  {
    var rest := "/vol/delete?name=" + volumeId;
    HostOfUrl(leader, rest);
    assert Scheme + leader + rest == Scheme + leader + "/vol/delete?name=" + volumeId;
    Scheme + leader + "/vol/delete?name=" + volumeId
  }

  /** What `http.Get` of a getCluster URL addressed to `host` yields: Go refuses
      a URL without a host before sending anything; otherwise the cluster answers. */
  function ClusterReplyFor(host: string, reply: ClusterInfo): (r: ClusterInfo)
    ensures host == "" ==> r == ClusterUnreachable
    ensures host != "" ==> r == reply
  {
    if host == "" then ClusterUnreachable else reply
  }

  /** What `http.Get` of an admin URL addressed to `host` yields: no response
      when there is no host, otherwise the cluster's answer. */
  function AdminReplyFor(host: string, reply: AdminReply): (r: AdminReply)
    ensures host == "" ==> r == NoResponse
    ensures host != "" ==> r == reply
  {
    if host == "" then NoResponse else reply
  }

  /** The volume a successful CreateVolume returns: the id is the name, and the
      attributes are the name and the three master parameters, each under its
      own key and nothing else. */
  function CreatedVolume(name: string, parameters: map<string, string>): (v: Volume)
    ensures v.id == name
    ensures v.attributes.Keys == {"cfsvolname", "cfsMaster1", "cfsMaster2", "cfsMaster3"}
    ensures v.attributes["cfsvolname"] == name
    ensures v.attributes["cfsMaster1"] == Lookup(parameters, "cfsMaster1")
    ensures v.attributes["cfsMaster2"] == Lookup(parameters, "cfsMaster2")
    ensures v.attributes["cfsMaster3"] == Lookup(parameters, "cfsMaster3")
  {
    Volume(name, map[
      "cfsvolname" := name,
      "cfsMaster1" := Lookup(parameters, "cfsMaster1"),
      "cfsMaster2" := Lookup(parameters, "cfsMaster2"),
      "cfsMaster3" := Lookup(parameters, "cfsMaster3")])
  }

  /** The partition count CreateVolume requests for `req`. */
  function RequestedPartitions(req: CreateVolumeRequest): nat
  {
    Sizing.PartitionCount(Sizing.RequestedGiB(req.capacityRange))
  }

  /** CreateVolume on state `s`: the new state and the reply. A request whose
      URL names no host (its host is `AddressHost` of the address it is built
      from) fails before reaching the cluster. Requests are only ever appended,
      at most three of them, and all three on success. */
  function Create(s: ControllerState, canCreateDelete: bool, req: CreateVolumeRequest, replies: CreateReplies)
    : (result: (ControllerState, Result<Volume, ControllerError>))
    ensures s.sent <= result.0.sent && |result.0.sent| <= |s.sent| + 3
    ensures result.1.Ok? ==> |result.0.sent| == |s.sent| + 3 && result.1.value.id == req.name
    ensures !canCreateDelete ==> result.0 == s
  {
    if !canCreateDelete then (s, Err(CreateDeleteNotSupported))
    else
      var master1 := Lookup(req.parameters, "cfsMaster1");
      var clusterUrl := GetClusterUrl(master1);
      var s1 := ControllerState(master1, s.sent + [clusterUrl]);
      match ClusterReplyFor(AddressHost(master1), replies.getCluster)
      case ClusterUnreachable => (s1, Err(RequestFailed(clusterUrl)))
      case ClusterInfo(leader) =>
        var volUrl := CreateVolUrl(leader, req.name);
        var s2 := s1.(sent := s1.sent + [volUrl]);
        match AdminReplyFor(AddressHost(leader), replies.createVol)
        case NoResponse => (s2, Err(RequestFailed(volUrl)))
        case BodyUnreadable => (s2, Err(ResponseUnreadable(volUrl)))
        case BodyRead =>
          var partUrl := CreatePartitionsUrl(leader, RequestedPartitions(req), req.name);
          var s3 := s2.(sent := s2.sent + [partUrl]);
          match AdminReplyFor(AddressHost(leader), replies.createPartitions)
          case NoResponse => (s3, Err(RequestFailed(partUrl)))
          case BodyUnreadable => (s3, Err(ResponseUnreadable(partUrl)))
          case BodyRead => (s3, Ok(CreatedVolume(req.name, req.parameters)))
  }

  /** DeleteVolume on state `s`: the new state and the reply. As in Create, a
      request whose URL names no host fails. It never changes the default master
      and appends at most two requests. */
  function Delete(s: ControllerState, canCreateDelete: bool, volumeId: string, replies: DeleteReplies)
    : (result: (ControllerState, Result<(), ControllerError>))
    ensures result.0.defaultMaster == s.defaultMaster
    ensures s.sent <= result.0.sent && |result.0.sent| <= |s.sent| + 2
    ensures result.1.Ok? ==> |result.0.sent| == |s.sent| + 2
  {
    if !canCreateDelete then (s, Err(CreateDeleteNotSupported))
    else
      var clusterUrl := GetClusterUrl(s.defaultMaster);
      var s1 := s.(sent := s.sent + [clusterUrl]);
      match ClusterReplyFor(AddressHost(s.defaultMaster), replies.getCluster)
      case ClusterUnreachable => (s1, Err(RequestFailed(clusterUrl)))
      case ClusterInfo(leader) =>
        var deleteUrl := DeleteVolUrl(leader, volumeId);
        var s2 := s1.(sent := s1.sent + [deleteUrl]);
        if AdminReplyFor(AddressHost(leader), replies.deleteVol) == NoResponse then (s2, Err(RequestFailed(deleteUrl)))
        else (s2, Ok(()))
  }

  /** The controller server. `defaultMaster` is the process-wide variable that
      CreateVolume writes and DeleteVolume reads; `sent` records every URL passed
      to `http.Get`, in order, including those refused for having no host. */
  class ControllerServer {
    /** Whether the driver advertises the CREATE_DELETE_VOLUME capability. */
    const canCreateDelete: bool
    var defaultMaster: string
    var sent: seq<string>

    function State(): ControllerState
      reads this
    {
      ControllerState(defaultMaster, sent)
    }

    constructor (canCreateDelete: bool)
      ensures this.canCreateDelete == canCreateDelete
      ensures State() == ControllerState("", [])
    {
      this.canCreateDelete := canCreateDelete;
      defaultMaster := "";
      sent := [];
    }

    /** `http.Get` of a getCluster URL: records the URL and yields what came back. */
    method GetCluster(url: string, reply: ClusterInfo) returns (r: ClusterInfo)
      modifies this
      ensures sent == old(sent) + [url]
      ensures defaultMaster == old(defaultMaster)
      ensures r == ClusterReplyFor(Host(url), reply)
    {
      sent := sent + [url];
      r := if Host(url) == "" then ClusterUnreachable else reply;
    }

    /** `http.Get` of an admin URL: records the URL and yields what came back. */
    method Get(url: string, reply: AdminReply) returns (r: AdminReply)
      modifies this
      ensures sent == old(sent) + [url]
      ensures defaultMaster == old(defaultMaster)
      ensures r == AdminReplyFor(Host(url), reply)
    {
      sent := sent + [url];
      r := if Host(url) == "" then NoResponse else reply;
    }

    method CreateVolume(req: CreateVolumeRequest, replies: CreateReplies)
      returns (r: Result<Volume, ControllerError>)
      modifies this
      ensures (State(), r) == Create(old(State()), canCreateDelete, req, replies)
    {
      if !canCreateDelete {
        return Err(CreateDeleteNotSupported);
      }

      var volSizeBytes: nat := Sizing.GiB;
      if req.capacityRange.Some? {
        volSizeBytes := req.capacityRange.value.requiredBytes;
      }
      var volSizeGB := Sizing.RoundUpSize(volSizeBytes, Sizing.GiB);

      var volName := req.name;
      var master1 := Lookup(req.parameters, "cfsMaster1");
      var master2 := Lookup(req.parameters, "cfsMaster2");
      var master3 := Lookup(req.parameters, "cfsMaster3");
      defaultMaster := master1;

      var clusterUrl := GetClusterUrl(master1);
      var cluster := GetCluster(clusterUrl, replies.getCluster);
      if cluster.ClusterUnreachable? {
        return Err(RequestFailed(clusterUrl));
      }
      var leader := cluster.leaderAddr;

      var volUrl := CreateVolUrl(leader, volName);
      var volReply := Get(volUrl, replies.createVol);
      if volReply == NoResponse {
        return Err(RequestFailed(volUrl));
      }
      if volReply == BodyUnreadable {
        return Err(ResponseUnreadable(volUrl));
      }

      var count: nat;
      if volSizeGB % 120 == 0 {
        count := volSizeGB / 120;
      } else {
        count := volSizeGB / 120 + 1;
        volSizeGB := count * 120;
      }
      assert volSizeGB == Sizing.ProvisionedGiB(Sizing.RequestedGiB(req.capacityRange));

      var partUrl := CreatePartitionsUrl(leader, count, volName);
      var partReply := Get(partUrl, replies.createPartitions);
      if partReply == NoResponse {
        return Err(RequestFailed(partUrl));
      }
      if partReply == BodyUnreadable {
        return Err(ResponseUnreadable(partUrl));
      }

      r := Ok(Volume(volName, map[
        "cfsvolname" := volName,
        "cfsMaster1" := master1,
        "cfsMaster2" := master2,
        "cfsMaster3" := master3]));
    }

    method DeleteVolume(volumeId: string, replies: DeleteReplies)
      returns (r: Result<(), ControllerError>)
      modifies this
      ensures (State(), r) == Delete(old(State()), canCreateDelete, volumeId, replies)
    {
      if !canCreateDelete {
        return Err(CreateDeleteNotSupported);
      }
      var clusterUrl := GetClusterUrl(defaultMaster);
      var cluster := GetCluster(clusterUrl, replies.getCluster);
      if cluster.ClusterUnreachable? {
        return Err(RequestFailed(clusterUrl));
      }
      var leader := cluster.leaderAddr;

      var deleteUrl := DeleteVolUrl(leader, volumeId);
      var deleteReply := Get(deleteUrl, replies.deleteVol);
      if deleteReply == NoResponse {
        return Err(RequestFailed(deleteUrl));
      }
      r := Ok(());
    }
  }

  /** CSI access modes, UNKNOWN being what an absent access mode reads as. */
  datatype AccessMode =
    | Unknown
    | SingleNodeWriter
    | SingleNodeReaderOnly
    | MultiNodeReaderOnly
    | MultiNodeSingleWriter
    | MultiNodeMultiWriter

  datatype VolumeCapability = VolumeCapability(accessMode: Option<AccessMode>)

  function ModeOf(cap: VolumeCapability): AccessMode
  {
    match cap.accessMode
    case None => Unknown
    case Some(mode) => mode
  }

  /** ValidateVolumeCapabilities: supported exactly when every capability asks
      for MULTI_NODE_MULTI_WRITER. It reads no server state. */
  method ValidateVolumeCapabilities(caps: seq<VolumeCapability>) returns (supported: bool)
    ensures supported <==> forall i :: 0 <= i < |caps| ==> ModeOf(caps[i]) == MultiNodeMultiWriter
  {
    for i := 0 to |caps|
      invariant forall j :: 0 <= j < i ==> ModeOf(caps[j]) == MultiNodeMultiWriter
    {
      if ModeOf(caps[i]) != MultiNodeMultiWriter {
        return false;
      }
    }
    return true;
  }
}
