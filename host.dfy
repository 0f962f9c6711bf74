/**
 * A cluster node as the driver sees it (com.datastax.driver.core.Host): an endpoint that
 * identifies it, a handful of independently updated descriptive fields, and a state that
 * starts at ADDED and afterwards only moves between UP and DOWN.
 */
module Hosts {
  import opened Base

  /** Opaque descriptors the host only stores and hands back. */
  datatype EndPoint = EndPoint(id: nat)
  datatype InetAddress = InetAddress(bytes: seq<bv8>)
  datatype InetSocketAddress = InetSocketAddress(address: InetAddress, port: nat)
  datatype Uuid = Uuid(mostSignificant: bv64, leastSignificant: bv64)
  datatype Token = Token(id: nat)
  datatype ShardingInfo = ShardingInfo(id: nat)
  datatype LwtInfo = LwtInfo(id: nat)
  datatype ReconnectionPolicy = ReconnectionPolicy(id: nat)
  datatype ClusterManager = ClusterManager(reconnectionPolicy: ReconnectionPolicy)
  datatype ConvictionPolicyFactory = ConvictionPolicyFactory(id: nat)

  /** The policy a factory creates for one host, given the manager's reconnection policy. */
  datatype ConvictionPolicy = ConvictionPolicy(createdBy: ConvictionPolicyFactory, reconnectionPolicy: ReconnectionPolicy)

  /** A native protocol version, with the oldest server version that speaks it. */
  datatype ProtocolVersion = ProtocolVersion(minCassandraVersion: VersionNumber)

  /** `VersionNumber.compareTo` and `VersionNumber.nextStable`, which this model does not define. */
  datatype VersionOps = VersionOps(
    compareTo: (VersionNumber, VersionNumber) -> int,
    nextStable: VersionNumber -> VersionNumber)

  /** The exception `Host`'s constructor throws. */
  datatype HostError = NullPointerException

  datatype State = Added | Down | Up

  /** `State.name()`. */
  function StateName(s: State): string
  {
    match s
    case Added => "ADDED"
    case Down => "DOWN"
    case Up => "UP"
  }

  /** The two calls that change a host's state. */
  datatype Transition = MarkedUp | MarkedDown

  function Next(s: State, t: Transition): State
  {
    match t
    case MarkedUp => Up
    case MarkedDown => Down
  }

  /** The state reached from `s` by the calls `ts`, in order. */
  function Run(s: State, ts: seq<Transition>): State
    decreases |ts|
  {
    if ts == [] then s else Run(Next(s, ts[0]), ts[1..])
  }

  lemma {:induction false} RunSnoc(s: State, ts: seq<Transition>, t: Transition)
    ensures Run(s, ts + [t]) == Next(Run(s, ts), t)
    decreases |ts|
  {
    if ts != [] {
      assert (ts + [t])[1..] == ts[1..] + [t];
      RunSnoc(Next(s, ts[0]), ts[1..], t);
    }
  }

  /** After at least one call, the state is the one the most recent call set. */
  lemma {:induction false} RunReflectsLast(s: State, ts: seq<Transition>)
    ensures ts != [] ==> Run(s, ts) == if ts[|ts| - 1] == MarkedUp then Up else Down
    decreases |ts|
  {
    if |ts| > 1 {
      RunReflectsLast(Next(s, ts[0]), ts[1..]);
    }
  }

  /** No sequence of calls leads back to ADDED once it has been left. */
  lemma {:induction false} RunNeverReturnsToAdded(s: State, ts: seq<Transition>)
    ensures Run(s, ts) == Added <==> ts == [] && s == Added
  {
    RunReflectsLast(s, ts);
  }

  /** `ParseOrNull` is what `setVersion` and `setDseVersion` store: a parse failure becomes `null`. */
  function ParseOrNull(text: Option<string>, parse: string -> Option<VersionNumber>): (v: Option<VersionNumber>)
    ensures v.Some? <==> text.Some? && parse(text.value).Some?
    ensures v.Some? ==> v == parse(text.value)
  {
    match text
    case None => None
    case Some(t) => parse(t)
  }

  class Host {
    var endPoint: EndPoint
    var broadcastRpcAddress: Option<InetSocketAddress>
    var broadcastSocketAddress: Option<InetSocketAddress>
    var listenSocketAddress: Option<InetSocketAddress>
    var hostId: Option<Uuid>
    var schemaVersion: Option<Uuid>
    var shardingInfo: Option<ShardingInfo>
    var lwtInfo: Option<LwtInfo>
    var state: State
    const convictionPolicy: ConvictionPolicy
    const manager: ClusterManager
    var datacenter: Option<string>
    var rack: Option<string>
    var cassandraVersion: Option<VersionNumber>
    var tokens: Option<set<Token>>
    var dseWorkload: Option<string>
    var dseGraphEnabled: bool
    var dseVersion: Option<VersionNumber>

    /** The `setUp`/`setDown` calls made on this host since it was constructed, oldest first. */
    ghost var history: seq<Transition>

    ghost predicate Valid()
      reads this`state, this`history
    {
      state == Run(Added, history)
    }

    constructor (endPoint: EndPoint, convictionPolicyFactory: ConvictionPolicyFactory, manager: ClusterManager)
      ensures Valid() && history == [] && state == Added
      ensures this.endPoint == endPoint && this.manager == manager
      ensures convictionPolicy == ConvictionPolicy(convictionPolicyFactory, manager.reconnectionPolicy)
      ensures broadcastRpcAddress.None? && broadcastSocketAddress.None? && listenSocketAddress.None?
      ensures hostId.None? && schemaVersion.None? && shardingInfo.None? && lwtInfo.None?
      ensures datacenter.None? && rack.None? && cassandraVersion.None? && tokens.None?
      ensures dseWorkload.None? && !dseGraphEnabled && dseVersion.None?
    {
      this.endPoint := endPoint;
      this.convictionPolicy := ConvictionPolicy(convictionPolicyFactory, manager.reconnectionPolicy);
      this.manager := manager;
      this.state := Added;
      broadcastRpcAddress, broadcastSocketAddress, listenSocketAddress := None, None, None;
      hostId, schemaVersion, shardingInfo, lwtInfo := None, None, None, None;
      datacenter, rack, cassandraVersion, tokens := None, None, None, None;
      dseWorkload, dseGraphEnabled, dseVersion := None, false, None;
      history := [];
    }

    /**
     * The constructor as the driver calls it: a null endpoint or conviction-policy factory is
     * rejected explicitly, and a null manager fails when its reconnection policy is read.
     */
    static method Create(endPoint: Option<EndPoint>, convictionPolicyFactory: Option<ConvictionPolicyFactory>,
                         manager: Option<ClusterManager>)
      returns (r: Result<Host, HostError>)
      ensures r.Failure? <==> endPoint.None? || convictionPolicyFactory.None? || manager.None?
      ensures r.Success? ==> fresh(r.value) && r.value.Valid() && r.value.history == []
      ensures r.Success? ==> r.value.state == Added && r.value.endPoint == endPoint.value
      ensures r.Success? ==> r.value.manager == manager.value
      ensures r.Success? ==> r.value.convictionPolicy == ConvictionPolicy(convictionPolicyFactory.value, manager.value.reconnectionPolicy)
      ensures r.Success? ==> r.value.broadcastRpcAddress.None? && r.value.broadcastSocketAddress.None? && r.value.listenSocketAddress.None?
      ensures r.Success? ==> r.value.hostId.None? && r.value.schemaVersion.None? && r.value.shardingInfo.None? && r.value.lwtInfo.None?
      ensures r.Success? ==> r.value.datacenter.None? && r.value.rack.None? && r.value.cassandraVersion.None? && r.value.tokens.None?
      ensures r.Success? ==> r.value.dseWorkload.None? && !r.value.dseGraphEnabled && r.value.dseVersion.None?
    {
      if endPoint.None? || convictionPolicyFactory.None? {
        return Failure(NullPointerException);
      }
      if manager.None? {
        return Failure(NullPointerException);
      }
      var h := new Host(endPoint.value, convictionPolicyFactory.value, manager.value);
      r := Success(h);
    }

    method SetLocationInfo(datacenter: Option<string>, rack: Option<string>)
      modifies this`datacenter, this`rack
      ensures this.datacenter == datacenter && this.rack == rack
    {
      this.datacenter := datacenter;
      this.rack := rack;
    }

    method SetVersion(cassandraVersion: Option<string>, parse: string -> Option<VersionNumber>)
      modifies this`cassandraVersion
      ensures this.cassandraVersion == ParseOrNull(cassandraVersion, parse)
    {
      var versionNumber: Option<VersionNumber> := None;
      if cassandraVersion.Some? {
        versionNumber := parse(cassandraVersion.value);
      }
      this.cassandraVersion := versionNumber;
    }

    method SetBroadcastRpcAddress(address: Option<InetSocketAddress>)
      modifies this`broadcastRpcAddress
      ensures broadcastRpcAddress == address
    {
      broadcastRpcAddress := address;
    }

    method SetBroadcastSocketAddress(address: Option<InetSocketAddress>)
      modifies this`broadcastSocketAddress
      ensures broadcastSocketAddress == address
    {
      broadcastSocketAddress := address;
    }

    method SetListenSocketAddress(address: Option<InetSocketAddress>)
      modifies this`listenSocketAddress
      ensures listenSocketAddress == address
    {
      listenSocketAddress := address;
    }

    method SetDseVersion(dseVersion: Option<string>, parse: string -> Option<VersionNumber>)
      modifies this`dseVersion
      ensures this.dseVersion == ParseOrNull(dseVersion, parse)
    {
      var versionNumber: Option<VersionNumber> := None;
      if dseVersion.Some? {
        versionNumber := parse(dseVersion.value);
      }
      this.dseVersion := versionNumber;
    }

    method SetDseWorkload(dseWorkload: Option<string>)
      modifies this`dseWorkload
      ensures this.dseWorkload == dseWorkload
    {
      this.dseWorkload := dseWorkload;
    }

    method SetDseGraphEnabled(dseGraphEnabled: bool)
      modifies this`dseGraphEnabled
      ensures this.dseGraphEnabled == dseGraphEnabled
    {
      this.dseGraphEnabled := dseGraphEnabled;
    }

    method SetHostId(hostId: Option<Uuid>)
      modifies this`hostId
      ensures this.hostId == hostId
    {
      this.hostId := hostId;
    }

    method SetSchemaVersion(schemaVersion: Option<Uuid>)
      modifies this`schemaVersion
      ensures this.schemaVersion == schemaVersion
    {
      this.schemaVersion := schemaVersion;
    }

    method SetEndPoint(endPoint: EndPoint)
      modifies this`endPoint
      ensures this.endPoint == endPoint
    {
      this.endPoint := endPoint;
    }

    method SetTokens(tokens: Option<set<Token>>)
      modifies this`tokens
      ensures this.tokens == tokens
    {
      this.tokens := tokens;
    }

    method SetShardingInfo(shardingInfo: Option<ShardingInfo>)
      modifies this`shardingInfo
      ensures this.shardingInfo == shardingInfo
    {
      this.shardingInfo := shardingInfo;
    }

    method SetLwtInfo(lwtInfo: Option<LwtInfo>)
      modifies this`lwtInfo
      ensures this.lwtInfo == lwtInfo
    {
      this.lwtInfo := lwtInfo;
    }

    /** A host without a known server version supports every protocol version. */
    function Supports(version: ProtocolVersion, ops: VersionOps): (r: bool)
      reads this`cassandraVersion
      ensures cassandraVersion.None? ==> r
      ensures cassandraVersion.Some? ==>
                (r <==> ops.compareTo(version.minCassandraVersion, ops.nextStable(cassandraVersion.value)) <= 0)
    {
      cassandraVersion.None?
      || ops.compareTo(version.minCassandraVersion, ops.nextStable(cassandraVersion.value)) <= 0
    }

    /** `getBroadcastAddress`: the address part of the broadcast socket address, if any. */
    function BroadcastAddress(): (a: Option<InetAddress>)
      reads this`broadcastSocketAddress
      ensures a.Some? <==> broadcastSocketAddress.Some?
      ensures a.Some? ==> a.value == broadcastSocketAddress.value.address
    {
      if broadcastSocketAddress.Some? then Some(broadcastSocketAddress.value.address) else None
    }

    /** `getListenAddress`: the address part of the listen socket address, if any. */
    function ListenAddress(): (a: Option<InetAddress>)
      reads this`listenSocketAddress
      ensures a.Some? <==> listenSocketAddress.Some?
      ensures a.Some? ==> a.value == listenSocketAddress.value.address
    {
      if listenSocketAddress.Some? then Some(listenSocketAddress.value.address) else None
    }

    /** `isUp` is true exactly when the most recent state change was `setUp`. */
    function IsUp(): (r: bool)
      reads this`state, this`history
      requires Valid()
      ensures r <==> history != [] && history[|history| - 1] == MarkedUp
    {
      RunReflectsLast(Added, history);
      state == Up
    }

    /** `wasJustAdded` holds exactly until the first `setUp` or `setDown`. */
    function WasJustAdded(): (r: bool)
      reads this`state, this`history
      requires Valid()
      ensures r <==> history == []
    {
      RunNeverReturnsToAdded(Added, history);
      state == Added
    }

    /** `getState`: the name of the current state. */
    function GetState(): (name: string)
      reads this`state, this`history
      requires Valid()
      ensures name == "ADDED" <==> history == []
      ensures name == "UP" <==> IsUp()
      ensures name == "DOWN" <==> history != [] && history[|history| - 1] == MarkedDown
    {
      RunNeverReturnsToAdded(Added, history);
      RunReflectsLast(Added, history);
      StateName(state)
    }

    method SetDown()
      requires Valid()
      modifies this`state, this`history
      ensures Valid() && state == Down
      ensures history == old(history) + [MarkedDown]
    {
      RunSnoc(Added, history, MarkedDown);
      state := Down;
      history := history + [MarkedDown];
    }

    method SetUp()
      requires Valid()
      modifies this`state, this`history
      ensures Valid() && state == Up
      ensures history == old(history) + [MarkedUp]
    {
      RunSnoc(Added, history, MarkedUp);
      state := Up;
      history := history + [MarkedUp];
    }

    /** Two hosts are equal exactly when their endpoints are; nothing that is not a host is equal to one. */
    function Equals(other: object?): (r: bool)
      reads this`endPoint, other
      ensures r <==> other is Host && (other as Host).endPoint == endPoint
    {
      if other is Host then (other as Host).endPoint == endPoint else false
    }

    /** `hashCode` is the endpoint's hash code. */
    function HashCode(endPointHash: EndPoint -> int32): (h: int32)
      reads this`endPoint
      ensures h == endPointHash(endPoint)
    {
      endPointHash(endPoint)
    }
  }

  /** Equal hosts have equal hash codes, whatever their other fields hold. */
  lemma EqualHostsHashAlike(a: Host, b: Host, endPointHash: EndPoint -> int32)
    requires a.Equals(b)
    ensures b.Equals(a)
    ensures a.HashCode(endPointHash) == b.HashCode(endPointHash)
  {
  }
}
