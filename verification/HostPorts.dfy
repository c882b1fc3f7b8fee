/** The host ports that the compose file publishes, traced back to the port allocation of init. */
module HostPorts {
  import opened Wrappers
  import opened Decimal
  import opened Names
  import opened Types
  import opened ComposeSpec
  import opened ComposeFacts
  import opened ComposeExact
  import Ports

  /** What a published host port is for: an allocated port, the RPC port of a quorum node, or a port that is written
      down in the code or given by a flag of its own. */
  datatype HostUse =
    | Allocated(use: Ports.PortUse)
    | QuorumRPC(i: nat)
    | PrometheusWeb
    | Fixed(port: int)

  /** The stack init makes from its options, as far as ports are concerned. */
  ghost predicate MadeFrom(o: InitOptions, s: Stack) {
    && |s.members| == o.memberCount
    && (forall i :: 0 <= i < |s.members| ==> Ports.IsMember(o, i, s.members[i]))
    && s.blockchainPort == o.servicesBasePort && s.ptmPort == o.ptmBasePort
    && s.tokenProviders == o.tokenProviders && s.sandboxEnabled == o.sandboxEnabled
    && s.prometheusEnabled == o.prometheusEnabled && (o.prometheusEnabled ==> s.prometheusPort == o.prometheusPort)
  }

  lemma MadeIsValid(o: InitOptions, s: Stack)
    requires MadeFrom(o, s)
    ensures ValidStack(s)
  {
    forall i | 0 <= i < |s.members|
      ensures s.members[i].index == i && s.members[i].id == Digits(i) && |s.members[i].tokensPorts| == |s.tokenProviders|
    {
      assert Ports.IsMember(o, i, s.members[i]);
    }
  }

  function PortFor(o: InitOptions, h: HostUse): int {
    match h
    case Allocated(use) => Ports.PlannedPort(o, use)
    case QuorumRPC(i) => Ports.QuorumNodePort(o, i)
    case PrometheusWeb => o.prometheusPort
    case Fixed(port) => port
  }

  /** The uses behind the published ports of a service, in the order in which it lists them. */
  function UsesOf(id: ServiceId): seq<HostUse> {
    match id
    case Core(i) => [Allocated(Ports.FireFly(i)), Allocated(Ports.Spi(i))]
    case Postgres(i) => [Allocated(Ports.DatabasePort(i))]
    case Ipfs(i) => [Allocated(Ports.IpfsApi(i)), Allocated(Ports.IpfsGateway(i))]
    case DataExchange(i) => [Allocated(Ports.DataExchange(i))]
    case Sandbox(i) => [Allocated(Ports.Sandbox(i))]
    case Prometheus => [PrometheusWeb]
    case Geth => [Allocated(Ports.Blockchain)]
    case Besu => []
    case Ethsigner => [Allocated(Ports.Blockchain)]
    case Tezossigner => [Allocated(Ports.Blockchain), Fixed(9583)]
    case Quorum(i) => [QuorumRPC(i)]
    case Tessera(i) => [Allocated(Ports.Ptm(i))]
    case Connector(_, i) => [Allocated(Ports.Connector(i))]
    case Tokens(i, k) => [Allocated(Ports.Token(i, k))]
    case FabricCA => [Fixed(7054), Fixed(17054)]
    case FabricOrderer => [Fixed(7050), Fixed(7053), Fixed(17050)]
    case FabricPeer => [Fixed(7051), Fixed(17051)]
  }

  function PortsOf(s: Stack, id: ServiceId): seq<Publication>
    requires ValidStack(s) && Present(s, id)
  {
    ServiceOf(s, id).body.ports
  }

  /** Every published port is the port init planned for its use. */
  lemma PublishedAsPlanned(o: InitOptions, s: Stack, id: ServiceId, j: nat)
    requires MadeFrom(o, s) && ValidStack(s) && Present(s, id)
    ensures |PortsOf(s, id)| == |UsesOf(id)|
    ensures j < |UsesOf(id)| ==> PortsOf(s, id)[j].host == PortFor(o, UsesOf(id)[j])
  {
    if id.Core? || id.Postgres? || id.Ipfs? || id.DataExchange? || id.Sandbox? {
      PublishedByMember(o, s, id, j);
    } else if id.Tokens? {
      RecordedAsPlanned(o, s, id.i, Ports.Token(id.i, id.k));
      assert PortsOf(s, id) == [Publication(s.members[id.i].tokensPorts[id.k], 3000)];
    } else if id.Connector? {
      RecordedAsPlanned(o, s, id.i, Ports.Connector(id.i));
      assert PortsOf(s, id) == [Publication(s.members[id.i].connectorPort, ConnectorPort(id.kind))];
    } else {
      PublishedByNode(o, s, id, j);
    }
  }

  lemma PublishedByNode(o: InitOptions, s: Stack, id: ServiceId, j: nat)
    requires MadeFrom(o, s) && ValidStack(s) && Present(s, id)
    requires !id.Core? && !id.Postgres? && !id.Ipfs? && !id.DataExchange? && !id.Sandbox? && !id.Tokens? && !id.Connector?
    ensures |PortsOf(s, id)| == |UsesOf(id)|
    ensures j < |UsesOf(id)| ==> PortsOf(s, id)[j].host == PortFor(o, UsesOf(id)[j])
  {
  }

  lemma RecordedAsPlanned(o: InitOptions, s: Stack, i: nat, use: Ports.PortUse)
    requires MadeFrom(o, s) && i < |s.members| && use != Ports.Blockchain && use.i == i && Ports.InUse(o, i + 1, use)
    requires use.Token? ==> use.k < |s.members[i].tokensPorts|
    ensures Ports.RecordedPort(s.members[i], use) == Ports.PlannedPort(o, use)
  {
    assert Ports.IsMember(o, i, s.members[i]);
  }

  lemma PublishedByMember(o: InitOptions, s: Stack, id: ServiceId, j: nat)
    requires MadeFrom(o, s) && ValidStack(s) && Present(s, id)
    requires id.Core? || id.Postgres? || id.Ipfs? || id.DataExchange? || id.Sandbox?
    ensures |MemberBody(s, id).ports| == |UsesOf(id)|
    ensures j < |UsesOf(id)| ==> MemberBody(s, id).ports[j].host == PortFor(o, UsesOf(id)[j])
  {
    var i := id.i;
    match id
    case Core(_) =>
      RecordedAsPlanned(o, s, i, Ports.FireFly(i));
      RecordedAsPlanned(o, s, i, Ports.Spi(i));
    case Postgres(_) =>
      RecordedAsPlanned(o, s, i, Ports.DatabasePort(i));
    case Ipfs(_) =>
      RecordedAsPlanned(o, s, i, Ports.IpfsApi(i));
      RecordedAsPlanned(o, s, i, Ports.IpfsGateway(i));
    case DataExchange(_) =>
      RecordedAsPlanned(o, s, i, Ports.DataExchange(i));
    case Sandbox(_) =>
      RecordedAsPlanned(o, s, i, Ports.Sandbox(i));
  }

  // ---------------------------------------------------------------- no two services publish the same port

  ghost predicate HostPortsDistinct(s: Stack)
    requires ValidStack(s)
  {
    forall a, b, j: nat, k: nat ::
      Present(s, a) && Present(s, b) && j < |PortsOf(s, a)| && k < |PortsOf(s, b)|
      && PortsOf(s, a)[j].host == PortsOf(s, b)[k].host
      ==> a == b && j == k
  }

  /** Some service of the stack publishes a port for this use. */
  ghost predicate Published(s: Stack, h: HostUse) {
    exists id :: Present(s, id) && h in UsesOf(id)
  }

  /** The plan keeps the published uses apart. */
  ghost predicate PlanDistinct(o: InitOptions, s: Stack) {
    forall g, h :: Published(s, g) && Published(s, h) && PortFor(o, g) == PortFor(o, h) ==> g == h
  }

  /** Only one service of a stack has a port for a given use, and it has one. */
  lemma UseIdentifiesService(s: Stack, a: ServiceId, b: ServiceId, j: nat, k: nat)
    requires Present(s, a) && Present(s, b) && j < |UsesOf(a)| && k < |UsesOf(b)| && UsesOf(a)[j] == UsesOf(b)[k]
    ensures a == b && j == k
  {
  }

  lemma HostPortsDistinctExactly(o: InitOptions, s: Stack)
    requires MadeFrom(o, s) && ValidStack(s)
    ensures HostPortsDistinct(s) <==> PlanDistinct(o, s)
  {
    if PlanDistinct(o, s) {
      forall a, b, j: nat, k: nat | Present(s, a) && Present(s, b) && j < |PortsOf(s, a)| && k < |PortsOf(s, b)|
                    && PortsOf(s, a)[j].host == PortsOf(s, b)[k].host
        ensures a == b && j == k
      {
        PublishedAsPlanned(o, s, a, j);
        PublishedAsPlanned(o, s, b, k);
        assert UsesOf(a)[j] in UsesOf(a) && UsesOf(b)[k] in UsesOf(b);
        assert Published(s, UsesOf(a)[j]) && Published(s, UsesOf(b)[k]);
        UseIdentifiesService(s, a, b, j, k);
      }
    }
    if HostPortsDistinct(s) {
      forall g, h | Published(s, g) && Published(s, h) && PortFor(o, g) == PortFor(o, h)
        ensures g == h
      {
        var a :| Present(s, a) && g in UsesOf(a);
        var b :| Present(s, b) && h in UsesOf(b);
        var j :| 0 <= j < |UsesOf(a)| && UsesOf(a)[j] == g;
        var k :| 0 <= k < |UsesOf(b)| && UsesOf(b)[k] == h;
        PublishedAsPlanned(o, s, a, j);
        PublishedAsPlanned(o, s, b, k);
        assert PortsOf(s, a)[j].host == PortsOf(s, b)[k].host;
      }
    }
  }

  // ---------------------------------------------------------------- the defaults

  /** The published uses of the allocation. */
  lemma AllocatedInUse(o: InitOptions, s: Stack, use: Ports.PortUse)
    requires MadeFrom(o, s) && Published(s, Allocated(use))
    ensures Ports.InUse(o, o.memberCount, use)
  {
    var id :| Present(s, id) && Allocated(use) in UsesOf(id);
    var j :| 0 <= j < |UsesOf(id)| && UsesOf(id)[j] == Allocated(use);
    AllocatedByService(o, s, id, j);
  }

  lemma AllocatedByService(o: InitOptions, s: Stack, id: ServiceId, j: nat)
    requires MadeFrom(o, s) && Present(s, id) && j < |UsesOf(id)| && UsesOf(id)[j].Allocated?
    ensures Ports.InUse(o, o.memberCount, UsesOf(id)[j].use)
  {
  }

  /** The ports that a provider's services have in the code itself. */
  predicate FixedFor(s: Stack, port: int) {
    || (s.provider.Tezos? && port == 9583)
    || (s.provider == Fabric(false) && port in {7050, 7051, 7053, 7054, 17050, 17051, 17054})
  }

  predicate DefaultFlags(o: InitOptions) {
    Ports.DefaultBases(o) && o.prometheusPort == 9090
  }

  /** How many members there can be: the next one's tessera would get member 0's FireFly port, or its core the blockchain
      port or, on fabric, which has none, member 0's SPI port. */
  function MemberBound(s: Stack): nat {
    match s.provider
    case QuorumNode(_, tessera) => if tessera then 90 else 100
    case Fabric(_) => 101
    case _ => 100
  }

  /** How far a member's offsets may reach: up to the orderer's port, to Prometheus or to the tezos signer as soon as
      there is a member whose range contains it, to the next quorum node, to the next member. */
  function OffsetBound(s: Stack, n: nat): nat {
    if n == 1 then
      if s.provider == Fabric(false) then 1950
      else if s.prometheusEnabled then 3990
      else if s.provider.Tezos? then 4483
      else 5105
    else if s.provider.QuorumNode? then 10
    else if s.provider == Fabric(false) && n >= 20 then 50
    else if s.provider.Tezos? && n >= 45 then 83
    else if s.prometheusEnabled && n >= 40 then 90
    else 101
  }

  predicate Fits(o: InitOptions, s: Stack) {
    o.memberCount == 0 || (o.memberCount <= MemberBound(s) && Ports.Span(o) <= OffsetBound(s, o.memberCount))
  }

  lemma UsesFitProvider(s: Stack, h: HostUse)
    requires Published(s, h)
    ensures h.Fixed? ==> FixedFor(s, h.port)
    ensures h.PrometheusWeb? ==> s.prometheusEnabled
    ensures h.QuorumRPC? ==> s.provider.QuorumNode? && h.i < |s.members|
    ensures h == Allocated(Ports.Blockchain) ==> !s.provider.QuorumNode? && !s.provider.Fabric?
    ensures h.Allocated? && h.use.Ptm? ==> s.provider.QuorumNode? && s.provider.tessera
  {
    var id :| Present(s, id) && h in UsesOf(id);
  }

  // ---------------------------------------------------------------- enough

  /** Where the ports of the ranges lie. */
  lemma PortShape(o: InitOptions, s: Stack, use: Ports.PortUse)
    requires MadeFrom(o, s) && Ports.DefaultBases(o) && Fits(o, s) && Ports.InUse(o, o.memberCount, use)
    ensures use.FireFly? ==> 5000 <= Ports.PlannedPort(o, use) < 5000 + o.memberCount <= 5101
    ensures use.Ptm? ==> Ports.PlannedPort(o, use) <= 5100 && (o.memberCount <= 90 ==> Ports.PlannedPort(o, use) < 5000)
    ensures Ports.IsServiceUse(use) ==>
              var i, d := Ports.MemberOf(use), Ports.Offset(o, use);
              && Ports.PlannedPort(o, use) == (if Ports.Doubled(use) then 10200 + 200 * i + d else 5100 + 100 * i + d)
              && (use == Ports.Blockchain || (i < o.memberCount && 0 < d < Ports.Span(o)))
  {
  }

  lemma PlannedApart(o: InitOptions, s: Stack, use: Ports.PortUse, port: int)
    requires MadeFrom(o, s) && DefaultFlags(o) && Fits(o, s) && Ports.InUse(o, o.memberCount, use)
    requires (port == 9090 && s.prometheusEnabled) || FixedFor(s, port)
    ensures Ports.PlannedPort(o, use) != port
  {
    PortShape(o, s, use);
    if Ports.IsServiceUse(use) {
      var i, d := Ports.MemberOf(use), Ports.Offset(o, use);
      if Ports.Doubled(use) {
        assert Ports.PlannedPort(o, use) == 100 * (102 + 2 * i) + d;
        LastDigits(102 + 2 * i, d, port);
      } else if use != Ports.Blockchain && o.memberCount > 1 {
        assert Ports.PlannedPort(o, use) == 100 * (51 + i) + d;
        LastDigits(51 + i, d, port);
      }
    }
  }

  /** The hundreds name the member that could get such a port, the last digits the offset. */
  lemma LastDigits(q: int, d: nat, port: int)
    requires d <= 100 && port in {9090, 9583, 7050, 7051, 7053, 7054, 17050, 17051, 17054}
    ensures 100 * q + d == port ==> q == port / 100 && d == port % 100 >= 50
  {
  }

  lemma PlannedClearOfQuorum(o: InitOptions, s: Stack, i: nat, use: Ports.PortUse)
    requires MadeFrom(o, s) && DefaultFlags(o) && Fits(o, s) && s.provider.QuorumNode? && i < o.memberCount
    requires Ports.InUse(o, o.memberCount, use) && use != Ports.Blockchain
    ensures Ports.PlannedPort(o, use) != Ports.QuorumNodePort(o, i)
  {
    PortShape(o, s, use);
    if Ports.IsServiceUse(use) && o.memberCount > 1 && Ports.PlannedPort(o, use) == Ports.QuorumNodePort(o, i) {
      Ports.QuorumPortApart(o, o.memberCount, i, use);
    }
  }

  lemma FittingServices(o: InitOptions, s: Stack)
    requires MadeFrom(o, s) && Ports.DefaultBases(o) && Fits(o, s)
    ensures Ports.ServicesApart(o, o.memberCount)
  {
  }

  /** The FireFly and the private transaction manager range stay clear of the services, and of each other. */
  lemma RangesApart(o: InitOptions, s: Stack, a: Ports.PortUse, b: Ports.PortUse)
    requires MadeFrom(o, s) && Ports.DefaultBases(o) && Fits(o, s)
    requires Ports.InUse(o, o.memberCount, a) && Ports.InUse(o, o.memberCount, b) && !Ports.IsServiceUse(a)
    requires (a.Ptm? || b.Ptm?) ==> o.memberCount <= 90
    requires b == Ports.Blockchain ==> o.memberCount <= 100
    ensures Ports.PlannedPort(o, a) == Ports.PlannedPort(o, b) ==> a == b
  {
    PortShape(o, s, a);
    PortShape(o, s, b);
  }

  lemma AllocatedApart(o: InitOptions, s: Stack, a: Ports.PortUse, b: Ports.PortUse)
    requires MadeFrom(o, s) && DefaultFlags(o) && Fits(o, s)
    requires Published(s, Allocated(a)) && Published(s, Allocated(b)) && Ports.PlannedPort(o, a) == Ports.PlannedPort(o, b)
    ensures a == b
  {
    AllocatedInUse(o, s, a);
    AllocatedInUse(o, s, b);
    if Ports.IsServiceUse(a) && Ports.IsServiceUse(b) {
      FittingServices(o, s);
      Ports.ServiceUsesApart(o, o.memberCount, a, b);
    } else {
      UsesFitProvider(s, Allocated(a));
      UsesFitProvider(s, Allocated(b));
      if Ports.IsServiceUse(a) { RangesApart(o, s, b, a); } else { RangesApart(o, s, a, b); }
    }
  }

  lemma QuorumApart(o: InitOptions, s: Stack, i: nat, h: HostUse)
    requires MadeFrom(o, s) && DefaultFlags(o) && Fits(o, s)
    requires Published(s, QuorumRPC(i)) && Published(s, h) && PortFor(o, h) == Ports.QuorumNodePort(o, i)
    ensures h == QuorumRPC(i)
  {
    UsesFitProvider(s, QuorumRPC(i));
    UsesFitProvider(s, h);
    if h.Allocated? {
      AllocatedInUse(o, s, h.use);
      PlannedClearOfQuorum(o, s, i, h.use);
    }
  }

  lemma UsesApart(o: InitOptions, s: Stack, g: HostUse, h: HostUse)
    requires MadeFrom(o, s) && DefaultFlags(o) && Fits(o, s)
    requires Published(s, g) && Published(s, h) && PortFor(o, g) == PortFor(o, h)
    ensures g == h
  {
    if g.QuorumRPC? {
      QuorumApart(o, s, g.i, h);
    } else if h.QuorumRPC? {
      QuorumApart(o, s, h.i, g);
    } else if g.Allocated? && h.Allocated? {
      AllocatedApart(o, s, g.use, h.use);
    } else {
      UsesFitProvider(s, g);
      UsesFitProvider(s, h);
      if g.Allocated? {
        AllocatedInUse(o, s, g.use);
        PlannedApart(o, s, g.use, PortFor(o, h));
      } else if h.Allocated? {
        AllocatedInUse(o, s, h.use);
        PlannedApart(o, s, h.use, PortFor(o, g));
      }
    }
  }

  /** Whatever members are external, stacks within the bounds never compete for a host port. */
  lemma FittingPortsDistinct(o: InitOptions, s: Stack)
    requires MadeFrom(o, s) && ValidStack(s) && DefaultFlags(o) && Fits(o, s)
    ensures HostPortsDistinct(s)
  {
    forall g, h | Published(s, g) && Published(s, h) && PortFor(o, g) == PortFor(o, h)
      ensures g == h
    {
      UsesApart(o, s, g, h);
    }
    HostPortsDistinctExactly(o, s);
  }

  // ---------------------------------------------------------------- and needed

  lemma Clash(o: InitOptions, s: Stack, a: ServiceId, j: nat, b: ServiceId, k: nat)
    requires MadeFrom(o, s) && ValidStack(s) && Present(s, a) && Present(s, b) && j < |UsesOf(a)| && k < |UsesOf(b)|
    requires UsesOf(a)[j] != UsesOf(b)[k] && PortFor(o, UsesOf(a)[j]) == PortFor(o, UsesOf(b)[k])
    ensures !HostPortsDistinct(s)
  {
    assert UsesOf(a)[j] in UsesOf(a) && UsesOf(b)[k] in UsesOf(b);
    assert Published(s, UsesOf(a)[j]) && Published(s, UsesOf(b)[k]);
    HostPortsDistinctExactly(o, s);
  }

  /** From offset 10 on every offset is a token port or the sandbox's. */
  lemma LateOffset(o: InitOptions, s: Stack, i: nat, d: nat) returns (id: ServiceId)
    requires MadeFrom(o, s) && Ports.DefaultBases(o) && i < o.memberCount && 10 <= d < Ports.Span(o)
    ensures Present(s, id) && (id.Tokens? || id.Sandbox?) && |UsesOf(id)| == 1
    ensures PortFor(o, UsesOf(id)[0]) == 5100 + 100 * i + d
  {
    var use := Ports.OffsetTaken(o, o.memberCount, i, d);
    id := if use.Token? then Tokens(i, use.k) else Sandbox(i);
  }

  /** The member whose range runs into something first, and the service and its port that are in the way. */
  function InTheWay(s: Stack, n: nat): (nat, ServiceId, nat) {
    var d := OffsetBound(s, n);
    if n > 1 && s.provider.QuorumNode? then (0, Quorum(1), 0)
    else if s.provider == Fabric(false) && d != 101 then (if n == 1 then 0 else 19, FabricOrderer, 0)
    else if s.provider.Tezos? && (d == 83 || d == 4483) then (if n == 1 then 0 else 44, Tezossigner, 1)
    else if s.prometheusEnabled && d != 101 then (if n == 1 then 0 else 39, Prometheus, 0)
    else if n == 1 then (0, DataExchange(0), 0)
    else (0, Core(1), 1)
  }

  lemma InTheWayExact(o: InitOptions, s: Stack)
    requires |s.members| == o.memberCount > 0 && DefaultFlags(o) && (o.memberCount > 1 ==> Present(s, Core(1)))
    ensures var (i, id, k) := InTheWay(s, o.memberCount);
            && i < o.memberCount && Present(s, id) && k < |UsesOf(id)| && !id.Tokens? && !id.Sandbox?
            && PortFor(o, UsesOf(id)[k]) == 5100 + 100 * i + OffsetBound(s, o.memberCount)
  {
  }

  lemma OffsetTooFar(o: InitOptions, s: Stack)
    requires MadeFrom(o, s) && ValidStack(s) && DefaultFlags(o) && o.externalProcesses <= 0
    requires o.memberCount > 0 && Ports.Span(o) > OffsetBound(s, o.memberCount)
    ensures !HostPortsDistinct(s)
  {
    var (i, id, k) := InTheWay(s, o.memberCount);
    if o.memberCount > 1 { InternalCores(o, s, 1); }
    InTheWayExact(o, s);
    var late := LateOffset(o, s, i, OffsetBound(s, o.memberCount));
    assert UsesOf(late)[0] != UsesOf(id)[k] by {
      if UsesOf(late)[0] == UsesOf(id)[k] { UseIdentifiesService(s, late, id, 0, k); }
    }
    Clash(o, s, late, 0, id, k);
  }

  lemma InternalCores(o: InitOptions, s: Stack, i: nat)
    requires MadeFrom(o, s) && o.externalProcesses <= 0 && i < o.memberCount
    ensures Present(s, Core(i))
  {
    assert Ports.IsMember(o, i, s.members[i]);
  }

  /** The service that publishes the blockchain port. */
  function NodeService(s: Stack): ServiceId
    requires !s.provider.Fabric?
  {
    match s.provider
    case GethNode(_) => Geth
    case BesuNode(_) => Ethsigner
    case QuorumNode(_, _) => Quorum(0)
    case RemoteRPC(_) => Ethsigner
    case Tezos => Tezossigner
  }

  lemma NodeServicePublishes(o: InitOptions, s: Stack)
    requires |s.members| > 0 && DefaultFlags(o) && !s.provider.Fabric?
    ensures var id := NodeService(s); Present(s, id) && |UsesOf(id)| > 0 && PortFor(o, UsesOf(id)[0]) == 5100
    ensures !NodeService(s).Core?
  {
  }

  lemma TooManyForTessera(o: InitOptions, s: Stack)
    requires MadeFrom(o, s) && ValidStack(s) && DefaultFlags(o) && o.externalProcesses <= 0
    requires o.memberCount > 90 && s.provider.QuorumNode? && s.provider.tessera
    ensures !HostPortsDistinct(s)
  {
    InternalCores(o, s, 0);
    Clash(o, s, Tessera(90), 0, Core(0), 0);
  }

  lemma TooManyForFabric(o: InitOptions, s: Stack)
    requires MadeFrom(o, s) && ValidStack(s) && DefaultFlags(o) && o.externalProcesses <= 0
    requires o.memberCount > 101 && s.provider.Fabric?
    ensures !HostPortsDistinct(s)
  {
    InternalCores(o, s, 0);
    InternalCores(o, s, 101);
    Clash(o, s, Core(101), 0, Core(0), 1);
  }

  lemma TooManyForNode(o: InitOptions, s: Stack)
    requires MadeFrom(o, s) && ValidStack(s) && DefaultFlags(o) && o.externalProcesses <= 0
    requires o.memberCount > 100 && !s.provider.Fabric?
    ensures !HostPortsDistinct(s)
  {
    InternalCores(o, s, 100);
    NodeServicePublishes(o, s);
    Clash(o, s, Core(100), 0, NodeService(s), 0);
  }

  /** With the default flags, for every provider, the bounds are exact. */
  lemma DefaultHostPortsDistinctExactly(o: InitOptions, s: Stack)
    requires MadeFrom(o, s) && ValidStack(s) && DefaultFlags(o) && o.externalProcesses <= 0
    ensures HostPortsDistinct(s) <==> Fits(o, s)
  {
    if Fits(o, s) {
      FittingPortsDistinct(o, s);
    } else if o.memberCount > MemberBound(s) {
      if s.provider.Fabric? {
        TooManyForFabric(o, s);
      } else if MemberBound(s) == 90 {
        TooManyForTessera(o, s);
      } else {
        TooManyForNode(o, s);
      }
    } else {
      OffsetTooFar(o, s);
    }
  }

  /** One offset more would be one too many: a token port of member 19 is the orderer's port of a local fabric network. */
  lemma FabricPortTaken(o: InitOptions, s: Stack)
    requires MadeFrom(o, s) && Ports.DefaultBases(o) && s.provider == Fabric(false)
    requires o.memberCount >= 20 && Ports.Span(o) == 51 && |o.tokenProviders| == 43 && !o.prometheusEnabled
    ensures !HostPortsDistinct(s)
  {
    MadeIsValid(o, s);
    assert UsesOf(Tokens(19, 42))[0] == Allocated(Ports.Token(19, 42)) && UsesOf(FabricOrderer)[0] == Fixed(7050);
    Clash(o, s, Tokens(19, 42), 0, FabricOrderer, 0);
  }
}
