/** The URLs in a member's core config and in the services' environment: internal/core/config.go, the connector and token
    URL getters of the providers, and the member loop of writeConfig in internal/stacks/stack_manager.go. */
module Endpoints {
  import opened Wrappers
  import opened Decimal
  import opened Names
  import opened Types
  import opened ComposeSpec
  import opened ComposeFacts
  import opened ComposeExact
  import opened ComposeContents
  import opened HostPorts
  import opened ComposeGraph
  import Ports

  // ---------------------------------------------------------------- the getters

  function IpfsApiUrl(m: Organization): Endpoint {
    if !m.external then ServiceAddress(Ipfs(m.index), 5001) else Loopback(m.ipfsApiPort)
  }

  function IpfsGatewayUrl(m: Organization): Endpoint {
    if !m.external then ServiceAddress(Ipfs(m.index), 8080) else Loopback(m.ipfsGatewayPort)
  }

  function PostgresUrl(m: Organization): Endpoint {
    if !m.external then ServiceAddress(Postgres(m.index), 5432) else Loopback(m.databasePort)
  }

  function DataExchangeUrl(m: Organization): Endpoint {
    if !m.external then ServiceAddress(DataExchange(m.index), 3000) else Loopback(m.dataExchangePort)
  }

  function TokensUrl(m: Organization, k: nat): Endpoint
    requires k < |m.tokensPorts|
  {
    if !m.external then ServiceAddress(Tokens(m.index, k), 3000) else Loopback(m.tokensPorts[k])
  }

  function ConnectorUrl(p: Provider, m: Organization): Endpoint {
    ServiceAddress(Connector(ConnectorOf(p), m.index), ConnectorPort(ConnectorOf(p)))
  }

  function ConnectorExternalUrl(m: Organization): Endpoint {
    Loopback(m.connectorPort)
  }

  /** The core as its connector calls back; host.docker.internal stands for the host from inside a container. */
  function CoreUrl(m: Organization): Endpoint {
    if !m.external then ServiceAddress(Core(m.index), m.fireFlyPort) else Loopback(m.fireFlyPort)
  }

  // ---------------------------------------------------------------- a member's core config

  function TokenPlugins(s: Stack, m: Organization): seq<(TokenProvider, Endpoint)>
    requires |m.tokensPorts| == |s.tokenProviders|
  {
    seq(|s.tokenProviders|, k requires 0 <= k < |s.tokenProviders| => (s.tokenProviders[k], TokensUrl(m, k)))
  }

  datatype DatabaseUrl = PostgresAt(endpoint: Endpoint) | SQLiteAt(path: string)

  class CoreConfig {
    var httpPort: int
    var spiPort: int
    var metricsPort: Option<int>
    var ipfsApi: Endpoint
    var ipfsGateway: Endpoint
    var dataExchange: Endpoint
    var database: DatabaseUrl
    var blockchain: Option<Endpoint>
    var tokens: seq<(TokenProvider, Endpoint)>

    /** NewFireflyConfig. */
    constructor (s: Stack, m: Organization, runtimeDir: string)
      ensures httpPort == m.fireFlyPort && spiPort == m.spiPort
      ensures metricsPort == if s.prometheusEnabled then Some(m.fireFlyMetricsPort) else None
      ensures ipfsApi == IpfsApiUrl(m) && ipfsGateway == IpfsGatewayUrl(m) && dataExchange == DataExchangeUrl(m)
      ensures s.database == PostgresDB ==> database == PostgresAt(PostgresUrl(m))
      ensures s.database == SQLiteDB && !m.external ==> database == SQLiteAt("/etc/firefly/data/db/sqlite.db?_busy_timeout=5000")
      ensures s.database == SQLiteDB && m.external ==> database == SQLiteAt(runtimeDir + "/" + m.id + ".db")
      ensures blockchain == None && tokens == []
    {
      httpPort, spiPort := m.fireFlyPort, m.spiPort;
      blockchain, tokens := None, [];
      ipfsApi, ipfsGateway := IpfsApiUrl(m), IpfsGatewayUrl(m);
      dataExchange := DataExchangeUrl(m);
      if s.prometheusEnabled {
        metricsPort := Some(m.fireFlyMetricsPort);
      } else {
        metricsPort := None;
      }
      match s.database {
        case PostgresDB => database := PostgresAt(PostgresUrl(m));
        case SQLiteDB =>
          if !m.external {
            database := SQLiteAt("/etc/firefly/data/db/sqlite.db?_busy_timeout=5000");
          } else {
            database := SQLiteAt(runtimeDir + "/" + m.id + ".db");
          }
      }
    }

    /** The rest of the member loop of writeConfig: one blockchain plugin and the token plugins in order. */
    method AddPlugins(s: Stack, m: Organization)
      requires |m.tokensPorts| == |s.tokenProviders|
      modifies `blockchain, `tokens
      ensures blockchain == Some(if m.external then ConnectorExternalUrl(m) else ConnectorUrl(s.provider, m))
      ensures tokens == old(tokens) + TokenPlugins(s, m)
    {
      var connectorURL: Endpoint;
      if m.external {
        connectorURL := ConnectorExternalUrl(m);
      } else {
        connectorURL := ConnectorUrl(s.provider, m);
      }
      blockchain := Some(connectorURL);
      for k := 0 to |s.tokenProviders|
        invariant tokens == old(tokens) + TokenPlugins(s, m)[..k]
        invariant blockchain == Some(if m.external then ConnectorExternalUrl(m) else ConnectorUrl(s.provider, m))
      {
        tokens := tokens + [(s.tokenProviders[k], TokensUrl(m, k))];
      }
    }

    /** The address this config has for something the member depends on. */
    ghost function AddressOf(access: Access): Option<Endpoint>
      reads this
    {
      match access
      case IpfsApi => Some(ipfsApi)
      case IpfsGateway => Some(ipfsGateway)
      case Exchange => Some(dataExchange)
      case Database => if database.PostgresAt? then Some(database.endpoint) else None
      case Blockchain => blockchain
      case TokensApi(k) => if k < |tokens| then Some(tokens[k].1) else None
    }
  }

  // ---------------------------------------------------------------- what an address denotes

  /** The services a core works with. */
  datatype Access = IpfsApi | IpfsGateway | Exchange | Database | Blockchain | TokensApi(k: nat)

  predicate Accessible(s: Stack, access: Access) {
    match access
    case Database => s.database == PostgresDB
    case TokensApi(k) => k < |s.tokenProviders|
    case _ => true
  }

  function Service(s: Stack, i: nat, access: Access): ServiceId {
    match access
    case IpfsApi => Ipfs(i)
    case IpfsGateway => Ipfs(i)
    case Exchange => DataExchange(i)
    case Database => Postgres(i)
    case Blockchain => Connector(ConnectorOf(s.provider), i)
    case TokensApi(k) => Tokens(i, k)
  }

  function ContainerPort(s: Stack, access: Access): int {
    match access
    case IpfsApi => 5001
    case IpfsGateway => 8080
    case Exchange => 3000
    case Database => 5432
    case Blockchain => ConnectorPort(ConnectorOf(s.provider))
    case TokensApi(_) => 3000
  }

  /** An address leads to a container port of a service of the file: by the service's name, or because docker forwards
      the host port to it. */
  predicate Denotes(compose: map<ServiceId, Shape>, e: Endpoint, id: ServiceId, port: int) {
    && id in compose
    && match e
       case ServiceAddress(name, p) =>
         name == id && p == port && exists pub :: pub in compose[id].body.ports && pub.container == port
       case Loopback(host) => Publication(host, port) in compose[id].body.ports
  }

  /** The container port is reached, and nothing else is. */
  ghost predicate DenotesOnly(compose: map<ServiceId, Shape>, e: Endpoint, id: ServiceId, port: int) {
    && Denotes(compose, e, id, port)
    && forall other, p :: Denotes(compose, e, other, p) ==> other == id && p == port
  }

  lemma PortsInCompose(s: Stack, id: ServiceId)
    requires ValidStack(s) && Present(s, id)
    ensures id in Assembled(s) && Assembled(s)[id].body.ports == PortsOf(s, id)
  {
    AssembledExact(s, id);
  }

  lemma LoopbackDenotesOnly(s: Stack, id: ServiceId, j: nat)
    requires ValidStack(s) && HostPortsDistinct(s) && Present(s, id) && j < |PortsOf(s, id)|
    ensures DenotesOnly(Assembled(s), Loopback(PortsOf(s, id)[j].host), id, PortsOf(s, id)[j].container)
  {
    var pub, compose := PortsOf(s, id)[j], Assembled(s);
    PortsInCompose(s, id);
    assert pub in compose[id].body.ports && pub == Publication(pub.host, pub.container);
    forall other, p | Denotes(compose, Loopback(pub.host), other, p)
      ensures other == id && p == pub.container
    {
      AssembledExact(s, other);
      PortsInCompose(s, other);
      var k :| 0 <= k < |PortsOf(s, other)| && PortsOf(s, other)[k] == Publication(pub.host, p);
    }
  }

  lemma NameDenotesOnly(s: Stack, id: ServiceId, j: nat)
    requires ValidStack(s) && Present(s, id) && j < |PortsOf(s, id)|
    ensures DenotesOnly(Assembled(s), ServiceAddress(id, PortsOf(s, id)[j].container), id, PortsOf(s, id)[j].container)
  {
    PortsInCompose(s, id);
    assert PortsOf(s, id)[j] in Assembled(s)[id].body.ports;
  }

  /** Where in the service's list of ports the accessed one stands. */
  function PortIndex(access: Access): nat {
    if access == IpfsGateway then 1 else 0
  }

  /** The host port a member records for an access. */
  function RecordedFor(m: Organization, access: Access): int
    requires access.TokensApi? ==> access.k < |m.tokensPorts|
  {
    match access
    case IpfsApi => m.ipfsApiPort
    case IpfsGateway => m.ipfsGatewayPort
    case Exchange => m.dataExchangePort
    case Database => m.databasePort
    case Blockchain => m.connectorPort
    case TokensApi(k) => m.tokensPorts[k]
  }

  lemma ServicePublishes(s: Stack, i: nat, access: Access)
    requires ValidStack(s) && i < |s.members| && Accessible(s, access)
    ensures Present(s, Service(s, i, access))
    ensures var ports := PortsOf(s, Service(s, i, access));
            && PortIndex(access) < |ports|
            && ports[PortIndex(access)] == Publication(RecordedFor(s.members[i], access), ContainerPort(s, access))
  {
    match access
    case Blockchain =>
    case TokensApi(_) =>
    case _ => MemberPublishes(s, i, access);
  }

  lemma MemberPublishes(s: Stack, i: nat, access: Access)
    requires ValidStack(s) && i < |s.members| && Accessible(s, access) && !access.Blockchain? && !access.TokensApi?
    ensures Present(s, Service(s, i, access))
    ensures var ports := MemberBody(s, Service(s, i, access)).ports;
            && PortIndex(access) < |ports|
            && ports[PortIndex(access)] == Publication(RecordedFor(s.members[i], access), ContainerPort(s, access))
  {
  }

  /** The address chosen for a member: by name from inside the compose network, by host port from outside. */
  function AddressFor(s: Stack, i: nat, access: Access): Endpoint
    requires ValidStack(s) && i < |s.members| && Accessible(s, access)
  {
    if s.members[i].external then Loopback(RecordedFor(s.members[i], access))
    else ServiceAddress(Service(s, i, access), ContainerPort(s, access))
  }

  /** A core in a container is given names of the compose network, one outside ports of the host. Either way the address
      leads to the same container port of the same service of the compose file, and to no other. */
  lemma AddressesResolve(s: Stack, i: nat, access: Access)
    requires ValidStack(s) && HostPortsDistinct(s) && i < |s.members| && Accessible(s, access)
    ensures DenotesOnly(Assembled(s), AddressFor(s, i, access), Service(s, i, access), ContainerPort(s, access))
    ensures AddressFor(s, i, access).ServiceAddress? <==> !s.members[i].external
  {
    ServicePublishes(s, i, access);
    var id, j := Service(s, i, access), PortIndex(access);
    if s.members[i].external {
      LoopbackDenotesOnly(s, id, j);
    } else {
      NameDenotesOnly(s, id, j);
    }
  }

  /** The core config that init writes for a member has exactly these addresses, the member's own ports, and one token
      plugin for each provider in order. Without a database service the database is a file: for a core that runs in a
      container one on the volume that is mounted there, for any other one in the runtime directory under the member's ID. */
  method WriteCoreConfig(s: Stack, i: nat, runtimeDir: string) returns (config: CoreConfig)
    requires ValidStack(s) && i < |s.members|
    ensures fresh(config)
    ensures forall access :: config.AddressOf(access) == if Accessible(s, access) then Some(AddressFor(s, i, access)) else None
    ensures forall access :: Accessible(s, access) ==>
              config.AddressOf(access).Some? && (config.AddressOf(access).value.ServiceAddress? <==> !s.members[i].external)
    ensures |config.tokens| == |s.tokenProviders| && forall k :: 0 <= k < |config.tokens| ==> config.tokens[k].0 == s.tokenProviders[k]
    ensures config.httpPort == s.members[i].fireFlyPort && config.spiPort == s.members[i].spiPort
    ensures config.metricsPort == if s.prometheusEnabled then Some(s.members[i].fireFlyMetricsPort) else None
    ensures s.database == SQLiteDB && !s.members[i].external ==>
              config.database.SQLiteAt? && OnVolume(s, i, CoreData(i), "db", "sqlite.db?_busy_timeout=5000", config.database.path)
    ensures s.database == SQLiteDB && s.members[i].external ==>
              config.database == SQLiteAt(runtimeDir + "/" + Digits(i) + ".db")
  {
    var m := s.members[i];
    assert m.index == i;
    config := new CoreConfig(s, m, runtimeDir);
    config.AddPlugins(s, m);
    if s.database == SQLiteDB && !m.external { FileOnVolume(s, i); }
  }

  /** Where a core's container sees its data volume. */
  const DATA_MOUNT := "/etc/firefly/data"

  /** The path leads to a file in this directory of the volume, which the member's core and no other service mounts. */
  ghost predicate OnVolume(s: Stack, i: nat, v: VolumeId, directory: string, file: string, path: string)
    requires ValidStack(s)
  {
    && path == DATA_MOUNT + "/" + directory + "/" + file
    && Core(i) in Assembled(s)
    && forall id :: id in Assembled(s) ==> (v in Assembled(s)[id].body.mounts <==> id == Core(i))
  }

  lemma FileOnVolume(s: Stack, i: nat)
    requires ValidStack(s) && i < |s.members| && !s.members[i].external
    ensures OnVolume(s, i, CoreData(i), "db", "sqlite.db?_busy_timeout=5000", "/etc/firefly/data/db/sqlite.db?_busy_timeout=5000")
  {
    AssembledExact(s, Core(i));
    forall id | id in Assembled(s)
      ensures CoreData(i) in Assembled(s)[id].body.mounts <==> id == Core(i)
    {
      MountsExactly(s, id, CoreData(i));
    }
    PathParts();
  }

  lemma PathParts()
    ensures "/etc/firefly/data/db/sqlite.db?_busy_timeout=5000" == DATA_MOUNT + "/" + "db" + "/" + "sqlite.db?_busy_timeout=5000"
  {
    DirectoryPath();
    assert "/etc/firefly/data/db/" + "sqlite.db?_busy_timeout=5000" == "/etc/firefly/data/db/sqlite.db?_busy_timeout=5000";
  }

  lemma DirectoryPath()
    ensures DATA_MOUNT + "/" + "db" + "/" == "/etc/firefly/data/db/"
  {
  }

  /** Two external members never share a database file. */
  lemma RuntimeFilesDiffer(runtimeDir: string, i: nat, j: nat)
    requires runtimeDir + "/" + Digits(i) + ".db" == runtimeDir + "/" + Digits(j) + ".db"
    ensures i == j
  {
    var a, b := runtimeDir + "/" + Digits(i) + ".db", runtimeDir + "/" + Digits(j) + ".db";
    assert a[|runtimeDir| + 1..|a| - 3] == Digits(i) && b[|runtimeDir| + 1..|b| - 3] == Digits(j);
    DigitsInjective(i, j);
  }

  // ---------------------------------------------------------------- addresses of the services themselves

  /** The node or signer a connector is configured with; fabconnect gets a connection profile instead. */
  function NodeUrl(s: Stack, i: nat): Option<Endpoint> {
    match s.provider
    case GethNode(_) => Some(ServiceAddress(Geth, 8545))
    case QuorumNode(_, _) => Some(ServiceAddress(Quorum(i), 8545))
    case Tezos => Some(ServiceAddress(Tezossigner, 6732))
    case Fabric(_) => None
    case _ => Some(ServiceAddress(Ethsigner, 8545))
  }

  /** A connector finds its node under that name, and does not start before it. */
  lemma NodeUrlResolves(s: Stack, i: nat)
    requires ValidStack(s) && i < |s.members| && NodeUrl(s, i).Some?
    ensures var e := NodeUrl(s, i).value;
            DenotesOnly(Assembled(s), e, e.id, e.port) && Edge(s, Connector(ConnectorOf(s.provider), i), e.id)
  {
    var e := NodeUrl(s, i).value;
    NodePublishes(s, i);
    NameDenotesOnly(s, e.id, 0);
  }

  lemma NodePublishes(s: Stack, i: nat)
    requires ValidStack(s) && i < |s.members| && NodeUrl(s, i).Some?
    ensures var e := NodeUrl(s, i).value;
            Present(s, e.id) && |PortsOf(s, e.id)| >= 1 && PortsOf(s, e.id)[0].container == e.port
  {
  }

  /** A token service finds the connector of its own member and does not start before it. */
  lemma TokensReachConnector(s: Stack, i: nat, k: nat)
    requires ValidStack(s) && i < |s.members| && k < |s.tokenProviders| && ETHCONNECT_URL !in s.environment
    ensures var id, port := Connector(ConnectorOf(s.provider), i), ConnectorPort(ConnectorOf(s.provider));
            && ETHCONNECT_URL in TokensEnvironment(s, i, k)
            && TokensEnvironment(s, i, k)[ETHCONNECT_URL] == Url(ServiceAddress(id, port))
            && DenotesOnly(Assembled(s), ServiceAddress(id, port), id, port) && Edge(s, Tokens(i, k), id)
  {
    TokensAsk(s, i, k);
    ServicePublishes(s, i, Blockchain);
    NameDenotesOnly(s, Connector(ConnectorOf(s.provider), i), 0);
  }

  lemma TokensAsk(s: Stack, i: nat, k: nat)
    requires k < |s.tokenProviders| && ETHCONNECT_URL !in s.environment
    ensures ETHCONNECT_URL in TokensEnvironment(s, i, k)
    ensures TokensEnvironment(s, i, k)[ETHCONNECT_URL]
         == Url(ServiceAddress(Connector(ConnectorOf(s.provider), i), ConnectorPort(ConnectorOf(s.provider))))
  {
  }

  /** A connector reaches an internal core under its name. The host port of an external core is published by no service,
      so it is left to the process that the user starts. */
  lemma CoreUrlResolves(o: InitOptions, s: Stack, i: nat)
    requires MadeFrom(o, s) && ValidStack(s) && DefaultFlags(o) && Fits(o, s) && i < |s.members|
    ensures var e, m := CoreUrl(s.members[i]), s.members[i];
            && (!m.external ==> e.ServiceAddress? && DenotesOnly(Assembled(s), e, Core(i), m.fireFlyPort))
            && (m.external ==> forall id, port :: !Denotes(Assembled(s), e, id, port))
  {
    var m := s.members[i];
    if !m.external {
      CorePublishes(s, i);
      NameDenotesOnly(s, Core(i), 0);
    } else {
      RecordedAsPlanned(o, s, i, Ports.FireFly(i));
      forall id, port | Denotes(Assembled(s), CoreUrl(m), id, port)
        ensures false
      {
        AssembledExact(s, id);
        PortsInCompose(s, id);
        var j :| 0 <= j < |PortsOf(s, id)| && PortsOf(s, id)[j] == Publication(m.fireFlyPort, port);
        FireFlyPortFree(o, s, i, id, j);
      }
    }
  }

  lemma CorePublishes(s: Stack, i: nat)
    requires ValidStack(s) && i < |s.members| && !s.members[i].external
    ensures Present(s, Core(i)) && |PortsOf(s, Core(i))| == 2
    ensures PortsOf(s, Core(i))[0] == Publication(s.members[i].fireFlyPort, s.members[i].fireFlyPort)
  {
  }

  lemma FireFlyPortFree(o: InitOptions, s: Stack, i: nat, id: ServiceId, j: nat)
    requires MadeFrom(o, s) && ValidStack(s) && DefaultFlags(o) && Fits(o, s)
    requires i < |s.members| && s.members[i].external && Present(s, id) && j < |PortsOf(s, id)|
    ensures PortsOf(s, id)[j].host != Ports.PlannedPort(o, Ports.FireFly(i))
  {
    PublishedAsPlanned(o, s, id, j);
    var h := UsesOf(id)[j];
    assert h in UsesOf(id) && Published(s, h);
    OnlyCoresUseIt(s, i, id, j);
    FireFlyPortApart(o, s, i, h);
  }

  lemma OnlyCoresUseIt(s: Stack, i: nat, id: ServiceId, j: nat)
    requires i < |s.members| && s.members[i].external && Present(s, id) && j < |UsesOf(id)|
    ensures UsesOf(id)[j] != Allocated(Ports.FireFly(i))
  {
  }

  lemma FireFlyPortApart(o: InitOptions, s: Stack, i: nat, h: HostUse)
    requires MadeFrom(o, s) && DefaultFlags(o) && Fits(o, s) && i < o.memberCount
    requires Published(s, h) && h != Allocated(Ports.FireFly(i))
    ensures PortFor(o, h) != Ports.PlannedPort(o, Ports.FireFly(i))
  {
    var own := Ports.FireFly(i);
    UsesFitProvider(s, h);
    PortShape(o, s, own);
    if h.Allocated? {
      AllocatedInUse(o, s, h.use);
      RangesApart(o, s, own, h.use);
    } else if h.QuorumRPC? {
      PlannedClearOfQuorum(o, s, h.i, own);
    }
  }

  /** The sandbox always asks for the core under its service name, so it finds one exactly if the core runs in the
      compose file; for an external member the name is nobody's. */
  lemma SandboxResolvesExactly(s: Stack, i: nat)
    requires ValidStack(s) && i < |s.members| && s.sandboxEnabled && FF_ENDPOINT !in s.environment
    ensures Present(s, Sandbox(i))
    ensures var e := ServiceOf(s, Sandbox(i)).body.environment[FF_ENDPOINT];
            && e == Url(ServiceAddress(Core(i), s.members[i].fireFlyPort))
            && (Denotes(Assembled(s), e.endpoint, Core(i), s.members[i].fireFlyPort) <==> !s.members[i].external)
  {
    SandboxAsks(s, i);
    AssembledExact(s, Core(i));
    if !s.members[i].external {
      CorePublishes(s, i);
      NameDenotesOnly(s, Core(i), 0);
    }
  }

  lemma SandboxAsks(s: Stack, i: nat)
    requires ValidStack(s) && i < |s.members| && s.sandboxEnabled && FF_ENDPOINT !in s.environment
    ensures Present(s, Sandbox(i)) && FF_ENDPOINT in ServiceOf(s, Sandbox(i)).body.environment
    ensures ServiceOf(s, Sandbox(i)).body.environment[FF_ENDPOINT] == Url(ServiceAddress(Core(i), s.members[i].fireFlyPort))
  {
  }

  // ---------------------------------------------------------------- Prometheus

  /** The targets of GeneratePrometheusConfig for the first i members. */
  function ScrapeTargets(s: Stack, i: nat): seq<Endpoint>
    requires i <= |s.members|
  {
    if i == 0 then []
    else
      var m := s.members[i - 1];
      ScrapeTargets(s, i - 1) + [ServiceAddress(Core(i - 1), m.fireFlyMetricsPort)]
      + if ConnectorOf(s.provider) != Evmconnect then []
        else [ServiceAddress(Connector(Evmconnect, i - 1), m.connectorMetricsPort)]
  }

  /** The one connector with metrics. */
  predicate RunsEvmconnect(p: Provider) {
    !p.Tezos? && !p.Fabric? && p.connector == ViaEvmconnect
  }

  method GeneratePrometheusTargets(s: Stack) returns (targets: seq<Endpoint>)
    ensures targets == ScrapeTargets(s, |s.members|)
    ensures !RunsEvmconnect(s.provider) ==>
              |targets| == |s.members|
              && forall j :: 0 <= j < |s.members| ==> targets[j] == ServiceAddress(Core(j), s.members[j].fireFlyMetricsPort)
    ensures RunsEvmconnect(s.provider) ==>
              |targets| == 2 * |s.members|
              && forall j :: 0 <= j < |s.members| ==>
                   targets[2 * j] == ServiceAddress(Core(j), s.members[j].fireFlyMetricsPort)
                   && targets[2 * j + 1] == ServiceAddress(Connector(Evmconnect, j), s.members[j].connectorMetricsPort)
  {
    targets := [];
    for i := 0 to |s.members|
      invariant targets == ScrapeTargets(s, i)
      invariant |targets| == if RunsEvmconnect(s.provider) then 2 * i else i
      invariant !RunsEvmconnect(s.provider) ==>
        forall j :: 0 <= j < i ==> targets[j] == ServiceAddress(Core(j), s.members[j].fireFlyMetricsPort)
      invariant RunsEvmconnect(s.provider) ==>
        forall j :: 0 <= j < i ==>
          targets[2 * j] == ServiceAddress(Core(j), s.members[j].fireFlyMetricsPort)
          && targets[2 * j + 1] == ServiceAddress(Connector(Evmconnect, j), s.members[j].connectorMetricsPort)
    {
      targets := targets + [ServiceAddress(Core(i), s.members[i].fireFlyMetricsPort)];
      if ConnectorOf(s.provider) == Evmconnect {
        targets := targets + [ServiceAddress(Connector(Evmconnect, i), s.members[i].connectorMetricsPort)];
      }
    }
  }

  lemma {:induction false} ScrapeTargetsExact(s: Stack, i: nat, e: Endpoint)
    requires i <= |s.members|
    ensures e in ScrapeTargets(s, i) <==>
              exists j :: 0 <= j < i && (e == ServiceAddress(Core(j), s.members[j].fireFlyMetricsPort)
                || (ConnectorOf(s.provider) == Evmconnect
                    && e == ServiceAddress(Connector(Evmconnect, j), s.members[j].connectorMetricsPort)))
  {
    if i > 0 { ScrapeTargetsExact(s, i - 1, e); }
  }

  predicate AllInternal(s: Stack) {
    forall i :: 0 <= i < |s.members| ==> !s.members[i].external
  }

  /** Every target is a service of the file exactly if no member is external. */
  lemma ScrapeTargetsPresentExactly(s: Stack)
    requires ValidStack(s)
    ensures (forall e :: e in ScrapeTargets(s, |s.members|) ==> e.ServiceAddress? && e.id in Assembled(s)) <==> AllInternal(s)
  {
    if AllInternal(s) {
      forall e | e in ScrapeTargets(s, |s.members|) {
        InternalTargetPresent(s, e);
      }
    } else {
      var i :| 0 <= i < |s.members| && s.members[i].external;
      ExternalTargetMissing(s, i);
    }
  }

  lemma InternalTargetPresent(s: Stack, e: Endpoint)
    requires ValidStack(s) && AllInternal(s) && e in ScrapeTargets(s, |s.members|)
    ensures e.ServiceAddress? && e.id in Assembled(s)
  {
    assert e.ServiceAddress? && Present(s, e.id) by { ScrapeTargetsExact(s, |s.members|, e); }
    AssembledExact(s, e.id);
  }

  lemma ExternalTargetMissing(s: Stack, i: nat)
    requires ValidStack(s) && i < |s.members| && s.members[i].external
    ensures ServiceAddress(Core(i), s.members[i].fireFlyMetricsPort) in ScrapeTargets(s, |s.members|)
    ensures Core(i) !in Assembled(s)
  {
    ScrapeTargetsExact(s, |s.members|, ServiceAddress(Core(i), s.members[i].fireFlyMetricsPort));
    AssembledExact(s, Core(i));
  }

  // ---------------------------------------------------------------- unlocking accounts on quorum nodes

  /** The first member with that address; member 0 if there is none. */
  function OwnerOf(members: seq<Organization>, address: string): nat {
    OwnerFrom(members, address, 0)
  }

  function OwnerFrom(members: seq<Organization>, address: string, i: nat): nat
    requires i <= |members|
    decreases |members| - i
  {
    if i == |members| then 0
    else if members[i].account == Some(Account(address)) then i
    else OwnerFrom(members, address, i + 1)
  }

  /** Member i is the first with this address. */
  predicate FirstWith(members: seq<Organization>, address: string, i: int) {
    && 0 <= i < |members| && members[i].account == Some(Account(address))
    && forall j :: 0 <= j < i ==> members[j].account != Some(Account(address))
  }

  lemma OwnerIsFirst(members: seq<Organization>, address: string)
    ensures forall i :: FirstWith(members, address, i) ==> OwnerOf(members, address) == i
    ensures (forall m :: m in members ==> m.account != Some(Account(address))) ==> OwnerOf(members, address) == 0
  {
    forall i | FirstWith(members, address, i)
      ensures OwnerOf(members, address) == i
    {
      OwnerFound(members, address, 0, i);
    }
    if OwnerOf(members, address) != 0 { OwnerHas(members, address, 0); }
  }

  lemma OwnerHas(members: seq<Organization>, address: string, i: nat)
    requires i <= |members| && OwnerFrom(members, address, i) != 0
    ensures var k := OwnerFrom(members, address, i); k < |members| && members[k].account == Some(Account(address))
    decreases |members| - i
  {
    if i < |members| && members[i].account != Some(Account(address)) { OwnerHas(members, address, i + 1); }
  }

  /** The loop of quorum's PostStart with the URL of unlockAccount: the host port of the node asked to unlock each
      account. The Go code dereferences the account of every member it looks at. */
  method UnlockPorts(s: Stack, accounts: seq<Account>) returns (ports: seq<int>)
    requires ValidStack(s) && forall m :: m in s.members ==> m.account.Some?
    ensures |ports| == |accounts|
    ensures forall a, i :: 0 <= a < |accounts| && FirstWith(s.members, accounts[a].address, i) ==> ports[a] == s.blockchainPort + i * 10
    ensures forall a :: 0 <= a < |accounts| && (forall m :: m in s.members ==> m.account.value.address != accounts[a].address)
              ==> ports[a] == s.blockchainPort
    ensures forall a :: 0 <= a < |accounts| ==> ports[a] == s.blockchainPort + OwnerOf(s.members, accounts[a].address) * 10
  {
    ports := [];
    for a := 0 to |accounts|
      invariant |ports| == a
      invariant forall b :: 0 <= b < a ==> ports[b] == s.blockchainPort + OwnerOf(s.members, accounts[b].address) * 10
    {
      var address := accounts[a].address;
      var memberIndex := 0;
      var i := 0;
      while i < |s.members|
        invariant 0 <= i <= |s.members| && memberIndex == 0
        invariant OwnerFrom(s.members, address, 0) == OwnerFrom(s.members, address, i)
      {
        if s.members[i].account.value.address == address {
          memberIndex := s.members[i].index;
          break;
        }
        i := i + 1;
      }
      assert memberIndex == OwnerOf(s.members, address);
      ports := ports + [s.blockchainPort + memberIndex * 10];
    }
    forall a | 0 <= a < |accounts| {
      OwnerIsFirst(s.members, accounts[a].address);
    }
  }

  lemma OwnerFound(members: seq<Organization>, address: string, i: nat, j: nat)
    requires i <= j < |members| && members[j].account == Some(Account(address))
    ensures i <= OwnerFrom(members, address, i) <= j
    ensures members[OwnerFrom(members, address, i)].account == Some(Account(address))
    decreases |members| - i
  {
    if members[i].account != Some(Account(address)) { OwnerFound(members, address, i + 1, j); }
  }

  /** The account of a member is unlocked on a node that holds its key, and that node's RPC port is the host port asked. */
  lemma UnlockedOnOwnNode(s: Stack, j: nat)
    requires ValidStack(s) && s.provider.QuorumNode? && HostPortsDistinct(s)
    requires j < |s.members| && s.members[j].account.Some?
    ensures var owner := OwnerOf(s.members, s.members[j].account.value.address);
            && owner <= j && s.members[owner].account == s.members[j].account
            && DenotesOnly(Assembled(s), Loopback(s.blockchainPort + owner * 10), Quorum(owner), 8545)
  {
    var address := s.members[j].account.value.address;
    OwnerFound(s.members, address, 0, j);
    QuorumNodeReached(s, OwnerOf(s.members, address));
  }

  lemma QuorumNodeReached(s: Stack, i: nat)
    requires ValidStack(s) && s.provider.QuorumNode? && HostPortsDistinct(s) && i < |s.members|
    ensures DenotesOnly(Assembled(s), Loopback(s.blockchainPort + i * 10), Quorum(i), 8545)
  {
    QuorumPublishes(s, i);
    LoopbackDenotesOnly(s, Quorum(i), 0);
  }

  lemma QuorumPublishes(s: Stack, i: nat)
    requires ValidStack(s) && s.provider.QuorumNode? && i < |s.members|
    ensures Present(s, Quorum(i)) && PortsOf(s, Quorum(i)) == [Publication(s.blockchainPort + i * 10, 8545)]
  {
  }
}
