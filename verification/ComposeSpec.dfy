/** What the compose file of a stack is meant to hold, one service at a time and independent of the order in which the
    Go code puts it together: which services exist, what each of them is, who waits for whom, which volumes are declared. */
module ComposeSpec {
  import opened Wrappers
  import opened Decimal
  import opened Names
  import opened Types

  datatype Condition = Started | Healthy

  /** The name of a container, written out by Names.ContainerName. */
  datatype Container = Container(stack: string, id: ServiceId)

  datatype Publication = Publication(host: int, container: int)

  /** An image: an entry of the version manifest or one of the images named in the code, see ImageString. */
  datatype Image =
    | FromManifest(entry: Option<ManifestEntry>)
    | IpfsImage
    | PostgresImage
    | PrometheusImage
    | SandboxImage
    | GethImage
    | BesuImage
    | SignatoryImage
    | QuorumImage
    | TesseraImage
    | FabricCAImage
    | FabricOrdererImage
    | FabricPeerImage

  /** The part of a service that is fixed when it is defined. */
  datatype ServiceBody = ServiceBody(
    image: Image,
    container: Container,
    ports: seq<Publication>,
    mounts: seq<VolumeId>,
    environment: Environment,
    health: bool)

  /** A service as a value: its fixed part, what it waits for, the entry point it sets over the image's own,
      and the volume names that its definition declares. */
  datatype Definition = Definition(
    id: ServiceId,
    body: ServiceBody,
    waits: map<ServiceId, Condition>,
    entryPoint: seq<string>,
    volumes: seq<VolumeId>)

  // ---------------------------------------------------------------- which services exist

  predicate Present(s: Stack, id: ServiceId) {
    match id
    case Core(i) => i < |s.members| && !s.members[i].external
    case Postgres(i) => i < |s.members| && s.database == PostgresDB
    case Ipfs(i) => i < |s.members|
    case DataExchange(i) => i < |s.members|
    case Sandbox(i) => i < |s.members| && s.sandboxEnabled
    case Prometheus => s.prometheusEnabled
    case _ => IsExtra(s, id)
  }

  /** The services of the blockchain and token providers, which every FireFly core waits for. */
  predicate IsExtra(s: Stack, id: ServiceId) {
    match id
    case Geth => s.provider.GethNode?
    case Besu => s.provider.BesuNode?
    case Ethsigner => s.provider.BesuNode? || s.provider.RemoteRPC?
    case Tezossigner => s.provider.Tezos?
    case Quorum(i) => s.provider.QuorumNode? && i < |s.members|
    case Tessera(i) => s.provider.QuorumNode? && s.provider.tessera && i < |s.members|
    case Connector(kind, i) => kind == ConnectorOf(s.provider) && i < |s.members|
    case Tokens(i, k) => i < |s.members| && k < |s.tokenProviders|
    case FabricCA => s.provider == Fabric(false)
    case FabricOrderer => s.provider == Fabric(false)
    case FabricPeer => s.provider == Fabric(false)
    case _ => false
  }

  // ---------------------------------------------------------------- who waits for whom

  /** The kinds of service that define a health check. */
  predicate HasHealthCheck(id: ServiceId) {
    id.Core? || id.Postgres? || id.Ipfs? || id.Ethsigner? || id.Tezossigner? || id.Tessera? || id.Tokens?
    || (id.Connector? && id.kind == Fabconnect)
  }

  /** The condition under which a core waits for a provider service. */
  function ConditionFor(health: bool): Condition {
    if health then Healthy else Started
  }

  function ConnectorIds(s: Stack): seq<ServiceId> {
    seq(|s.members|, (i: nat) => Connector(ConnectorOf(s.provider), i))
  }

  function QuorumIds(n: nat): seq<ServiceId> {
    seq(n, (i: nat) => Quorum(i))
  }

  function TesseraIds(n: nat): seq<ServiceId> {
    seq(n, (i: nat) => Tessera(i))
  }

  function NodeIds(s: Stack): seq<ServiceId> {
    match s.provider
    case GethNode(_) => [Geth]
    case BesuNode(_) => [Besu, Ethsigner]
    case RemoteRPC(_) => [Ethsigner]
    case Tezos => [Tezossigner]
    case QuorumNode(_, tessera) => QuorumIds(|s.members|) + if tessera then TesseraIds(|s.members|) else []
    case Fabric(remote) => if remote then [] else [FabricCA, FabricOrderer, FabricPeer]
  }

  /** The provider services in the order in which the definitions list them. */
  function ProviderIds(s: Stack): seq<ServiceId> {
    NodeIds(s) + ConnectorIds(s)
  }

  function MemberTokens(s: Stack, k: nat): seq<ServiceId> {
    seq(|s.members|, (i: nat) => Tokens(i, k))
  }

  /** The services of the first k token providers. */
  function TokensIds(s: Stack, k: nat): seq<ServiceId> {
    if k == 0 then [] else TokensIds(s, k - 1) + MemberTokens(s, k - 1)
  }

  function ExtraIds(s: Stack): seq<ServiceId> {
    ProviderIds(s) + TokensIds(s, |s.tokenProviders|)
  }

  /** The edges from every core to the given provider services. */
  function ExtraWaits(ids: seq<ServiceId>): (waits: map<ServiceId, Condition>)
    ensures forall b :: b in waits <==> b in ids
    ensures forall b :: b in waits ==> waits[b] == ConditionFor(HasHealthCheck(b))
  {
    if ids == [] then map[]
    else ExtraWaits(ids[..|ids| - 1])[ids[|ids| - 1] := ConditionFor(HasHealthCheck(ids[|ids| - 1]))]
  }

  /** The edges of a core within its own member. */
  function MemberWaits(s: Stack, i: nat): map<ServiceId, Condition> {
    map[DataExchange(i) := Started, Ipfs(i) := Healthy]
    + if s.database == PostgresDB then map[Postgres(i) := Healthy] else map[]
  }

  function QuorumWaits(n: nat): map<ServiceId, Condition> {
    map i: nat | i < n :: Quorum(i) := Started
  }

  function ConnectorWaits(s: Stack): map<ServiceId, Condition> {
    match s.provider
    case GethNode(_) => map[Geth := Started]
    case QuorumNode(_, _) => QuorumWaits(|s.members|)
    case Tezos => map[Tezossigner := Healthy]
    case Fabric(remote) => if remote then map[] else map[FabricCA := Started, FabricPeer := Started, FabricOrderer := Started]
    case _ => map[Ethsigner := Healthy]
  }

  // ---------------------------------------------------------------- what they are

  function ImageString(image: Image): string {
    match image
    case FromManifest(Some(entry)) => DockerImage(entry)
    case FromManifest(None) => ""
    case IpfsImage => "ipfs/go-ipfs:v0.10.0"
    case PostgresImage => "postgres"
    case PrometheusImage => "prom/prometheus"
    case SandboxImage => "ghcr.io/hyperledger/firefly-sandbox:latest"
    case GethImage => "ethereum/client-go:release-1.10"
    case BesuImage => "hyperledger/besu:22.4"
    case SignatoryImage => "ecadlabs/signatory"
    case QuorumImage => "quorumengineering/quorum:24.4"
    case TesseraImage => "quorumengineering/tessera:24.4"
    case FabricCAImage => "hyperledger/fabric-ca:1.5"
    case FabricOrdererImage => "hyperledger/fabric-orderer:2.5"
    case FabricPeerImage => "hyperledger/fabric-peer:2.5"
  }

  /** The manifest entries whose image a build of the compose file looks up; the Go code dereferences them. */
  predicate ManifestComplete(s: Stack) {
    var m := s.manifest;
    && m.fireFly.Some? && m.dataExchange.Some?
    && (s.provider.BesuNode? || s.provider.RemoteRPC? ==> m.signer.Some?)
    && ConnectorEntry(m, ConnectorOf(s.provider)).Some?
    && (forall k :: 0 <= k < |s.tokenProviders| ==> TokensEntry(m, s.tokenProviders[k]).Some?)
  }

  function ConnectorEntry(m: VersionManifest, kind: ConnectorKind): Option<ManifestEntry> {
    match kind
    case Ethconnect => m.ethconnect
    case Evmconnect => m.evmconnect
    case Tezosconnect => m.tezosconnect
    case Fabconnect => m.fabconnect
  }

  function TokensEntry(m: VersionManifest, p: TokenProvider): Option<ManifestEntry> {
    match p
    case ERC1155 => m.tokensERC1155
    case ERC20ERC721 => m.tokensERC20ERC721
  }

  function ConnectorPort(kind: ConnectorKind): int {
    match kind
    case Ethconnect => 8080
    case Evmconnect => 5008
    case Tezosconnect => 5008
    case Fabconnect => 3000
  }

  /** ConcatenateWithProvidedEnvironmentVars: the user's variables overwrite the service's own. */
  function WithProvided(s: Stack, own: Environment): Environment {
    own + s.environment
  }

  function FactoryName(k: nat): string {
    "erc20erc721_TokenFactory_" + Digits(k)
  }

  const MIXED_FUNGIBLE := "ERC1155MixedFungible"

  /** The address of the last deployed contract of that name, or the empty string. */
  function DeployedAddress(deployed: seq<DeployedContract>, name: string): string {
    if deployed == [] then ""
    else
      var last := deployed[|deployed| - 1];
      if last.name == name then last.address else DeployedAddress(deployed[..|deployed| - 1], name)
  }

  function TokensEnvironment(s: Stack, i: nat, k: nat): Environment
    requires k < |s.tokenProviders|
  {
    var kind := ConnectorOf(s.provider);
    var own := map[ETHCONNECT_URL := Url(ServiceAddress(Connector(kind, i), ConnectorPort(kind))),
                   ETHCONNECT_TOPIC := NameOf(Tokens(i, k)),
                   AUTO_INIT := Text("false")];
    match s.tokenProviders[k]
    case ERC1155 => WithProvided(s, own[CONTRACT_ADDRESS := Text(DeployedAddress(s.deployed, MIXED_FUNGIBLE))])
    case ERC20ERC721 =>
      var factory := DeployedAddress(s.deployed, FactoryName(k));
      if !TokenFactoriesDisabled(s.provider) && factory != ""
      then WithProvided(s, own)[FACTORY_CONTRACT_ADDRESS := Text(factory)]
      else WithProvided(s, own)
  }

  function PostgresEnvironment(): Environment {
    map[POSTGRES_PASSWORD := DatabasePassword, PGDATA := DatabaseDirectory]
  }

  function SwarmEnvironment(s: Stack): Environment {
    map[IPFS_SWARM_KEY := Text(s.swarmKey), LIBP2P_FORCE_PNET := Text("1")]
  }

  function SandboxEnvironment(m: Organization): Environment {
    map[FF_ENDPOINT := Url(ServiceAddress(Core(m.index), m.fireFlyPort))]
  }

  /** A service that declares exactly the volumes it mounts. */
  function Plain(id: ServiceId, body: ServiceBody, waits: map<ServiceId, Condition>, entryPoint: seq<string>): Definition {
    Definition(id, body, waits, entryPoint, body.mounts)
  }

  function MemberBody(s: Stack, id: ServiceId): ServiceBody
    requires id.Core? || id.Postgres? || id.Ipfs? || id.DataExchange? || id.Sandbox?
    requires id.i < |s.members|
  {
    var name, m := Container(s.name, id), s.members[id.i];
    match id
    case Core(i) =>
      ServiceBody(FromManifest(s.manifest.fireFly), name,
                  [Publication(m.fireFlyPort, m.fireFlyPort), Publication(m.spiPort, m.spiPort)],
                  [CoreData(i)], s.environment, true)
    case Postgres(i) =>
      ServiceBody(PostgresImage, name, [Publication(m.databasePort, 5432)], [PostgresData(i)],
                  WithProvided(s, PostgresEnvironment()), true)
    case Ipfs(i) =>
      ServiceBody(IpfsImage, name, [Publication(m.ipfsApiPort, 5001), Publication(m.ipfsGatewayPort, 8080)],
                  [IpfsStaging(i), IpfsData(i)],
                  if s.ipfsPrivate then WithProvided(s, SwarmEnvironment(s)) else s.environment, true)
    case DataExchange(i) =>
      ServiceBody(FromManifest(s.manifest.dataExchange), name, [Publication(m.dataExchangePort, 3000)],
                  [DataExchangeData(i)], s.environment, false)
    case Sandbox(i) =>
      ServiceBody(SandboxImage, name, [Publication(m.sandboxPort, 3001)], [],
                  WithProvided(s, SandboxEnvironment(m)), false)
  }

  function MemberService(s: Stack, id: ServiceId): Definition
    requires id.Core? || id.Postgres? || id.Ipfs? || id.DataExchange? || id.Sandbox?
    requires id.i < |s.members|
  {
    Plain(id, MemberBody(s, id), if id.Core? then MemberWaits(s, id.i) + ExtraWaits(ExtraIds(s)) else map[], [])
  }

  function PrometheusService(s: Stack): Definition {
    Plain(Prometheus, ServiceBody(PrometheusImage, Container(s.name, Prometheus), [Publication(s.prometheusPort, 9090)],
                                  [PrometheusData, PrometheusConfig], s.environment, false),
          map[], [])
  }

  function NodeService(s: Stack, id: ServiceId): Definition
    requires id.Geth? || id.Besu? || id.Ethsigner? || id.Tezossigner?
  {
    var name := Container(s.name, id);
    match id
    case Geth =>
      Plain(id, ServiceBody(GethImage, name, [Publication(s.blockchainPort, 8545)], [GethData], s.environment, false),
            map[], [])
    case Besu =>
      Plain(id, ServiceBody(BesuImage, name, [], [BesuData], s.environment, false), map[], [])
    case Ethsigner =>
      Plain(id, ServiceBody(FromManifest(s.manifest.signer), name, [Publication(s.blockchainPort, 8545)],
                            [EthsignerData, EthsignerConfig], s.environment, true), map[], [])
    case Tezossigner =>
      Plain(id, ServiceBody(SignatoryImage, name, [Publication(s.blockchainPort, 6732), Publication(9583, 9583)],
                            [TezossignerData, TezossignerConfig], s.environment, true), map[], [])
  }

  function QuorumService(s: Stack, i: nat, tessera: bool): Definition {
    Plain(Quorum(i),
          ServiceBody(QuorumImage, Container(s.name, Quorum(i)), [Publication(s.blockchainPort + i * 10, 8545)],
                      [QuorumData(i)], s.environment, false),
          if tessera then map[Tessera(i) := Healthy] else map[], OwnEntryPoint())
  }

  function TesseraService(s: Stack, i: nat): Definition {
    Plain(Tessera(i),
          ServiceBody(TesseraImage, Container(s.name, Tessera(i)), [Publication(s.ptmPort + i * 10, 9080)],
                      [TesseraData(i)], s.environment, true),
          map[], OwnEntryPoint())
  }

  function OwnEntryPoint(): seq<string> {
    ["/bin/sh", "-c", "/data/docker-entrypoint.sh"]
  }

  function ConnectorMounts(s: Stack, kind: ConnectorKind, i: nat): seq<VolumeId> {
    match kind
    case Ethconnect => [ConnectorConfig(kind, i), ConnectorData(kind, i)]
    case Fabconnect =>
      [FabconnectReceipts(i), FabconnectEvents(i)] + (if s.provider == Fabric(false) then [FireflyFabric] else [])
    case _ => [ConnectorData(kind, i)]
  }

  function ConnectorService(s: Stack, kind: ConnectorKind, i: nat): Definition
    requires i < |s.members|
  {
    Plain(Connector(kind, i),
          ServiceBody(FromManifest(ConnectorEntry(s.manifest, kind)), Container(s.name, Connector(kind, i)),
                      [Publication(s.members[i].connectorPort, ConnectorPort(kind))],
                      ConnectorMounts(s, kind, i), s.environment, kind == Fabconnect),
          ConnectorWaits(s), [])
  }

  function TokensService(s: Stack, i: nat, k: nat): Definition
    requires i < |s.members| && k < |s.tokenProviders| && k < |s.members[i].tokensPorts|
  {
    Plain(Tokens(i, k),
          ServiceBody(FromManifest(TokensEntry(s.manifest, s.tokenProviders[k])), Container(s.name, Tokens(i, k)),
                      [Publication(s.members[i].tokensPorts[k], 3000)], [], TokensEnvironment(s, i, k), true),
          map[Connector(ConnectorOf(s.provider), i) := Started], [])
  }

  function FabricService(s: Stack, id: ServiceId): Definition
    requires id.FabricCA? || id.FabricOrderer? || id.FabricPeer?
  {
    var name := Container(s.name, id);
    match id
    case FabricCA =>
      Definition(id, ServiceBody(FabricCAImage, name, [Publication(7054, 7054), Publication(17054, 17054)],
                                 [FireflyFabric], s.environment, false), map[], [], [FabricCAData])
    case FabricOrderer =>
      Definition(id, ServiceBody(FabricOrdererImage, name,
                                 [Publication(7050, 7050), Publication(7053, 7053), Publication(17050, 17050)],
                                 [FireflyFabric, FabricOrdererData], s.environment, false), map[], [], [FabricOrdererData])
    case FabricPeer =>
      Definition(id, ServiceBody(FabricPeerImage, name, [Publication(7051, 7051), Publication(17051, 17051)],
                                 [FireflyFabric, FabricPeerData], s.environment, false), map[], [], [FabricPeerData])
  }

  // The definitions of the providers, in the order of NodeIds, ConnectorIds and TokensIds.

  function QuorumPlan(s: Stack, n: nat, tessera: bool): seq<Definition> {
    seq(n, (i: nat) => QuorumService(s, i, tessera))
  }

  function TesseraPlan(s: Stack, n: nat): seq<Definition> {
    seq(n, (i: nat) => TesseraService(s, i))
  }

  function NodePlan(s: Stack): seq<Definition> {
    match s.provider
    case GethNode(_) => [NodeService(s, Geth)]
    case BesuNode(_) => [NodeService(s, Besu), NodeService(s, Ethsigner)]
    case RemoteRPC(_) => [NodeService(s, Ethsigner)]
    case Tezos => [NodeService(s, Tezossigner)]
    case QuorumNode(_, tessera) =>
      QuorumPlan(s, |s.members|, tessera) + if tessera then TesseraPlan(s, |s.members|) else []
    case Fabric(remote) =>
      if remote then [] else [FabricService(s, FabricCA), FabricService(s, FabricOrderer), FabricService(s, FabricPeer)]
  }

  function ConnectorPlan(s: Stack): seq<Definition> {
    seq(|s.members|, i requires 0 <= i < |s.members| => ConnectorService(s, ConnectorOf(s.provider), i))
  }

  function TokensPlan(s: Stack, k: nat): seq<Definition>
    requires ValidStack(s) && k < |s.tokenProviders|
  {
    seq(|s.members|, i requires 0 <= i < |s.members| => TokensService(s, i, k))
  }

  function AllTokensPlan(s: Stack, k: nat): seq<Definition>
    requires ValidStack(s) && k <= |s.tokenProviders|
  {
    if k == 0 then [] else AllTokensPlan(s, k - 1) + TokensPlan(s, k - 1)
  }

  function ExtraPlan(s: Stack): seq<Definition>
    requires ValidStack(s)
  {
    NodePlan(s) + ConnectorPlan(s) + AllTokensPlan(s, |s.tokenProviders|)
  }

  /** The service of a name. */
  function ServiceOf(s: Stack, id: ServiceId): Definition
    requires ValidStack(s) && Present(s, id)
  {
    match id
    case Prometheus => PrometheusService(s)
    case Quorum(i) => QuorumService(s, i, s.provider.tessera)
    case Tessera(i) => TesseraService(s, i)
    case Connector(kind, i) => ConnectorService(s, kind, i)
    case Tokens(i, k) => TokensService(s, i, k)
    case FabricCA => FabricService(s, id)
    case FabricOrderer => FabricService(s, id)
    case FabricPeer => FabricService(s, id)
    case Geth => NodeService(s, id)
    case Besu => NodeService(s, id)
    case Ethsigner => NodeService(s, id)
    case Tezossigner => NodeService(s, id)
    case _ => MemberService(s, id)
  }

  // ---------------------------------------------------------------- which volumes are declared

  predicate Declared(s: Stack, v: VolumeId) {
    var n := |s.members|;
    match v
    case CoreData(i) => i < n && !s.members[i].external
    case PostgresData(i) => i < n && s.database == PostgresDB
    case IpfsStaging(i) => i < n
    case IpfsData(i) => i < n
    case DataExchangeData(i) => i < n
    case PrometheusData => s.prometheusEnabled
    case PrometheusConfig => s.prometheusEnabled
    case GethData => s.provider.GethNode?
    case BesuData => s.provider.BesuNode?
    case EthsignerData => s.provider.BesuNode? || s.provider.RemoteRPC?
    case EthsignerConfig => s.provider.BesuNode? || s.provider.RemoteRPC?
    case TezossignerData => s.provider.Tezos?
    case TezossignerConfig => s.provider.Tezos?
    case QuorumData(i) => s.provider.QuorumNode? && i < n
    case TesseraData(i) => s.provider.QuorumNode? && s.provider.tessera && i < n
    case ConnectorConfig(kind, i) => kind == Ethconnect == ConnectorOf(s.provider) && i < n
    case ConnectorData(kind, i) => kind == ConnectorOf(s.provider) != Fabconnect && i < n
    case FabconnectReceipts(i) => s.provider.Fabric? && i < n
    case FabconnectEvents(i) => s.provider.Fabric? && i < n
    case FireflyFabric => s.provider == Fabric(false) && n > 0
    case FabricCAData => s.provider == Fabric(false)
    case FabricOrdererData => s.provider == Fabric(false)
    case FabricPeerData => s.provider == Fabric(false)
  }

  // ---------------------------------------------------------------- a compose file as a value

  /** A service of the compose file without its name. */
  datatype Shape = Shape(body: ServiceBody, waits: map<ServiceId, Condition>, entryPoint: seq<string>)

  function MemberShape(s: Stack, id: ServiceId): Shape
    requires id.Core? || id.Postgres? || id.Ipfs? || id.DataExchange? || id.Sandbox?
    requires id.i < |s.members|
  {
    Shape(MemberBody(s, id), map[], [])
  }

  /** A core that waits for data exchange and shared storage, but not yet for a database. */
  function EarlyCoreShape(s: Stack, i: nat): Shape
    requires i < |s.members|
  {
    MemberShape(s, Core(i)).(waits := map[DataExchange(i) := Started, Ipfs(i) := Healthy])
  }

  /** The core, if there is one of that name, waits for one more service. */
  function WithEdge(shapes: map<ServiceId, Shape>, core: ServiceId, b: ServiceId, c: Condition): map<ServiceId, Shape> {
    if core in shapes then shapes[core := shapes[core].(waits := shapes[core].waits[b := c])] else shapes
  }

  function WithCore(shapes: map<ServiceId, Shape>, s: Stack, i: nat): map<ServiceId, Shape>
    requires i < |s.members|
  {
    if s.members[i].external then shapes else shapes[Core(i) := EarlyCoreShape(s, i)]
  }

  /** The database of a member; if there is a core it learns of it. */
  function WithDatabase(shapes: map<ServiceId, Shape>, s: Stack, i: nat): map<ServiceId, Shape>
    requires i < |s.members|
  {
    if s.database != PostgresDB then shapes
    else
      WithEdge(shapes[Postgres(i) := MemberShape(s, Postgres(i))], Core(i), Postgres(i), Healthy)
  }

  function WithStorage(shapes: map<ServiceId, Shape>, s: Stack, i: nat): map<ServiceId, Shape>
    requires i < |s.members|
  {
    shapes[Ipfs(i) := MemberShape(s, Ipfs(i))][DataExchange(i) := MemberShape(s, DataExchange(i))]
  }

  function WithSandbox(shapes: map<ServiceId, Shape>, s: Stack, i: nat): map<ServiceId, Shape>
    requires i < |s.members|
  {
    if s.sandboxEnabled then shapes[Sandbox(i) := MemberShape(s, Sandbox(i))] else shapes
  }

  function WithMember(shapes: map<ServiceId, Shape>, s: Stack, i: nat): map<ServiceId, Shape>
    requires i < |s.members|
  {
    WithSandbox(WithStorage(WithDatabase(WithCore(shapes, s, i), s, i), s, i), s, i)
  }

  /** The services of the first i members, before the provider services are known. */
  function MemberShapes(s: Stack, i: nat): map<ServiceId, Shape>
    requires i <= |s.members|
  {
    if i == 0 then map[]
    else WithMember(MemberShapes(s, i - 1), s, i - 1)
  }

  function WithVolumes(volumes: set<VolumeId>, s: Stack, i: nat): set<VolumeId>
    requires i < |s.members|
  {
    volumes
    + (if s.members[i].external then {} else {CoreData(i)})
    + (if s.database == PostgresDB then {PostgresData(i)} else {})
    + {IpfsStaging(i), IpfsData(i)} + {DataExchangeData(i)}
  }

  function MemberVolumes(s: Stack, i: nat): set<VolumeId>
    requires i <= |s.members|
  {
    if i == 0 then {} else WithVolumes(MemberVolumes(s, i - 1), s, i - 1)
  }

  function WithPrometheus(shapes: map<ServiceId, Shape>, s: Stack): map<ServiceId, Shape> {
    if s.prometheusEnabled then shapes[Prometheus := Shape(PrometheusService(s).body, map[], [])] else shapes
  }

  function BaseShapes(s: Stack): map<ServiceId, Shape> {
    WithPrometheus(MemberShapes(s, |s.members|), s)
  }

  function BaseVolumes(s: Stack): set<VolumeId> {
    MemberVolumes(s, |s.members|) + if s.prometheusEnabled then {PrometheusData, PrometheusConfig} else {}
  }

  /** The cores of the first i members wait for one more service. */
  function Announced(shapes: map<ServiceId, Shape>, i: nat, b: ServiceId, c: Condition): map<ServiceId, Shape> {
    if i == 0 then shapes else WithEdge(Announced(shapes, i - 1, b, c), Core(i - 1), b, c)
  }

  /** Adding a list of definitions: each is entered under its name, and every core waits for it from then on. */
  function WithDefinitions(s: Stack, shapes: map<ServiceId, Shape>, plan: seq<Definition>): map<ServiceId, Shape> {
    if plan == [] then shapes
    else
      var before, d := WithDefinitions(s, shapes, plan[..|plan| - 1]), plan[|plan| - 1];
      Announced(before[d.id := Shape(d.body, d.waits, d.entryPoint)], |s.members|, d.id, ConditionFor(d.body.health))
  }

  function ExitAtOnce(): seq<string> {
    ["/bin/sh", "-c", "exit", "0"]
  }

  function WithCoreDisabled(shapes: map<ServiceId, Shape>, s: Stack, i: nat): map<ServiceId, Shape>
    requires i < |s.members|
  {
    if s.members[i].external || Core(i) !in shapes then shapes
    else shapes[Core(i) := shapes[Core(i)].(entryPoint := ExitAtOnce())]
  }

  /** The cores of the first i members run nothing. */
  function Disabled(s: Stack, shapes: map<ServiceId, Shape>, i: nat): map<ServiceId, Shape>
    requires i <= |s.members|
  {
    if i == 0 then shapes else WithCoreDisabled(Disabled(s, shapes, i - 1), s, i - 1)
  }

  function SetOf(volumes: seq<VolumeId>): set<VolumeId> {
    set v | v in volumes
  }

  function PlanVolumes(plan: seq<Definition>): set<VolumeId> {
    if plan == [] then {} else PlanVolumes(plan[..|plan| - 1]) + SetOf(plan[|plan| - 1].volumes)
  }
}
