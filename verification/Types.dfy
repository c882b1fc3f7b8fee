/** The stack description, pkg/types: what init decides and every later command reads. */
module Types {
  import opened Wrappers
  import opened Decimal
  import opened Names

  datatype Account = Account(address: string)

  datatype TokenProvider = ERC1155 | ERC20ERC721

  datatype Database = SQLiteDB | PostgresDB

  datatype EthConnector = ViaEthconnect | ViaEvmconnect

  /** The blockchain provider together with the connector it runs. */
  datatype Provider =
    | GethNode(connector: EthConnector)
    | BesuNode(connector: EthConnector)
    | QuorumNode(connector: EthConnector, tessera: bool)
    | RemoteRPC(connector: EthConnector)
    | Tezos
    | Fabric(remote: bool)

  /** Where a URL points: a service by name on the compose network, or a port of the host. */
  datatype Endpoint = ServiceAddress(id: ServiceId, port: int) | Loopback(hostPort: int)

  /** The environment variables the CLI sets itself; every other name is the user's. */
  datatype Variable =
    | POSTGRES_PASSWORD
    | PGDATA
    | IPFS_SWARM_KEY
    | LIBP2P_FORCE_PNET
    | FF_ENDPOINT
    | ETHCONNECT_URL
    | ETHCONNECT_TOPIC
    | AUTO_INIT
    | CONTRACT_ADDRESS
    | FACTORY_CONTRACT_ADDRESS
    | Other(name: string)

  /** A value: given text, a URL, the name of a service, or the two literals of the database. */
  datatype EnvValue =
    | Text(text: string)
    | Url(endpoint: Endpoint)
    | NameOf(id: ServiceId)
    | DatabasePassword
    | DatabaseDirectory

  type Environment = map<Variable, EnvValue>

  datatype DeployedContract = DeployedContract(name: string, address: string)

  datatype ManifestEntry = ManifestEntry(image: string, local: bool, tag: string, sha: string)

  datatype VersionManifest = VersionManifest(
    fireFly: Option<ManifestEntry>,
    ethconnect: Option<ManifestEntry>,
    evmconnect: Option<ManifestEntry>,
    tezosconnect: Option<ManifestEntry>,
    fabconnect: Option<ManifestEntry>,
    dataExchange: Option<ManifestEntry>,
    tokensERC1155: Option<ManifestEntry>,
    tokensERC20ERC721: Option<ManifestEntry>,
    signer: Option<ManifestEntry>)
  {
    function Entries(): seq<Option<ManifestEntry>> {
      [fireFly, ethconnect, evmconnect, tezosconnect, fabconnect, dataExchange, tokensERC1155, tokensERC20ERC721, signer]
    }
  }

  function DockerImage(entry: ManifestEntry): string {
    if entry.sha != "" then entry.image + "@sha256:" + entry.sha
    else if entry.tag != "" then entry.image + ":" + entry.tag
    else entry.image
  }

  datatype Organization = Organization(
    id: string,
    index: nat,
    fireFlyPort: int,
    spiPort: int,
    fireFlyMetricsPort: int,
    connectorPort: int,
    connectorMetricsPort: int,
    databasePort: int,
    dataExchangePort: int,
    ipfsApiPort: int,
    ipfsGatewayPort: int,
    uiPort: int,
    sandboxPort: int,
    tokensPorts: seq<int>,
    ptmPort: int,
    external: bool,
    orgName: string,
    nodeName: string,
    account: Option<Account>)

  datatype InitOptions = InitOptions(
    memberCount: nat,
    fireFlyBasePort: int,
    servicesBasePort: int,
    ptmBasePort: int,
    externalProcesses: int,
    orgNames: seq<string>,
    nodeNames: seq<string>,
    tokenProviders: seq<TokenProvider>,
    prometheusEnabled: bool,
    prometheusPort: int,
    sandboxEnabled: bool)

  datatype Stack = Stack(
    name: string,
    members: seq<Organization>,
    blockchainPort: int,
    ptmPort: int,
    database: Database,
    provider: Provider,
    tokenProviders: seq<TokenProvider>,
    manifest: VersionManifest,
    prometheusEnabled: bool,
    prometheusPort: int,
    sandboxEnabled: bool,
    ipfsPrivate: bool,
    swarmKey: string,
    multiparty: bool,
    contractAddress: string,
    environment: Environment,
    deployed: seq<DeployedContract>)

  function ConnectorOf(p: Provider): ConnectorKind {
    match p
    case Tezos => Tezosconnect
    case Fabric(_) => Fabconnect
    case _ => if p.connector == ViaEthconnect then Ethconnect else Evmconnect
  }

  /** Set by getBlockchainProvider for the providers that cannot run a token factory. */
  predicate TokenFactoriesDisabled(p: Provider) {
    p.RemoteRPC? || p.Tezos? || p.Fabric?
  }

  /** What init guarantees about the member list: decimal IDs in order, one port for each token provider. */
  predicate NumberedMembers(members: seq<Organization>, tokens: nat) {
    forall i :: 0 <= i < |members| ==>
      members[i].index == i && members[i].id == Digits(i) && |members[i].tokensPorts| == tokens
  }

  predicate ValidStack(s: Stack) {
    NumberedMembers(s.members, |s.tokenProviders|)
  }
}
