/** The compose file from the other side: for every image, volume, variable, health check, entry point and container port,
    which services of the assembled file have it. Nothing here looks at how a service is defined. */
module ComposeContents {
  import opened Wrappers
  import opened Decimal
  import opened Names
  import opened Types
  import opened ComposeSpec
  import opened ComposeFacts
  import opened ComposeExact

  // ---------------------------------------------------------------- images

  /** The manifest entry behind a service, for those whose image a release can change. */
  function EntryBehind(s: Stack, id: ServiceId): Option<ManifestEntry> {
    match id
    case Core(_) => s.manifest.fireFly
    case DataExchange(_) => s.manifest.dataExchange
    case Ethsigner => s.manifest.signer
    case Connector(_, _) =>
      (match s.provider
       case Tezos => s.manifest.tezosconnect
       case Fabric(_) => s.manifest.fabconnect
       case _ => if s.provider.connector == ViaEthconnect then s.manifest.ethconnect else s.manifest.evmconnect)
    case Tokens(_, k) =>
      if k >= |s.tokenProviders| then None
      else if s.tokenProviders[k] == ERC1155 then s.manifest.tokensERC1155
      else s.manifest.tokensERC20ERC721
    case _ => None
  }

  /** The images that only a new CLI can change. */
  function PinnedImage(id: ServiceId): string {
    match id
    case Postgres(_) => "postgres"
    case Ipfs(_) => "ipfs/go-ipfs:v0.10.0"
    case Sandbox(_) => "ghcr.io/hyperledger/firefly-sandbox:latest"
    case Prometheus => "prom/prometheus"
    case Geth => "ethereum/client-go:release-1.10"
    case Besu => "hyperledger/besu:22.4"
    case Tezossigner => "ecadlabs/signatory"
    case Quorum(_) => "quorumengineering/quorum:24.4"
    case Tessera(_) => "quorumengineering/tessera:24.4"
    case FabricCA => "hyperledger/fabric-ca:1.5"
    case FabricOrderer => "hyperledger/fabric-orderer:2.5"
    case FabricPeer => "hyperledger/fabric-peer:2.5"
    case _ => ""
  }

  predicate FollowsManifest(id: ServiceId) {
    id.Core? || id.DataExchange? || id.Ethsigner? || id.Connector? || id.Tokens?
  }

  /** A service runs the image of its manifest entry, or the pinned one. */
  lemma ImagesExactly(s: Stack, id: ServiceId)
    requires ValidStack(s) && ManifestComplete(s) && id in Assembled(s)
    ensures FollowsManifest(id) ==> EntryBehind(s, id).Some?
    ensures ImageString(Assembled(s)[id].body.image) ==
              if FollowsManifest(id) then DockerImage(EntryBehind(s, id).value) else PinnedImage(id)
  {
    AssembledExact(s, id);
    BodyImage(s, id);
  }

  lemma MemberImage(s: Stack, id: ServiceId)
    requires ValidStack(s) && ManifestComplete(s) && Present(s, id)
    requires IsMemberService(id)
    ensures ServiceOf(s, id).body.image.FromManifest? <==> FollowsManifest(id)
    ensures FollowsManifest(id) ==> EntryBehind(s, id).Some? && ServiceOf(s, id).body.image.entry == EntryBehind(s, id)
    ensures !FollowsManifest(id) ==> ImageString(ServiceOf(s, id).body.image) == PinnedImage(id)
  {
  }

  lemma NodeImage(s: Stack, id: ServiceId)
    requires ValidStack(s) && ManifestComplete(s) && Present(s, id)
    requires id.Geth? || id.Besu? || id.Ethsigner? || id.Tezossigner? || id.Prometheus?
    ensures ServiceOf(s, id).body.image.FromManifest? <==> FollowsManifest(id)
    ensures FollowsManifest(id) ==> EntryBehind(s, id).Some? && ServiceOf(s, id).body.image.entry == EntryBehind(s, id)
    ensures !FollowsManifest(id) ==> ImageString(ServiceOf(s, id).body.image) == PinnedImage(id)
  {
  }

  lemma FabricImage(s: Stack, id: ServiceId)
    requires ValidStack(s) && ManifestComplete(s) && Present(s, id)
    requires id.FabricCA? || id.FabricOrderer? || id.FabricPeer?
    ensures ServiceOf(s, id).body.image.FromManifest? <==> FollowsManifest(id)
    ensures FollowsManifest(id) ==> EntryBehind(s, id).Some? && ServiceOf(s, id).body.image.entry == EntryBehind(s, id)
    ensures !FollowsManifest(id) ==> ImageString(ServiceOf(s, id).body.image) == PinnedImage(id)
  {
  }

  lemma EachImage(s: Stack, id: ServiceId)
    requires ValidStack(s) && ManifestComplete(s) && Present(s, id)
    requires id.Quorum? || id.Tessera? || id.Connector? || id.Tokens?
    ensures ServiceOf(s, id).body.image.FromManifest? <==> FollowsManifest(id)
    ensures FollowsManifest(id) ==> EntryBehind(s, id).Some? && ServiceOf(s, id).body.image.entry == EntryBehind(s, id)
    ensures !FollowsManifest(id) ==> ImageString(ServiceOf(s, id).body.image) == PinnedImage(id)
  {
  }

  lemma BodyImage(s: Stack, id: ServiceId)
    requires ValidStack(s) && ManifestComplete(s) && Present(s, id)
    ensures ServiceOf(s, id).body.image.FromManifest? <==> FollowsManifest(id)
    ensures FollowsManifest(id) ==> EntryBehind(s, id).Some? && ServiceOf(s, id).body.image.entry == EntryBehind(s, id)
    ensures !FollowsManifest(id) ==> ImageString(ServiceOf(s, id).body.image) == PinnedImage(id)
  {
    if IsMemberService(id) {
      MemberImage(s, id);
    } else if id.Geth? || id.Besu? || id.Ethsigner? || id.Tezossigner? || id.Prometheus? {
      NodeImage(s, id);
    } else if id.FabricCA? || id.FabricOrderer? || id.FabricPeer? {
      FabricImage(s, id);
    } else {
      EachImage(s, id);
    }
  }

  predicate PlainName(s: string) {
    '@' !in s && ':' !in s
  }

  predicate PlainEntry(entry: ManifestEntry) {
    PlainName(entry.image) && PlainName(entry.tag) && PlainName(entry.sha)
  }

  lemma FirstAt(c: char, a: string, b: string)
    requires c !in a
    ensures var s := a + [c] + b;
            s[|a|] == c && (forall j :: 0 <= j < |a| ==> s[j] != c) && s[..|a|] == a && s[|a| + 1..] == b
  {
  }

  lemma SplitsAt(c: char, a: string, b: string, a': string, b': string)
    requires c !in a && c !in a' && a + [c] + b == a' + [c] + b'
    ensures a == a' && b == b'
  {
    FirstAt(c, a, b);
    FirstAt(c, a', b');
  }

  /** Two entries write the same image exactly if the names agree and the digests do, or, where there is no digest, the
      tags: a digest makes the tag irrelevant. */
  lemma ReferencesExactly(a: ManifestEntry, b: ManifestEntry)
    requires PlainEntry(a) && PlainEntry(b)
    ensures DockerImage(a) == DockerImage(b) <==> a.image == b.image && a.sha == b.sha && (a.sha == "" ==> a.tag == b.tag)
  {
    ReferenceShape(a);
    ReferenceShape(b);
    if DockerImage(a) == DockerImage(b) {
      if a.sha != "" && b.sha != "" {
        SplitsAt('@', a.image, "sha256:" + a.sha, b.image, "sha256:" + b.sha);
        assert ("sha256:" + a.sha)[7..] == a.sha && ("sha256:" + b.sha)[7..] == b.sha;
      } else if a.sha == "" && b.sha == "" && a.tag != "" && b.tag != "" {
        SplitsAt(':', a.image, a.tag, b.image, b.tag);
      }
    }
  }

  lemma ReferenceShape(a: ManifestEntry)
    requires PlainEntry(a)
    ensures a.sha != "" ==> DockerImage(a) == a.image + ['@'] + ("sha256:" + a.sha)
    ensures a.sha == "" && a.tag != "" ==> DockerImage(a) == a.image + [':'] + a.tag
    ensures a.sha == "" && a.tag == "" ==> DockerImage(a) == a.image
    ensures '@' in DockerImage(a) <==> a.sha != ""
    ensures a.sha == "" ==> (':' in DockerImage(a) <==> a.tag != "")
  {
    if a.sha != "" {
      assert DockerImage(a)[|a.image|] == '@';
      assert "@sha256:" == ['@'] + "sha256:";
      assert a.image + (['@'] + "sha256:") + a.sha == a.image + ['@'] + ("sha256:" + a.sha);
    } else if a.tag != "" {
      assert DockerImage(a)[|a.image|] == ':';
    }
  }

  // ---------------------------------------------------------------- volumes

  /** Who mounts a volume, if that service is there. */
  predicate MountedIn(s: Stack, v: VolumeId, id: ServiceId) {
    match v
    case CoreData(i) => id == Core(i)
    case PostgresData(i) => id == Postgres(i)
    case IpfsStaging(i) => id == Ipfs(i)
    case IpfsData(i) => id == Ipfs(i)
    case DataExchangeData(i) => id == DataExchange(i)
    case PrometheusData => id == Prometheus
    case PrometheusConfig => id == Prometheus
    case GethData => id == Geth
    case BesuData => id == Besu
    case EthsignerData => id == Ethsigner
    case EthsignerConfig => id == Ethsigner
    case TezossignerData => id == Tezossigner
    case TezossignerConfig => id == Tezossigner
    case QuorumData(i) => id == Quorum(i)
    case TesseraData(i) => id == Tessera(i)
    case ConnectorConfig(kind, i) => kind == Ethconnect && id == Connector(Ethconnect, i)
    case ConnectorData(kind, i) => kind != Fabconnect && id == Connector(kind, i)
    case FabconnectReceipts(i) => id == Connector(Fabconnect, i)
    case FabconnectEvents(i) => id == Connector(Fabconnect, i)
    case FireflyFabric =>
      id == FabricCA || id == FabricOrderer || id == FabricPeer || (id.Connector? && s.provider == Fabric(false))
    case FabricCAData => false
    case FabricOrdererData => id == FabricOrderer
    case FabricPeerData => id == FabricPeer
  }

  lemma MountsExactly(s: Stack, id: ServiceId, v: VolumeId)
    requires ValidStack(s) && id in Assembled(s)
    ensures v in Assembled(s)[id].body.mounts <==> MountedIn(s, v, id)
  {
    AssembledExact(s, id);
    BodyMounts(s, id, v);
  }

  lemma MemberMounts(s: Stack, id: ServiceId, v: VolumeId)
    requires IsMemberService(id) && id.i < |s.members|
    ensures v in MemberBody(s, id).mounts <==> MountedIn(s, v, id)
  {
  }

  lemma NodeMounts(s: Stack, id: ServiceId, v: VolumeId)
    requires ValidStack(s) && Present(s, id)
    requires id.Geth? || id.Besu? || id.Ethsigner? || id.Tezossigner? || id.Prometheus?
    ensures v in ServiceOf(s, id).body.mounts <==> MountedIn(s, v, id)
  {
  }

  lemma FabricMounts(s: Stack, id: ServiceId, v: VolumeId)
    requires ValidStack(s) && Present(s, id)
    requires id.FabricCA? || id.FabricOrderer? || id.FabricPeer?
    ensures v in ServiceOf(s, id).body.mounts <==> MountedIn(s, v, id)
  {
  }

  lemma ConnectorMountsIn(s: Stack, kind: ConnectorKind, i: nat, v: VolumeId)
    requires kind == Fabconnect <==> s.provider.Fabric?
    ensures v in ConnectorMounts(s, kind, i) <==> MountedIn(s, v, Connector(kind, i))
  {
  }

  lemma EachMounts(s: Stack, id: ServiceId, v: VolumeId)
    requires ValidStack(s) && Present(s, id)
    requires id.Quorum? || id.Tessera? || id.Connector? || id.Tokens?
    ensures v in ServiceOf(s, id).body.mounts <==> MountedIn(s, v, id)
  {
    if id.Connector? { ConnectorMountsIn(s, id.kind, id.i, v); }
  }

  lemma BodyMounts(s: Stack, id: ServiceId, v: VolumeId)
    requires ValidStack(s) && Present(s, id)
    ensures v in ServiceOf(s, id).body.mounts <==> MountedIn(s, v, id)
  {
    if IsMemberService(id) {
      MemberMounts(s, id, v);
    } else if id.Geth? || id.Besu? || id.Ethsigner? || id.Tezossigner? || id.Prometheus? {
      NodeMounts(s, id, v);
    } else if id.FabricCA? || id.FabricOrderer? || id.FabricPeer? {
      FabricMounts(s, id, v);
    } else {
      EachMounts(s, id, v);
    }
  }

  // ---------------------------------------------------------------- what the CLI sets in the environment

  /** The value the CLI has for a variable of a service; None where it leaves the variable alone. */
  function CliValue(s: Stack, id: ServiceId, v: Variable, factory: string, contract: string): Option<EnvValue> {
    match v
    case POSTGRES_PASSWORD => if id.Postgres? then Some(DatabasePassword) else None
    case PGDATA => if id.Postgres? then Some(DatabaseDirectory) else None
    case IPFS_SWARM_KEY => if id.Ipfs? && s.ipfsPrivate then Some(Text(s.swarmKey)) else None
    case LIBP2P_FORCE_PNET => if id.Ipfs? && s.ipfsPrivate then Some(Text("1")) else None
    case FF_ENDPOINT =>
      if id.Sandbox? && id.i < |s.members| then Some(Url(ServiceAddress(Core(id.i), s.members[id.i].fireFlyPort))) else None
    case ETHCONNECT_URL => if id.Tokens? then Some(Url(ConnectorAddress(s.provider, id.i))) else None
    case ETHCONNECT_TOPIC => if id.Tokens? then Some(NameOf(id)) else None
    case AUTO_INIT => if id.Tokens? then Some(Text("false")) else None
    case CONTRACT_ADDRESS => if RunsTokens(s, id, ERC1155) then Some(Text(contract)) else None
    case FACTORY_CONTRACT_ADDRESS =>
      if RunsTokens(s, id, ERC20ERC721) && DeploysFactories(s.provider) && factory != "" then Some(Text(factory)) else None
    case Other(_) => None
  }

  predicate RunsTokens(s: Stack, id: ServiceId, p: TokenProvider) {
    id.Tokens? && id.k < |s.tokenProviders| && s.tokenProviders[id.k] == p
  }

  predicate DeploysFactories(p: Provider) {
    p.GethNode? || p.BesuNode? || p.QuorumNode?
  }

  /** The connector of a member under its service name, on the port its own configuration listens on. */
  function ConnectorAddress(p: Provider, i: nat): Endpoint {
    match p
    case Tezos => ServiceAddress(Connector(Tezosconnect, i), 5008)
    case Fabric(_) => ServiceAddress(Connector(Fabconnect, i), 3000)
    case _ =>
      if p.connector == ViaEthconnect then ServiceAddress(Connector(Ethconnect, i), 8080)
      else ServiceAddress(Connector(Evmconnect, i), 5008)
  }

  predicate FollowsCli(s: Stack, env: Environment, v: Variable, own: Option<EnvValue>) {
    && (v in env <==> v in s.environment || own.Some?)
    && (v in env ==>
          env[v] == if own.Some? && (v !in s.environment || v == FACTORY_CONTRACT_ADDRESS) then own.value else s.environment[v])
  }

  /** A service's environment is the user's, and beside it what the CLI sets. The user's value stands where both set one,
      except over the address of a deployed factory. */
  lemma VariablesExactly(s: Stack, id: ServiceId, v: Variable) returns (factory: string, contract: string)
    requires ValidStack(s) && id in Assembled(s)
    ensures id.Tokens? ==> IsAddressOf(s.deployed, "erc20erc721_TokenFactory_" + Digits(id.k), factory)
    ensures IsAddressOf(s.deployed, "ERC1155MixedFungible", contract)
    ensures FollowsCli(s, Assembled(s)[id].body.environment, v, CliValue(s, id, v, factory, contract))
  {
    factory := if id.Tokens? then DeployedAddress(s.deployed, FactoryName(id.k)) else "";
    contract := DeployedAddress(s.deployed, MIXED_FUNGIBLE);
    DeployedAddressExact(s.deployed, MIXED_FUNGIBLE);
    if id.Tokens? { DeployedAddressExact(s.deployed, FactoryName(id.k)); }
    VariableInFile(s, id, v, factory, contract);
  }

  lemma VariableInFile(s: Stack, id: ServiceId, v: Variable, factory: string, contract: string)
    requires ValidStack(s) && id in Assembled(s)
    requires id.Tokens? ==> factory == DeployedAddress(s.deployed, FactoryName(id.k))
    requires contract == DeployedAddress(s.deployed, MIXED_FUNGIBLE)
    ensures FollowsCli(s, Assembled(s)[id].body.environment, v, CliValue(s, id, v, factory, contract))
  {
    AssembledExact(s, id);
    BodyVariable(s, id, v, factory, contract);
  }

  lemma BodyVariable(s: Stack, id: ServiceId, v: Variable, factory: string, contract: string)
    requires ValidStack(s) && Present(s, id)
    requires id.Tokens? ==> factory == DeployedAddress(s.deployed, FactoryName(id.k))
    requires contract == DeployedAddress(s.deployed, MIXED_FUNGIBLE)
    ensures FollowsCli(s, ServiceOf(s, id).body.environment, v, CliValue(s, id, v, factory, contract))
  {
    if id.Tokens? {
      assert ServiceOf(s, id).body.environment == TokensEnvironment(s, id.i, id.k);
      TokensVariable(s, id.i, id.k, v);
    } else if IsMemberService(id) {
      assert ServiceOf(s, id).body == MemberBody(s, id);
      MemberVariable(s, id, v, factory, contract);
    } else {
      UserEnvironment(s, id);
    }
  }

  lemma TokensVariable(s: Stack, i: nat, k: nat, v: Variable)
    requires k < |s.tokenProviders|
    ensures var factory, contract := DeployedAddress(s.deployed, FactoryName(k)), DeployedAddress(s.deployed, MIXED_FUNGIBLE);
            FollowsCli(s, TokensEnvironment(s, i, k), v, CliValue(s, Tokens(i, k), v, factory, contract))
  {
  }

  lemma MemberVariable(s: Stack, id: ServiceId, v: Variable, factory: string, contract: string)
    requires IsMemberService(id) && id.i < |s.members| && s.members[id.i].index == id.i
    ensures FollowsCli(s, MemberBody(s, id).environment, v, CliValue(s, id, v, factory, contract))
  {
  }

  lemma UserEnvironment(s: Stack, id: ServiceId)
    requires ValidStack(s) && Present(s, id) && !id.Tokens? && !IsMemberService(id)
    ensures ServiceOf(s, id).body.environment == s.environment
  {
  }

  // ---------------------------------------------------------------- health checks, entry points, container ports

  /** The ports a service listens on, in the order in which it publishes them. */
  function ListensOn(s: Stack, id: ServiceId): seq<int> {
    match id
    case Core(i) => if i < |s.members| then [s.members[i].fireFlyPort, s.members[i].spiPort] else []
    case Postgres(_) => [5432]
    case Ipfs(_) => [5001, 8080]
    case DataExchange(_) => [3000]
    case Sandbox(_) => [3001]
    case Prometheus => [9090]
    case Geth => [8545]
    case Besu => []
    case Ethsigner => [8545]
    case Tezossigner => [6732, 9583]
    case Quorum(_) => [8545]
    case Tessera(_) => [9080]
    case Connector(kind, _) => [if kind == Ethconnect then 8080 else if kind == Fabconnect then 3000 else 5008]
    case Tokens(_, _) => [3000]
    case FabricCA => [7054, 17054]
    case FabricOrderer => [7050, 7053, 17050]
    case FabricPeer => [7051, 17051]
  }

  function ContainerPorts(ports: seq<Publication>): seq<int> {
    seq(|ports|, j requires 0 <= j < |ports| => ports[j].container)
  }

  predicate Checked(id: ServiceId) {
    match id
    case Core(_) => true
    case Postgres(_) => true
    case Ipfs(_) => true
    case Ethsigner => true
    case Tezossigner => true
    case Tessera(_) => true
    case Tokens(_, _) => true
    case Connector(kind, _) => kind == Fabconnect
    case _ => false
  }

  lemma MemberKind(s: Stack, id: ServiceId)
    requires ValidStack(s) && Present(s, id)
    requires IsMemberService(id)
    ensures ServiceOf(s, id).body.health <==> Checked(id)
    ensures ServiceOf(s, id).entryPoint == if id.Quorum? || id.Tessera? then ["/bin/sh", "-c", "/data/docker-entrypoint.sh"] else []
  {
  }

  lemma NodeKind(s: Stack, id: ServiceId)
    requires ValidStack(s) && Present(s, id)
    requires id.Geth? || id.Besu? || id.Ethsigner? || id.Tezossigner? || id.Prometheus?
    ensures ServiceOf(s, id).body.health <==> Checked(id)
    ensures ServiceOf(s, id).entryPoint == if id.Quorum? || id.Tessera? then ["/bin/sh", "-c", "/data/docker-entrypoint.sh"] else []
  {
  }

  lemma FabricKind(s: Stack, id: ServiceId)
    requires ValidStack(s) && Present(s, id)
    requires id.FabricCA? || id.FabricOrderer? || id.FabricPeer?
    ensures ServiceOf(s, id).body.health <==> Checked(id)
    ensures ServiceOf(s, id).entryPoint == if id.Quorum? || id.Tessera? then ["/bin/sh", "-c", "/data/docker-entrypoint.sh"] else []
  {
  }

  lemma EachKind(s: Stack, id: ServiceId)
    requires ValidStack(s) && Present(s, id)
    requires id.Quorum? || id.Tessera? || id.Connector? || id.Tokens?
    ensures ServiceOf(s, id).body.health <==> Checked(id)
    ensures ServiceOf(s, id).entryPoint == if id.Quorum? || id.Tessera? then ["/bin/sh", "-c", "/data/docker-entrypoint.sh"] else []
  {
  }

  lemma BodyKind(s: Stack, id: ServiceId)
    requires ValidStack(s) && Present(s, id)
    ensures ServiceOf(s, id).body.health <==> Checked(id)
    ensures ServiceOf(s, id).entryPoint == if id.Quorum? || id.Tessera? then ["/bin/sh", "-c", "/data/docker-entrypoint.sh"] else []
  {
    if IsMemberService(id) {
      MemberKind(s, id);
    } else if id.Geth? || id.Besu? || id.Ethsigner? || id.Tezossigner? || id.Prometheus? {
      NodeKind(s, id);
    } else if id.FabricCA? || id.FabricOrderer? || id.FabricPeer? {
      FabricKind(s, id);
    } else {
      EachKind(s, id);
    }
  }

  lemma MemberPorts(s: Stack, id: ServiceId)
    requires ValidStack(s) && Present(s, id)
    requires IsMemberService(id)
    ensures ContainerPorts(ServiceOf(s, id).body.ports) == ListensOn(s, id)
  {
  }

  lemma NodePorts(s: Stack, id: ServiceId)
    requires ValidStack(s) && Present(s, id)
    requires id.Geth? || id.Besu? || id.Ethsigner? || id.Tezossigner? || id.Prometheus?
    ensures ContainerPorts(ServiceOf(s, id).body.ports) == ListensOn(s, id)
  {
  }

  lemma FabricPorts(s: Stack, id: ServiceId)
    requires ValidStack(s) && Present(s, id)
    requires id.FabricCA? || id.FabricOrderer? || id.FabricPeer?
    ensures ContainerPorts(ServiceOf(s, id).body.ports) == ListensOn(s, id)
  {
  }

  lemma EachPorts(s: Stack, id: ServiceId)
    requires ValidStack(s) && Present(s, id)
    requires id.Quorum? || id.Tessera? || id.Connector? || id.Tokens?
    ensures ContainerPorts(ServiceOf(s, id).body.ports) == ListensOn(s, id)
  {
  }

  lemma BodyPorts(s: Stack, id: ServiceId)
    requires ValidStack(s) && Present(s, id)
    ensures ContainerPorts(ServiceOf(s, id).body.ports) == ListensOn(s, id)
  {
    if IsMemberService(id) {
      MemberPorts(s, id);
    } else if id.Geth? || id.Besu? || id.Ethsigner? || id.Tezossigner? || id.Prometheus? {
      NodePorts(s, id);
    } else if id.FabricCA? || id.FabricOrderer? || id.FabricPeer? {
      FabricPorts(s, id);
    } else {
      EachPorts(s, id);
    }
  }

  lemma KindsExactly(s: Stack, id: ServiceId)
    requires ValidStack(s) && id in Assembled(s)
    ensures var shape := Assembled(s)[id];
            && (shape.body.health <==> Checked(id))
            && shape.entryPoint == (if id.Quorum? || id.Tessera? then ["/bin/sh", "-c", "/data/docker-entrypoint.sh"] else [])
            && ContainerPorts(shape.body.ports) == ListensOn(s, id)
  {
    AssembledExact(s, id);
    BodyKind(s, id);
    BodyPorts(s, id);
  }

  // ---------------------------------------------------------------- the disabled file

  /** In the file that first-time setup runs on, every core starts a shell that is told to exit instead of its image. */
  lemma DisabledCoresExit(s: Stack, i: nat)
    requires ValidStack(s) && i < |s.members| && !s.members[i].external
    ensures var enabled, disabled := Assembled(s), Disabled(s, Assembled(s), |s.members|);
            && Core(i) in enabled && Core(i) in disabled
            && enabled[Core(i)].entryPoint == [] && disabled[Core(i)].entryPoint == ["/bin/sh", "-c", "exit", "0"]
  {
    DisablingTouchesCoresOnly(s, Core(i));
  }
}
