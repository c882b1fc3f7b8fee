/** The builder of the compose file: internal/docker/docker_config.go, the service definitions of the blockchain,
    connector and token providers, and buildDockerCompose of internal/stacks/stack_manager.go. Services and their
    depends-on maps are objects that are edited in place, and connectors share one depends-on map. */
module Compose {
  import opened Wrappers
  import opened Decimal
  import opened Names
  import opened Types
  import opened ComposeSpec
  import opened ComposeFacts
  import opened ComposeExact

  class Dependencies {
    var edges: map<ServiceId, Condition>

    constructor (edges: map<ServiceId, Condition>)
      ensures this.edges == edges
    {
      this.edges := edges;
    }
  }

  /** What is edited after construction is the depends-on map and the entry point. */
  class Service {
    const body: ServiceBody
    const dependsOn: Dependencies?
    var entryPoint: seq<string>

    constructor (body: ServiceBody, dependsOn: Dependencies?, entryPoint: seq<string>)
      ensures this.body == body && this.dependsOn == dependsOn && this.entryPoint == entryPoint
    {
      this.body, this.dependsOn, this.entryPoint := body, dependsOn, entryPoint;
    }

    ghost function Waits(): map<ServiceId, Condition>
      reads dependsOn
    {
      if dependsOn == null then map[] else dependsOn.edges
    }
  }

  datatype ServiceDefinition = ServiceDefinition(id: ServiceId, service: Service, volumes: seq<VolumeId>)

  // ---------------------------------------------------------------- small pieces

  method ConcatenateWithProvided(s: Stack, own: Environment) returns (result: Environment)
    ensures result == WithProvided(s, own)
  {
    result := map[];
    var keys := own.Keys;
    while keys != {}
      invariant keys <= own.Keys
      invariant result.Keys == own.Keys - keys
      invariant forall k :: k in result ==> result[k] == own[k]
    {
      var k :| k in keys;
      result := result[k := own[k]];
      keys := keys - {k};
    }
    keys := s.environment.Keys;
    while keys != {}
      invariant keys <= s.environment.Keys
      invariant result.Keys == own.Keys + (s.environment.Keys - keys)
      invariant forall k :: k in result ==>
        result[k] == if k in s.environment && k !in keys then s.environment[k] else own[k]
    {
      var k :| k in keys;
      result := result[k := s.environment[k]];
      keys := keys - {k};
    }
  }

  /** The loop goes on after a hit, so the last contract of the name counts. */
  method FindDeployedAddress(deployed: seq<DeployedContract>, name: string) returns (address: string)
    ensures || (address == "" && forall j :: 0 <= j < |deployed| ==> deployed[j].name != name)
            || exists k :: LastOfName(deployed, name, k) && address == deployed[k].address
    ensures address == DeployedAddress(deployed, name)
  {
    address := "";
    for i := 0 to |deployed|
      invariant address == DeployedAddress(deployed[..i], name)
    {
      assert deployed[..i + 1][..i] == deployed[..i];
      if deployed[i].name == name {
        address := deployed[i].address;
      }
    }
    assert deployed[..|deployed|] == deployed;
    DeployedAddressExact(deployed, name);
  }

  // ---------------------------------------------------------------- service definitions

  /** The value of a definition, whatever objects it is made of. */
  ghost function View(d: ServiceDefinition): Definition
    reads d.service, d.service.dependsOn
  {
    Definition(d.id, d.service.body, d.service.Waits(), d.service.entryPoint, d.volumes)
  }

  /** The services asked for, in order. */
  ghost predicate Delivers(defs: seq<ServiceDefinition>, plan: seq<Definition>)
    reads set d | d in defs :: d.service
    reads set d | d in defs && d.service.dependsOn != null :: d.service.dependsOn
  {
    |defs| == |plan| && forall j :: 0 <= j < |plan| ==> View(defs[j]) == plan[j]
  }

  ghost function PartsOf(service: Service): set<object> {
    {service} + if service.dependsOn == null then {} else {service.dependsOn}
  }

  ghost function DefinitionParts(definitions: seq<ServiceDefinition>): set<object> {
    set d, x | d in definitions && x in PartsOf(d.service) :: x
  }

  lemma DeliversBoth(a: seq<ServiceDefinition>, p: seq<Definition>, b: seq<ServiceDefinition>, q: seq<Definition>)
    requires Delivers(a, p) && Delivers(b, q)
    ensures Delivers(a + b, p + q)
  {
  }

  method NewDefinition(id: ServiceId, body: ServiceBody, dependsOn: Dependencies?, entryPoint: seq<string>,
                       volumes: seq<VolumeId>)
    returns (d: ServiceDefinition)
    ensures fresh(d.service) && d.service.dependsOn == dependsOn
    ensures View(d) == Definition(id, body, if dependsOn == null then map[] else dependsOn.edges, entryPoint, volumes)
  {
    var service := new Service(body, dependsOn, entryPoint);
    d := ServiceDefinition(id, service, volumes);
  }

  /** The loop at the head of the connectors' GetServiceDefinitions. */
  method CopyDependencies(dependentServices: map<ServiceId, Condition>) returns (dependsOn: Dependencies)
    ensures fresh(dependsOn) && dependsOn.edges == dependentServices
  {
    dependsOn := new Dependencies(map[]);
    var keys := dependentServices.Keys;
    while keys != {}
      invariant keys <= dependentServices.Keys && dependsOn.edges.Keys == dependentServices.Keys - keys
      invariant forall k :: k in dependsOn.edges ==> dependsOn.edges[k] == dependentServices[k]
    {
      var k :| k in keys;
      dependsOn.edges := dependsOn.edges[k := dependentServices[k]];
      keys := keys - {k};
    }
  }

  method ConnectorDefinition(s: Stack, i: nat, dependsOn: Dependencies) returns (d: ServiceDefinition)
    requires i < |s.members| && !s.provider.Fabric? && dependsOn.edges == ConnectorWaits(s)
    ensures fresh(d.service) && d.service.dependsOn == dependsOn
    ensures View(d) == ConnectorService(s, ConnectorOf(s.provider), i)
  {
    var kind := ConnectorOf(s.provider);
    var volumes := if kind == Ethconnect then [ConnectorConfig(kind, i), ConnectorData(kind, i)] else [ConnectorData(kind, i)];
    d := NewDefinition(
      Connector(kind, i),
      ServiceBody(FromManifest(ConnectorEntry(s.manifest, kind)), Container(s.name, Connector(kind, i)),
                  [Publication(s.members[i].connectorPort, ConnectorPort(kind))], volumes, s.environment, false),
      dependsOn, [], volumes);
  }

  /** GetServiceDefinitions of ethconnect, evmconnect and tezosconnect. One depends-on map serves all members. */
  method ConnectorDefinitions(s: Stack, dependentServices: map<ServiceId, Condition>) returns (defs: seq<ServiceDefinition>)
    requires !s.provider.Fabric? && dependentServices == ConnectorWaits(s)
    ensures Delivers(defs, ConnectorPlan(s))
    ensures forall d :: d in defs ==> fresh(d.service) && (d.service.dependsOn != null ==> fresh(d.service.dependsOn))
    ensures forall c, d :: c in defs && d in defs ==> c.service.dependsOn == d.service.dependsOn
  {
    var dependsOn := CopyDependencies(dependentServices);
    defs := [];
    for i := 0 to |s.members|
      invariant dependsOn.edges == dependentServices
      invariant |defs| == i
      invariant forall j :: 0 <= j < i ==> fresh(defs[j].service) && defs[j].service.dependsOn == dependsOn
      invariant forall j :: 0 <= j < i ==> View(defs[j]) == ConnectorService(s, ConnectorOf(s.provider), j)
    {
      var d := ConnectorDefinition(s, i, dependsOn);
      defs := defs + [d];
    }
  }

  // ---------------------------------------------------------------- GetDockerServiceDefinitions of the blockchain providers

  method NodeDefinition(s: Stack, id: ServiceId) returns (d: ServiceDefinition)
    requires id.Geth? || id.Besu? || id.Ethsigner? || id.Tezossigner?
    ensures fresh(d.service) && d.service.dependsOn == null && View(d) == NodeService(s, id)
  {
    var name := Container(s.name, id);
    var blockchainPort := Publication(s.blockchainPort, 8545);
    match id {
      case Geth =>
        d := NewDefinition(id, ServiceBody(GethImage, name, [blockchainPort], [GethData], s.environment, false),
                           null, [], [GethData]);
      case Besu =>
        d := NewDefinition(id, ServiceBody(BesuImage, name, [], [BesuData], s.environment, false), null, [], [BesuData]);
      case Ethsigner =>
        var volumes := [EthsignerData, EthsignerConfig];
        d := NewDefinition(id, ServiceBody(FromManifest(s.manifest.signer), name, [blockchainPort], volumes,
                                           s.environment, true),
                           null, [], volumes);
      case Tezossigner =>
        var volumes := [TezossignerData, TezossignerConfig];
        d := NewDefinition(id, ServiceBody(SignatoryImage, name, [Publication(s.blockchainPort, 6732), Publication(9583, 9583)],
                                           volumes, s.environment, true),
                           null, [], volumes);
    }
  }

  method GethDefinitions(s: Stack) returns (defs: seq<ServiceDefinition>)
    requires s.provider.GethNode?
    ensures Delivers(defs, NodePlan(s) + ConnectorPlan(s))
    ensures forall d :: d in defs ==> fresh(d.service) && (d.service.dependsOn != null ==> fresh(d.service.dependsOn))
  {
    var geth := NodeDefinition(s, Geth);
    var connectors := ConnectorDefinitions(s, map[Geth := Started]);
    defs := [geth] + connectors;
  }

  method BesuDefinitions(s: Stack) returns (defs: seq<ServiceDefinition>)
    requires s.provider.BesuNode?
    ensures Delivers(defs, NodePlan(s) + ConnectorPlan(s))
    ensures forall d :: d in defs ==> fresh(d.service) && (d.service.dependsOn != null ==> fresh(d.service.dependsOn))
  {
    var besu := NodeDefinition(s, Besu);
    var signer := NodeDefinition(s, Ethsigner);
    var connectors := ConnectorDefinitions(s, map[Ethsigner := Healthy]);
    defs := [besu, signer] + connectors;
  }

  method RemoteRPCDefinitions(s: Stack) returns (defs: seq<ServiceDefinition>)
    requires s.provider.RemoteRPC?
    ensures Delivers(defs, NodePlan(s) + ConnectorPlan(s))
    ensures forall d :: d in defs ==> fresh(d.service) && (d.service.dependsOn != null ==> fresh(d.service.dependsOn))
  {
    var signer := NodeDefinition(s, Ethsigner);
    var connectors := ConnectorDefinitions(s, map[Ethsigner := Healthy]);
    defs := [signer] + connectors;
  }

  method TezosDefinitions(s: Stack) returns (defs: seq<ServiceDefinition>)
    requires s.provider.Tezos?
    ensures Delivers(defs, NodePlan(s) + ConnectorPlan(s))
    ensures forall d :: d in defs ==> fresh(d.service) && (d.service.dependsOn != null ==> fresh(d.service.dependsOn))
  {
    var signer := NodeDefinition(s, Tezossigner);
    var connectors := ConnectorDefinitions(s, map[Tezossigner := Healthy]);
    defs := [signer] + connectors;
  }

  method QuorumDefinition(s: Stack, i: nat, dependsOn: Dependencies?) returns (d: ServiceDefinition)
    ensures fresh(d.service) && d.service.dependsOn == dependsOn
    ensures dependsOn == null ==> View(d) == QuorumService(s, i, false)
    ensures dependsOn != null && dependsOn.edges == map[Tessera(i) := Healthy] ==> View(d) == QuorumService(s, i, true)
  {
    d := NewDefinition(Quorum(i),
                       ServiceBody(QuorumImage, Container(s.name, Quorum(i)), [Publication(s.blockchainPort + i * 10, 8545)],
                                   [QuorumData(i)], s.environment, false),
                       dependsOn, ["/bin/sh", "-c", "/data/docker-entrypoint.sh"], [QuorumData(i)]);
  }

  method TesseraDefinition(s: Stack, i: nat) returns (d: ServiceDefinition)
    ensures fresh(d.service) && d.service.dependsOn == null && View(d) == TesseraService(s, i)
  {
    d := NewDefinition(Tessera(i),
                       ServiceBody(TesseraImage, Container(s.name, Tessera(i)), [Publication(s.ptmPort + i * 10, 9080)],
                                   [TesseraData(i)], s.environment, true),
                       null, ["/bin/sh", "-c", "/data/docker-entrypoint.sh"], [TesseraData(i)]);
  }

  function TesserasOf(s: Stack, n: nat, tessera: bool): seq<Definition> {
    if tessera then TesseraPlan(s, n) else []
  }

  lemma QuorumPlansGrow(s: Stack, i: nat, tessera: bool)
    ensures QuorumPlan(s, i + 1, tessera) == QuorumPlan(s, i, tessera) + [QuorumService(s, i, tessera)]
    ensures TesserasOf(s, i + 1, tessera) == TesserasOf(s, i, tessera) + if tessera then [TesseraService(s, i)] else []
  {
  }

  /** The member loop of quorum's GetDockerServiceDefinitions. */
  method QuorumNodeDefinitions(s: Stack, tessera: bool)
    returns (quorums: seq<ServiceDefinition>, tesseras: seq<ServiceDefinition>, connectorDependents: map<ServiceId, Condition>)
    ensures Delivers(quorums, QuorumPlan(s, |s.members|, tessera)) && Delivers(tesseras, TesserasOf(s, |s.members|, tessera))
    ensures forall d :: d in quorums || d in tesseras ==>
              fresh(d.service) && (d.service.dependsOn != null ==> fresh(d.service.dependsOn))
    ensures connectorDependents == QuorumWaits(|s.members|)
  {
    quorums, tesseras, connectorDependents := [], [], map[];
    for i := 0 to |s.members|
      invariant connectorDependents == QuorumWaits(i)
      invariant Delivers(quorums, QuorumPlan(s, i, tessera)) && Delivers(tesseras, TesserasOf(s, i, tessera))
      invariant forall d :: d in quorums || d in tesseras ==>
        fresh(d.service) && (d.service.dependsOn != null ==> fresh(d.service.dependsOn))
    {
      var d, t := QuorumPair(s, i, tessera);
      assert Delivers(tesseras + t, TesserasOf(s, i + 1, tessera)) by {
        QuorumPlansGrow(s, i, tessera);
        DeliversBoth(tesseras, TesserasOf(s, i, tessera), t, if tessera then [TesseraService(s, i)] else []);
      }
      assert Delivers(quorums + [d], QuorumPlan(s, i + 1, tessera)) by {
        QuorumPlansGrow(s, i, tessera);
        DeliversBoth(quorums, QuorumPlan(s, i, tessera), [d], [QuorumService(s, i, tessera)]);
      }
      tesseras := tesseras + t;
      quorums := quorums + [d];
      connectorDependents := connectorDependents[Quorum(i) := Started];
    }
  }

  /** One turn of that loop: a quorum node and, if asked for, the tessera it waits for. */
  method QuorumPair(s: Stack, i: nat, tessera: bool) returns (d: ServiceDefinition, t: seq<ServiceDefinition>)
    ensures fresh(d.service) && (d.service.dependsOn != null ==> fresh(d.service.dependsOn))
    ensures View(d) == QuorumService(s, i, tessera)
    ensures Delivers(t, if tessera then [TesseraService(s, i)] else [])
    ensures forall e :: e in t ==> fresh(e.service) && e.service.dependsOn == null
  {
    var quorumDependsOn: Dependencies? := null;
    t := [];
    if tessera {
      quorumDependsOn := new Dependencies(map[Tessera(i) := Healthy]);
      var e := TesseraDefinition(s, i);
      t := [e];
    }
    d := QuorumDefinition(s, i, quorumDependsOn);
  }

  method QuorumDefinitions(s: Stack) returns (defs: seq<ServiceDefinition>)
    requires s.provider.QuorumNode?
    ensures Delivers(defs, NodePlan(s) + ConnectorPlan(s))
    ensures forall d :: d in defs ==> fresh(d.service) && (d.service.dependsOn != null ==> fresh(d.service.dependsOn))
  {
    var quorums, tesseras, connectorDependents := QuorumNodeDefinitions(s, s.provider.tessera);
    var connectors := ConnectorDefinitions(s, connectorDependents);
    DeliversBoth(quorums, QuorumPlan(s, |s.members|, s.provider.tessera),
                 tesseras, if s.provider.tessera then TesseraPlan(s, |s.members|) else []);
    DeliversBoth(quorums + tesseras, NodePlan(s), connectors, ConnectorPlan(s));
    defs := quorums + tesseras + connectors;
  }

  method FabricNodeDefinition(s: Stack, id: ServiceId) returns (d: ServiceDefinition)
    requires id.FabricCA? || id.FabricOrderer? || id.FabricPeer?
    ensures fresh(d.service) && d.service.dependsOn == null && View(d) == FabricService(s, id)
  {
    var name := Container(s.name, id);
    match id {
      case FabricCA =>
        d := NewDefinition(id, ServiceBody(FabricCAImage, name, [Publication(7054, 7054), Publication(17054, 17054)],
                                           [FireflyFabric], s.environment, false),
                           null, [], [FabricCAData]);
      case FabricOrderer =>
        d := NewDefinition(id, ServiceBody(FabricOrdererImage, name,
                                           [Publication(7050, 7050), Publication(7053, 7053), Publication(17050, 17050)],
                                           [FireflyFabric, FabricOrdererData], s.environment, false),
                           null, [], [FabricOrdererData]);
      case FabricPeer =>
        d := NewDefinition(id, ServiceBody(FabricPeerImage, name, [Publication(7051, 7051), Publication(17051, 17051)],
                                           [FireflyFabric, FabricPeerData], s.environment, false),
                           null, [], [FabricPeerData]);
    }
  }

  /** GenerateDockerServiceDefinitions, internal/blockchain/fabric/fabric_docker.go. */
  method FabricNodeDefinitions(s: Stack) returns (defs: seq<ServiceDefinition>)
    ensures Delivers(defs, [FabricService(s, FabricCA), FabricService(s, FabricOrderer), FabricService(s, FabricPeer)])
    ensures forall d :: d in defs ==> fresh(d.service) && d.service.dependsOn == null
  {
    var ca := FabricNodeDefinition(s, FabricCA);
    var orderer := FabricNodeDefinition(s, FabricOrderer);
    var peer := FabricNodeDefinition(s, FabricPeer);
    defs := [ca, orderer, peer];
  }

  /** One fabconnect; unlike the other connectors every member gets a depends-on map of its own. */
  method FabconnectDefinition(s: Stack, i: nat) returns (d: ServiceDefinition)
    requires s.provider.Fabric? && i < |s.members|
    ensures fresh(d.service) && (d.service.dependsOn != null ==> fresh(d.service.dependsOn))
    ensures View(d) == ConnectorService(s, Fabconnect, i)
  {
    var volumes := [FabconnectReceipts(i), FabconnectEvents(i)];
    var dependsOn: Dependencies? := null;
    if !s.provider.remote {
      dependsOn := new Dependencies(map[FabricCA := Started, FabricPeer := Started, FabricOrderer := Started]);
      volumes := volumes + [FireflyFabric];
    }
    d := NewDefinition(
      Connector(Fabconnect, i),
      ServiceBody(FromManifest(s.manifest.fabconnect), Container(s.name, Connector(Fabconnect, i)),
                  [Publication(s.members[i].connectorPort, 3000)], volumes, s.environment, true),
      dependsOn, [], volumes);
  }

  method FabconnectDefinitions(s: Stack) returns (defs: seq<ServiceDefinition>)
    requires s.provider.Fabric?
    ensures Delivers(defs, ConnectorPlan(s))
    ensures forall d :: d in defs ==> fresh(d.service) && (d.service.dependsOn != null ==> fresh(d.service.dependsOn))
  {
    defs := [];
    for i := 0 to |s.members|
      invariant forall d :: d in defs ==> fresh(d.service) && (d.service.dependsOn != null ==> fresh(d.service.dependsOn))
      invariant |defs| == i && forall j :: 0 <= j < i ==> View(defs[j]) == ConnectorService(s, Fabconnect, j)
    {
      var d := FabconnectDefinition(s, i);
      defs := defs + [d];
    }
  }

  method FabricDefinitions(s: Stack) returns (defs: seq<ServiceDefinition>)
    requires s.provider.Fabric?
    ensures Delivers(defs, NodePlan(s) + ConnectorPlan(s))
    ensures forall d :: d in defs ==> fresh(d.service) && (d.service.dependsOn != null ==> fresh(d.service.dependsOn))
  {
    if s.provider.remote {
      defs := FabconnectDefinitions(s);
      assert NodePlan(s) + ConnectorPlan(s) == ConnectorPlan(s);
    } else {
      var nodes := FabricNodeDefinitions(s);
      var connectors := FabconnectDefinitions(s);
      DeliversBoth(nodes, NodePlan(s), connectors, ConnectorPlan(s));
      defs := nodes + connectors;
    }
  }

  method ProviderDefinitions(s: Stack) returns (defs: seq<ServiceDefinition>)
    ensures Delivers(defs, NodePlan(s) + ConnectorPlan(s))
    ensures forall d :: d in defs ==> fresh(d.service) && (d.service.dependsOn != null ==> fresh(d.service.dependsOn))
  {
    match s.provider {
      case GethNode(_) => defs := GethDefinitions(s);
      case BesuNode(_) => defs := BesuDefinitions(s);
      case QuorumNode(_, _) => defs := QuorumDefinitions(s);
      case RemoteRPC(_) => defs := RemoteRPCDefinitions(s);
      case Tezos => defs := TezosDefinitions(s);
      case Fabric(_) => defs := FabricDefinitions(s);
    }
  }

  // ---------------------------------------------------------------- GetDockerServiceDefinitions of the token providers

  method TokensEnvironmentFor(s: Stack, i: nat, k: nat) returns (env: Environment)
    requires k < |s.tokenProviders|
    ensures env == TokensEnvironment(s, i, k)
  {
    var kind := ConnectorOf(s.provider);
    var own := map[ETHCONNECT_URL := Url(ServiceAddress(Connector(kind, i), ConnectorPort(kind))),
                   ETHCONNECT_TOPIC := NameOf(Tokens(i, k)),
                   AUTO_INIT := Text("false")];
    match s.tokenProviders[k] {
      case ERC1155 =>
        var contractAddress := FindDeployedAddress(s.deployed, MIXED_FUNGIBLE);
        env := ConcatenateWithProvided(s, own[CONTRACT_ADDRESS := Text(contractAddress)]);
      case ERC20ERC721 =>
        var factoryAddress := FindDeployedAddress(s.deployed, FactoryName(k));
        env := ConcatenateWithProvided(s, own);
        if !TokenFactoriesDisabled(s.provider) && factoryAddress != "" {
          env := env[FACTORY_CONTRACT_ADDRESS := Text(factoryAddress)];
        }
    }
  }

  method TokensDefinition(s: Stack, i: nat, k: nat) returns (d: ServiceDefinition)
    requires ValidStack(s) && i < |s.members| && k < |s.tokenProviders|
    ensures fresh(d.service) && d.service.dependsOn != null && fresh(d.service.dependsOn)
    ensures View(d) == TokensService(s, i, k)
  {
    var env := TokensEnvironmentFor(s, i, k);
    var dependsOn := new Dependencies(map[Connector(ConnectorOf(s.provider), i) := Started]);
    d := NewDefinition(
      Tokens(i, k),
      ServiceBody(FromManifest(TokensEntry(s.manifest, s.tokenProviders[k])), Container(s.name, Tokens(i, k)),
                  [Publication(s.members[i].tokensPorts[k], 3000)], [], env, true),
      dependsOn, [], []);
  }

  method TokensDefinitions(s: Stack, k: nat) returns (defs: seq<ServiceDefinition>)
    requires ValidStack(s) && k < |s.tokenProviders|
    ensures Delivers(defs, TokensPlan(s, k))
    ensures forall d :: d in defs ==> fresh(d.service) && (d.service.dependsOn != null ==> fresh(d.service.dependsOn))
  {
    defs := [];
    for i := 0 to |s.members|
      invariant forall d :: d in defs ==> fresh(d.service) && (d.service.dependsOn != null ==> fresh(d.service.dependsOn))
      invariant |defs| == i && forall j :: 0 <= j < i ==> View(defs[j]) == TokensService(s, j, k)
    {
      var d := TokensDefinition(s, i, k);
      defs := defs + [d];
    }
  }

  /** All provider services, as buildDockerCompose and removeVolumes collect them. */
  method ExtraDefinitions(s: Stack) returns (defs: seq<ServiceDefinition>)
    requires ValidStack(s)
    ensures Delivers(defs, ExtraPlan(s))
    ensures forall d :: d in defs ==> fresh(d.service) && (d.service.dependsOn != null ==> fresh(d.service.dependsOn))
  {
    defs := ProviderDefinitions(s);
    assert NodePlan(s) + ConnectorPlan(s) + AllTokensPlan(s, 0) == NodePlan(s) + ConnectorPlan(s);
    for k := 0 to |s.tokenProviders|
      invariant forall d :: d in defs ==> fresh(d.service) && (d.service.dependsOn != null ==> fresh(d.service.dependsOn))
      invariant Delivers(defs, NodePlan(s) + ConnectorPlan(s) + AllTokensPlan(s, k))
    {
      var tokens := TokensDefinitions(s, k);
      TokensPlanStep(s, k);
      DeliversBoth(defs, NodePlan(s) + ConnectorPlan(s) + AllTokensPlan(s, k), tokens, TokensPlan(s, k));
      defs := defs + tokens;
    }
  }

  lemma TokensPlanStep(s: Stack, k: nat)
    requires ValidStack(s) && k < |s.tokenProviders|
    ensures NodePlan(s) + ConnectorPlan(s) + AllTokensPlan(s, k) + TokensPlan(s, k)
         == NodePlan(s) + ConnectorPlan(s) + AllTokensPlan(s, k + 1)
  {
  }

  // ---------------------------------------------------------------- the compose file

  ghost function ShapeOf(service: Service): Shape
    reads service, service.dependsOn
  {
    Shape(service.body, service.Waits(), service.entryPoint)
  }

  /** The depends-on maps of the cores, with the cores themselves. */
  ghost function CorePartsOf(services: map<ServiceId, Service>): set<object> {
    (set id | id in services && id.Core? :: services[id] as object)
    + (set id | id in services && id.Core? && services[id].dependsOn != null :: services[id].dependsOn as object)
  }

  /** Every core has a depends-on map and shares neither it nor itself with another service. */
  ghost predicate Unshared(services: map<ServiceId, Service>) {
    && (forall a :: a in services && a.Core? ==> services[a].dependsOn != null)
    && (forall a, b :: a in services && b in services && a.Core? && a != b ==>
          services[a] != services[b] && services[a].dependsOn != services[b].dependsOn)
  }

  ghost predicate Owned(services: map<ServiceId, Service>, parts: set<object>) {
    forall a :: a in services ==> services[a] in parts && (services[a].dependsOn != null ==> services[a].dependsOn in parts)
  }

  lemma UnsharedStill(services: map<ServiceId, Service>, parts: set<object>, id: ServiceId, service: Service)
    requires Unshared(services) && Owned(services, parts) && (id.Core? ==> service.dependsOn != null)
    requires PartsOf(service) !! if id.Core? then parts else CorePartsOf(services)
    ensures Unshared(services[id := service]) && Owned(services[id := service], parts + PartsOf(service))
  {
    forall a | a in services && (a.Core? || id.Core?)
      ensures services[a] != service && (service.dependsOn == null || services[a].dependsOn != service.dependsOn)
    {
      if !id.Core? { assert services[a] in CorePartsOf(services) && services[a].dependsOn in CorePartsOf(services); }
      assert service in PartsOf(service);
    }
  }

  class DockerComposeConfig {
    var services: map<ServiceId, Service>
    var volumes: set<VolumeId>

    ghost var Shapes: map<ServiceId, Shape>
    ghost var Parts: set<object>

    /** The services have the shapes recorded, and no core shares itself or its depends-on map with another service. */
    ghost predicate Valid()
      reads this, Parts
    {
      && services.Keys == Shapes.Keys && Owned(services, Parts) && Unshared(services)
      && (forall id :: id in services ==> ShapeOf(services[id]) == Shapes[id])
    }

    ghost function CoreParts(): set<object>
      reads this
    {
      CorePartsOf(services)
    }

    constructor ()
      ensures Valid() && services == map[] && Shapes == map[] && volumes == {} && Parts == {}
    {
      services, volumes, Shapes, Parts := map[], {}, map[], {};
    }

    /** Enter a service, over any other of that name, and declare volumes. */
    method Put(id: ServiceId, service: Service, names: set<VolumeId>)
      requires Valid() && (id.Core? ==> service.dependsOn != null)
      requires PartsOf(service) !! if id.Core? then Parts else CoreParts()
      modifies this
      ensures Valid() && Shapes == old(Shapes)[id := ShapeOf(service)] && Parts == old(Parts) + PartsOf(service)
      ensures services == old(services)[id := service] && volumes == old(volumes) + names
    {
      UnsharedStill(services, Parts, id, service);
      ghost var shape := ShapeOf(service);
      services := services[id := service];
      volumes := volumes + names;
      Shapes, Parts := Shapes[id := shape], Parts + PartsOf(service);
      forall a | a in services
        ensures ShapeOf(services[a]) == Shapes[a]
      {
      }
    }

    /** The edit in place of a core's entry point. */
    method SetEntryPoint(core: ServiceId, entryPoint: seq<string>)
      requires Valid() && core.Core? && core in services
      modifies this`Shapes, services[core]
      ensures Valid() && Shapes == old(Shapes)[core := old(Shapes)[core].(entryPoint := entryPoint)]
    {
      services[core].entryPoint := entryPoint;
      Shapes := Shapes[core := Shapes[core].(entryPoint := entryPoint)];
    }

    /** The edit in place of a core's depends-on map, if the core is there. Other services may share theirs among
        themselves: none of them changes. */
    method AddEdge(core: ServiceId, b: ServiceId, c: Condition)
      requires Valid() && core.Core?
      modifies this`Shapes, if core in services then {services[core].dependsOn} else {}
      ensures Valid() && Shapes == WithEdge(old(Shapes), core, b, c)
      ensures services == old(services) && Parts == old(Parts) && volumes == old(volumes)
    {
      if core in services {
        var service := services[core];
        service.dependsOn.edges := service.dependsOn.edges[b := c];
        Shapes := WithEdge(Shapes, core, b, c);
      }
    }
  }

  // ---------------------------------------------------------------- CreateDockerCompose

  method NewCore(s: Stack, i: nat) returns (core: Service)
    requires i < |s.members|
    ensures fresh(PartsOf(core)) && core.dependsOn != null && ShapeOf(core) == EarlyCoreShape(s, i)
  {
    var m := s.members[i];
    var dependsOn := new Dependencies(map[]);
    core := new Service(
      ServiceBody(FromManifest(s.manifest.fireFly), Container(s.name, Core(i)),
                  [Publication(m.fireFlyPort, m.fireFlyPort), Publication(m.spiPort, m.spiPort)],
                  [CoreData(i)], s.environment, true),
      dependsOn, []);
    core.dependsOn.edges := core.dependsOn.edges[DataExchange(i) := Started];
    core.dependsOn.edges := core.dependsOn.edges[Ipfs(i) := Healthy];
  }

  method NewPostgres(s: Stack, i: nat) returns (postgres: Service)
    requires i < |s.members|
    ensures fresh(PartsOf(postgres)) && ShapeOf(postgres) == MemberShape(s, Postgres(i))
  {
    var env := ConcatenateWithProvided(s, PostgresEnvironment());
    postgres := new Service(
      ServiceBody(PostgresImage, Container(s.name, Postgres(i)), [Publication(s.members[i].databasePort, 5432)],
                  [PostgresData(i)], env, true),
      null, []);
  }

  method NewSharedStorage(s: Stack, i: nat) returns (ipfs: Service)
    requires i < |s.members|
    ensures fresh(PartsOf(ipfs)) && ShapeOf(ipfs) == MemberShape(s, Ipfs(i))
  {
    var env := s.environment;
    if s.ipfsPrivate {
      env := ConcatenateWithProvided(s, SwarmEnvironment(s));
    }
    ipfs := new Service(
      ServiceBody(IpfsImage, Container(s.name, Ipfs(i)),
                  [Publication(s.members[i].ipfsApiPort, 5001), Publication(s.members[i].ipfsGatewayPort, 8080)],
                  [IpfsStaging(i), IpfsData(i)], env, true),
      null, []);
  }

  method NewDataExchange(s: Stack, i: nat) returns (dataExchange: Service)
    requires i < |s.members|
    ensures fresh(PartsOf(dataExchange)) && ShapeOf(dataExchange) == MemberShape(s, DataExchange(i))
  {
    dataExchange := new Service(
      ServiceBody(FromManifest(s.manifest.dataExchange), Container(s.name, DataExchange(i)),
                  [Publication(s.members[i].dataExchangePort, 3000)], [DataExchangeData(i)], s.environment, false),
      null, []);
  }

  method NewSandbox(s: Stack, i: nat) returns (sandbox: Service)
    requires i < |s.members|
    ensures fresh(PartsOf(sandbox)) && ShapeOf(sandbox) == MemberShape(s, Sandbox(i))
  {
    var env := ConcatenateWithProvided(s, SandboxEnvironment(s.members[i]));
    sandbox := new Service(
      ServiceBody(SandboxImage, Container(s.name, Sandbox(i)), [Publication(s.members[i].sandboxPort, 3001)], [], env, false),
      null, []);
  }

  method NewPrometheus(s: Stack) returns (prometheus: Service)
    ensures fresh(PartsOf(prometheus)) && ShapeOf(prometheus) == Shape(PrometheusService(s).body, map[], [])
  {
    prometheus := new Service(
      ServiceBody(PrometheusImage, Container(s.name, Prometheus), [Publication(s.prometheusPort, 9090)],
                  [PrometheusData, PrometheusConfig], s.environment, false),
      null, []);
  }

  method AddCore(compose: DockerComposeConfig, s: Stack, i: nat)
    requires compose.Valid() && i < |s.members|
    modifies compose
    ensures compose.Valid() && fresh(compose.Parts - old(compose.Parts))
    ensures compose.Shapes == WithCore(old(compose.Shapes), s, i)
    ensures compose.volumes == old(compose.volumes) + if s.members[i].external then {} else {CoreData(i)}
    ensures fresh(compose.CoreParts() - old(compose.CoreParts()))
  {
    if !s.members[i].external {
      var core := NewCore(s, i);
      compose.Put(Core(i), core, {CoreData(i)});
    }
  }

  method AddDatabase(compose: DockerComposeConfig, s: Stack, i: nat)
    requires compose.Valid() && i < |s.members|
    modifies compose
    modifies if Core(i) in compose.services then {compose.services[Core(i)].dependsOn} else {}
    ensures compose.Valid() && fresh(compose.Parts - old(compose.Parts))
    ensures compose.Shapes == WithDatabase(old(compose.Shapes), s, i)
    ensures compose.volumes == old(compose.volumes) + if s.database == PostgresDB then {PostgresData(i)} else {}
  {
    if s.database == PostgresDB {
      var postgres := NewPostgres(s, i);
      compose.Put(Postgres(i), postgres, {PostgresData(i)});
      compose.AddEdge(Core(i), Postgres(i), Healthy);
    }
  }

  method AddSharedStorage(compose: DockerComposeConfig, s: Stack, i: nat)
    requires compose.Valid() && i < |s.members|
    modifies compose
    ensures compose.Valid() && fresh(compose.Parts - old(compose.Parts))
    ensures compose.Shapes == old(compose.Shapes)[Ipfs(i) := MemberShape(s, Ipfs(i))]
    ensures compose.volumes == old(compose.volumes) + {IpfsStaging(i), IpfsData(i)}
  {
    var ipfs := NewSharedStorage(s, i);
    compose.Put(Ipfs(i), ipfs, {IpfsStaging(i), IpfsData(i)});
  }

  method AddDataExchange(compose: DockerComposeConfig, s: Stack, i: nat)
    requires compose.Valid() && i < |s.members|
    modifies compose
    ensures compose.Valid() && fresh(compose.Parts - old(compose.Parts))
    ensures compose.Shapes == old(compose.Shapes)[DataExchange(i) := MemberShape(s, DataExchange(i))]
    ensures compose.volumes == old(compose.volumes) + {DataExchangeData(i)}
  {
    var dataExchange := NewDataExchange(s, i);
    compose.Put(DataExchange(i), dataExchange, {DataExchangeData(i)});
  }

  method AddSandbox(compose: DockerComposeConfig, s: Stack, i: nat)
    requires compose.Valid() && i < |s.members|
    modifies compose
    ensures compose.Valid() && fresh(compose.Parts - old(compose.Parts))
    ensures compose.Shapes == WithSandbox(old(compose.Shapes), s, i)
    ensures compose.volumes == old(compose.volumes)
  {
    if s.sandboxEnabled {
      var sandbox := NewSandbox(s, i);
      compose.Put(Sandbox(i), sandbox, {});
    }
  }

  method AddMemberServices(compose: DockerComposeConfig, s: Stack, i: nat)
    requires compose.Valid() && i < |s.members|
    modifies compose
    ensures compose.Valid() && fresh(compose.Parts - old(compose.Parts))
    ensures compose.Shapes == WithSandbox(WithStorage(old(compose.Shapes), s, i), s, i)
    ensures compose.volumes == old(compose.volumes) + {IpfsStaging(i), IpfsData(i)} + {DataExchangeData(i)}
  {
    AddSharedStorage(compose, s, i);
    AddDataExchange(compose, s, i);
    AddSandbox(compose, s, i);
  }

  /** One turn of the member loop of CreateDockerCompose. */
  method AddMember(compose: DockerComposeConfig, s: Stack, i: nat)
    requires compose.Valid() && i < |s.members|
    modifies compose, compose.CoreParts()
    ensures compose.Valid() && fresh(compose.Parts - old(compose.Parts))
    ensures compose.Shapes == WithMember(old(compose.Shapes), s, i)
    ensures compose.volumes == WithVolumes(old(compose.volumes), s, i)
  {
    AddCore(compose, s, i);
    AddDatabase(compose, s, i);
    AddMemberServices(compose, s, i);
  }

  method CreateDockerCompose(s: Stack) returns (compose: DockerComposeConfig)
    requires ValidStack(s) && ManifestComplete(s)
    ensures fresh(compose) && compose.Valid() && fresh(compose.Parts)
    ensures compose.Shapes == BaseShapes(s) && compose.volumes == BaseVolumes(s)
  {
    compose := new DockerComposeConfig();
    for i := 0 to |s.members|
      invariant fresh(compose) && compose.Valid() && fresh(compose.Parts)
      invariant compose.Shapes == MemberShapes(s, i) && compose.volumes == MemberVolumes(s, i)
    {
      AddMember(compose, s, i);
    }
    AddPrometheus(compose, s);
  }

  method AddPrometheus(compose: DockerComposeConfig, s: Stack)
    requires compose.Valid()
    modifies compose
    ensures compose.Valid() && fresh(compose.Parts - old(compose.Parts))
    ensures compose.Shapes == WithPrometheus(old(compose.Shapes), s)
    ensures compose.volumes == old(compose.volumes) + if s.prometheusEnabled then {PrometheusData, PrometheusConfig} else {}
  {
    if s.prometheusEnabled {
      var prometheus := NewPrometheus(s);
      compose.Put(Prometheus, prometheus, {PrometheusData, PrometheusConfig});
    }
  }

  // ---------------------------------------------------------------- buildDockerCompose

  /** The inner loop of buildDockerCompose: no core starts before the given service does. Only the cores' own
      depends-on maps are written to. */
  method Announce(compose: DockerComposeConfig, s: Stack, id: ServiceId, healthCheck: bool)
    requires compose.Valid() && ValidStack(s)
    modifies compose`Shapes, compose.CoreParts()
    ensures compose.Valid()
    ensures compose.Shapes == Announced(old(compose.Shapes), |s.members|, id, ConditionFor(healthCheck))
  {
    for i := 0 to |s.members|
      invariant compose.Valid()
      invariant compose.Shapes == Announced(old(compose.Shapes), i, id, ConditionFor(healthCheck))
    {
      var condition := Started;
      if healthCheck {
        condition := Healthy;
      }
      compose.AddEdge(Core(s.members[i].index), id, condition);
    }
  }

  method AddDefinition(compose: DockerComposeConfig, s: Stack, d: ServiceDefinition)
    requires compose.Valid() && ValidStack(s) && !d.id.Core? && PartsOf(d.service) !! compose.CoreParts()
    modifies compose, compose.CoreParts()
    ensures compose.Valid() && compose.Parts == old(compose.Parts) + PartsOf(d.service)
    ensures compose.CoreParts() == old(compose.CoreParts())
    ensures compose.Shapes == Announced(old(compose.Shapes)[d.id := old(ShapeOf(d.service))], |s.members|,
                                        d.id, ConditionFor(d.service.body.health))
    ensures compose.volumes == old(compose.volumes) + SetOf(d.volumes)
  {
    compose.Put(d.id, d.service, SetOf(d.volumes));
    assert compose.CoreParts() == old(compose.CoreParts());
    Announce(compose, s, d.id, d.service.body.health);
  }

  /** The outer loop of buildDockerCompose. */
  method AddDefinitions(compose: DockerComposeConfig, s: Stack, extra: seq<ServiceDefinition>, ghost plan: seq<Definition>)
    requires compose.Valid() && ValidStack(s) && Delivers(extra, plan)
    requires forall d :: d in extra ==> !d.id.Core? && PartsOf(d.service) !! compose.CoreParts()
    modifies compose, compose.CoreParts()
    ensures compose.Valid()
    ensures compose.Parts <= old(compose.Parts) + DefinitionParts(extra)
    ensures compose.Shapes == WithDefinitions(s, old(compose.Shapes), plan)
    ensures compose.volumes == old(compose.volumes) + PlanVolumes(plan)
  {
    for j := 0 to |extra|
      invariant compose.Valid() && compose.CoreParts() == old(compose.CoreParts())
      invariant compose.Parts <= old(compose.Parts) + DefinitionParts(extra)
      invariant Delivers(extra, plan)
      invariant compose.Shapes == WithDefinitions(s, old(compose.Shapes), plan[..j])
      invariant compose.volumes == old(compose.volumes) + PlanVolumes(plan[..j])
    {
      assert plan[..j + 1][..j] == plan[..j];
      assert View(extra[j]) == plan[j];
      AddDefinition(compose, s, extra[j]);
    }
    assert plan[..|extra|] == plan;
  }

  method AddProviderServices(compose: DockerComposeConfig, s: Stack)
    requires compose.Valid() && ValidStack(s)
    modifies compose, compose.CoreParts()
    ensures compose.Valid() && fresh(compose.Parts - old(compose.Parts))
    ensures compose.Shapes == WithDefinitions(s, old(compose.Shapes), ExtraPlan(s))
    ensures compose.volumes == old(compose.volumes) + PlanVolumes(ExtraPlan(s))
  {
    var extra := ExtraDefinitions(s);
    assert fresh(DefinitionParts(extra));
    NoCoreInPlan(s);
    AddFreshDefinitions(compose, s, extra, ExtraPlan(s));
  }

  /** Definitions made just now have no part in common with what the compose file holds. */
  method AddFreshDefinitions(compose: DockerComposeConfig, s: Stack, extra: seq<ServiceDefinition>, ghost plan: seq<Definition>)
    requires compose.Valid() && ValidStack(s) && Delivers(extra, plan)
    requires forall d :: d in plan ==> !d.id.Core?
    requires DefinitionParts(extra) !! compose.Parts
    modifies compose, compose.CoreParts()
    ensures compose.Valid() && compose.Parts <= old(compose.Parts) + DefinitionParts(extra)
    ensures compose.Shapes == WithDefinitions(s, old(compose.Shapes), plan)
    ensures compose.volumes == old(compose.volumes) + PlanVolumes(plan)
  {
    assert compose.CoreParts() <= compose.Parts;
    forall d | d in extra
      ensures !d.id.Core? && PartsOf(d.service) !! compose.CoreParts()
    {
      var j :| 0 <= j < |extra| && extra[j] == d;
      assert View(extra[j]) == plan[j] && plan[j] in plan;
      assert PartsOf(d.service) <= DefinitionParts(extra);
    }
    AddDefinitions(compose, s, extra, plan);
  }

  method BuildDockerCompose(s: Stack) returns (compose: DockerComposeConfig)
    requires ValidStack(s) && ManifestComplete(s)
    ensures fresh(compose) && compose.Valid() && fresh(compose.Parts)
    ensures compose.Shapes == Assembled(s) && compose.volumes == AssembledVolumes(s)
  {
    compose := CreateDockerCompose(s);
    AddProviderServices(compose, s);
  }

  // ---------------------------------------------------------------- disableFireflyCoreContainers

  /** The compose file that is written before first-time setup: every core exits at once. A core that is looked up but
      missing would stop the program. */
  method DisableFireflyCoreContainers(s: Stack) returns (compose: DockerComposeConfig)
    requires ValidStack(s) && ManifestComplete(s)
    ensures fresh(compose) && compose.Valid() && fresh(compose.Parts)
    ensures compose.Shapes == Disabled(s, Assembled(s), |s.members|) && compose.volumes == AssembledVolumes(s)
  {
    compose := BuildDockerCompose(s);
    CoresAssembled(s);
    DisableCores(compose, s);
  }

  method DisableCores(compose: DockerComposeConfig, s: Stack)
    requires compose.Valid() && ValidStack(s)
    requires forall i :: 0 <= i < |s.members| && !s.members[i].external ==> Core(i) in compose.Shapes
    modifies compose`Shapes, compose.CoreParts()
    ensures compose.Valid() && compose.Shapes == Disabled(s, old(compose.Shapes), |s.members|)
  {
    for i := 0 to |s.members|
      invariant compose.Valid() && compose.Shapes.Keys == old(compose.Shapes).Keys
      invariant compose.Shapes == Disabled(s, old(compose.Shapes), i)
    {
      DisableCore(compose, s, i);
    }
  }

  method DisableCore(compose: DockerComposeConfig, s: Stack, i: nat)
    requires compose.Valid() && ValidStack(s) && i < |s.members|
    requires !s.members[i].external ==> Core(i) in compose.Shapes
    modifies compose`Shapes, compose.CoreParts()
    ensures compose.Valid() && compose.Shapes == WithCoreDisabled(old(compose.Shapes), s, i)
  {
    if !s.members[i].external {
      compose.SetEntryPoint(Core(s.members[i].index), ExitAtOnce());
    }
  }

  lemma NoCoreInPlan(s: Stack)
    requires ValidStack(s)
    ensures forall d :: d in ExtraPlan(s) ==> !d.id.Core?
  {
    ExtraPlanMatches(s);
    var plan, ids := ExtraPlan(s), ExtraIds(s);
    forall d | d in plan
      ensures !d.id.Core?
    {
      var j :| 0 <= j < |plan| && plan[j] == d;
      IdOfService(s, ids[j]);
    }
  }
}
