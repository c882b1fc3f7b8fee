/** The compose file of a stack as a dependency graph, for every provider, connector, token list and member count. */
module ComposeGraph {
  import opened Wrappers
  import opened Names
  import opened Types
  import opened ComposeSpec
  import opened ComposeFacts
  import opened ComposeExact

  // ---------------------------------------------------------------- the edges

  /** Who waits for whom, stated without looking at how the depends-on maps are filled. */
  predicate Edge(s: Stack, a: ServiceId, b: ServiceId) {
    match a
    case Core(i) => b == DataExchange(i) || b == Ipfs(i) || (b == Postgres(i) && s.database == PostgresDB) || IsExtra(s, b)
    case Quorum(i) => b == Tessera(i) && s.provider.QuorumNode? && s.provider.tessera
    case Tokens(i, _) => b == Connector(ConnectorOf(s.provider), i)
    case Connector(_, _) =>
      (match s.provider
       case GethNode(_) => b == Geth
       case QuorumNode(_, _) => b.Quorum? && b.i < |s.members|
       case Tezos => b == Tezossigner
       case Fabric(remote) => !remote && (b == FabricCA || b == FabricPeer || b == FabricOrderer)
       case _ => b == Ethsigner)
    case _ => false
  }

  /** The edges of the file are these and no others. In particular no provider service ever waits for a core, and no
      connector gains an edge although all of them share one depends-on map. */
  lemma EdgesExactly(s: Stack, a: ServiceId, b: ServiceId)
    requires ValidStack(s) && Present(s, a)
    ensures b in ShapeFor(s, a).waits <==> Edge(s, a, b)
  {
    if a.Core? { CoreEdgesExactly(s, a.i, b); }
  }

  lemma CoreEdgesExactly(s: Stack, i: nat, b: ServiceId)
    requires ValidStack(s) && Present(s, Core(i))
    ensures b in ShapeFor(s, Core(i)).waits <==> Edge(s, Core(i), b)
  {
    ExtraIdsExact(s, b);
  }

  /** A healthy-edge always leads to a service with a health check; a core never settles for less where there is one. */
  lemma EdgeConditions(s: Stack, a: ServiceId, b: ServiceId)
    requires ValidStack(s) && Present(s, a) && b in ShapeFor(s, a).waits
    ensures ShapeFor(s, a).waits[b] == Healthy ==> HasHealthCheck(b)
    ensures a.Core? && HasHealthCheck(b) ==> ShapeFor(s, a).waits[b] == Healthy
  {
    EdgesExactly(s, a, b);
    if a.Core? {
      ExtraIdsExact(s, b);
      CoreCondition(s, a.i, b);
    }
  }

  lemma CoreCondition(s: Stack, i: nat, b: ServiceId)
    requires ValidStack(s) && Present(s, Core(i)) && b in ShapeFor(s, Core(i)).waits
    ensures ShapeFor(s, Core(i)).waits[b] == ConditionFor(HasHealthCheck(b))
  {
    CoreWaits(s, i);
    OwnOrExtraCondition(s, i, b);
  }

  lemma CoreWaits(s: Stack, i: nat)
    requires ValidStack(s) && Present(s, Core(i))
    ensures ShapeFor(s, Core(i)).waits == MemberWaits(s, i) + ExtraWaits(ExtraIds(s))
  {
  }

  lemma OwnOrExtraCondition(s: Stack, i: nat, b: ServiceId)
    requires b in MemberWaits(s, i) + ExtraWaits(ExtraIds(s))
    ensures (MemberWaits(s, i) + ExtraWaits(ExtraIds(s)))[b] == ConditionFor(HasHealthCheck(b))
  {
  }

  /** Exactly which edges wait for health: a core's to every service that has a check, a quorum node's to its tessera,
      and a connector's to the signer of besu, a remote node or tezos. */
  lemma ConditionsExactly(s: Stack, a: ServiceId, b: ServiceId)
    requires ValidStack(s) && Present(s, a) && b in ShapeFor(s, a).waits
    ensures ShapeFor(s, a).waits[b] == Healthy <==>
              || a.Quorum? || (a.Connector? && (b == Ethsigner || b == Tezossigner))
              || (a.Core? && (b.Postgres? || b.Ipfs? || b.Ethsigner? || b.Tezossigner? || b.Tessera? || b.Tokens?
                              || (b.Connector? && b.kind == Fabconnect)))
  {
    EdgesExactly(s, a, b);
    if a.Core? {
      ExtraIdsExact(s, b);
      CoreCondition(s, a.i, b);
    } else if a.Connector? {
      ConnectorCondition(s, b);
    }
  }

  lemma ConnectorCondition(s: Stack, b: ServiceId)
    requires b in ConnectorWaits(s)
    ensures ConnectorWaits(s)[b] == Healthy <==> b == Ethsigner || b == Tezossigner
  {
  }

  lemma EdgeTargetPresent(s: Stack, a: ServiceId, b: ServiceId)
    requires ValidStack(s) && Present(s, a) && Edge(s, a, b)
    ensures Present(s, b)
  {
  }

  // ---------------------------------------------------------------- closed, healthy, acyclic

  predicate Closed(compose: map<ServiceId, Shape>) {
    forall a, b :: a in compose && b in compose[a].waits ==> b in compose
  }

  predicate HealthyEdgesMeet(compose: map<ServiceId, Shape>)
    requires Closed(compose)
  {
    forall a, b :: a in compose && b in compose[a].waits && compose[a].waits[b] == Healthy ==> compose[b].body.health
  }

  /** Services each of which waits for the next. */
  predicate Chain(compose: map<ServiceId, Shape>, p: seq<ServiceId>) {
    && p != [] && (forall k :: 0 <= k < |p| ==> p[k] in compose)
    && forall k :: 0 <= k < |p| - 1 ==> p[k + 1] in compose[p[k]].waits
  }

  /** How long a chain can still become from here. */
  function Rank(id: ServiceId): nat {
    if id.Core? then 4 else if id.Tokens? then 3 else if id.Connector? then 2 else if id.Quorum? then 1 else 0
  }

  lemma EdgeLowersRank(s: Stack, a: ServiceId, b: ServiceId)
    requires ValidStack(s) && Present(s, a) && Edge(s, a, b)
    ensures Rank(b) < Rank(a)
  {
  }

  ghost predicate RankedBy(compose: map<ServiceId, Shape>, rank: ServiceId -> nat) {
    forall a, b :: a in compose && b in compose[a].waits ==> rank(b) < rank(a)
  }

  lemma {:induction false} ChainDescends(compose: map<ServiceId, Shape>, p: seq<ServiceId>, rank: ServiceId -> nat)
    requires Chain(compose, p) && RankedBy(compose, rank)
    ensures rank(p[|p| - 1]) + |p| - 1 <= rank(p[0])
  {
    if |p| > 1 {
      var init := p[..|p| - 1];
      assert Chain(compose, init);
      ChainDescends(compose, init, rank);
      assert p[|p| - 2 + 1] in compose[p[|p| - 2]].waits;
    }
  }

  /** What docker compose requires of the file: every service waited for is in it, a service waited for to become healthy
      can tell, and no service waits for itself, directly or through others. No chain has more than five services. */
  ghost predicate WellFormed(compose: map<ServiceId, Shape>) {
    && Closed(compose) && HealthyEdgesMeet(compose)
    && (forall p :: Chain(compose, p) && |p| > 1 ==> p[0] != p[|p| - 1])
    && (forall p :: Chain(compose, p) ==> |p| <= 5)
  }

  lemma WellFormedIfRanked(compose: map<ServiceId, Shape>)
    requires Closed(compose) && HealthyEdgesMeet(compose) && RankedBy(compose, Rank)
    ensures WellFormed(compose)
  {
    forall p | Chain(compose, p)
      ensures |p| > 1 ==> p[0] != p[|p| - 1]
      ensures |p| <= 5
    {
      ChainDescends(compose, p, Rank);
    }
  }

  lemma EdgeOfCompose(s: Stack, a: ServiceId, b: ServiceId)
    requires ValidStack(s) && a in Assembled(s) && b in Assembled(s)[a].waits
    ensures b in Assembled(s) && Rank(b) < Rank(a)
    ensures Assembled(s)[a].waits[b] == Healthy ==> Assembled(s)[b].body.health
  {
    AssembledExact(s, a);
    EdgesExactly(s, a, b);
    EdgeTargetPresent(s, a, b);
    EdgeLowersRank(s, a, b);
    AssembledExact(s, b);
    EdgeConditions(s, a, b);
    HealthOfKind(s, b);
  }

  lemma ComposeRanked(s: Stack)
    requires ValidStack(s)
    ensures Closed(Assembled(s)) && HealthyEdgesMeet(Assembled(s)) && RankedBy(Assembled(s), Rank)
  {
    var compose := Assembled(s);
    forall a, b | a in compose && b in compose[a].waits
      ensures b in compose && Rank(b) < Rank(a)
      ensures compose[a].waits[b] == Healthy ==> compose[b].body.health
    {
      EdgeOfCompose(s, a, b);
    }
  }

  lemma ComposeWellFormed(s: Stack)
    requires ValidStack(s)
    ensures WellFormed(Assembled(s))
  {
    ComposeRanked(s);
    WellFormedIfRanked(Assembled(s));
  }

  /** So is the file that first-time setup runs on. */
  lemma DisabledComposeWellFormed(s: Stack)
    requires ValidStack(s)
    ensures WellFormed(Disabled(s, Assembled(s), |s.members|))
  {
    ComposeRanked(s);
    DisabledExact(s, Assembled(s), |s.members|);
    SameGraph(Assembled(s), Disabled(s, Assembled(s), |s.members|));
    WellFormedIfRanked(Disabled(s, Assembled(s), |s.members|));
  }

  lemma SameGraph(before: map<ServiceId, Shape>, after: map<ServiceId, Shape>)
    requires Closed(before) && HealthyEdgesMeet(before) && RankedBy(before, Rank)
    requires after.Keys == before.Keys
    requires forall id :: id in after ==> after[id].waits == before[id].waits && after[id].body == before[id].body
    ensures Closed(after) && HealthyEdgesMeet(after) && RankedBy(after, Rank)
  {
  }

  // ---------------------------------------------------------------- no service overwrites another

  function IdsOfMember(s: Stack, i: nat): seq<ServiceId>
    requires i < |s.members|
  {
    (if s.members[i].external then [] else [Core(i)]) + (if s.database == PostgresDB then [Postgres(i)] else [])
    + [Ipfs(i), DataExchange(i)] + (if s.sandboxEnabled then [Sandbox(i)] else [])
  }

  function MemberIds(s: Stack, i: nat): seq<ServiceId>
    requires i <= |s.members|
  {
    if i == 0 then [] else MemberIds(s, i - 1) + IdsOfMember(s, i - 1)
  }

  /** Everything the parts define, part after part, were nothing overwritten. */
  function AllIds(s: Stack): seq<ServiceId> {
    MemberIds(s, |s.members|) + (if s.prometheusEnabled then [Prometheus] else []) + ExtraIds(s)
  }

  lemma IdsOfMemberExact(s: Stack, i: nat, id: ServiceId)
    requires i < |s.members|
    ensures id in IdsOfMember(s, i) <==> Adds(s, i, id)
  {
  }

  lemma {:induction false} MemberIdsExact(s: Stack, i: nat, id: ServiceId)
    requires i <= |s.members|
    ensures id in MemberIds(s, i) <==> Below(s, i, id)
  {
    if i > 0 {
      MemberIdsExact(s, i - 1, id);
      IdsOfMemberExact(s, i - 1, id);
    }
  }

  lemma {:induction false} MemberIdsDistinct(s: Stack, i: nat)
    requires i <= |s.members|
    ensures Distinct(MemberIds(s, i))
  {
    if i > 0 {
      MemberIdsDistinct(s, i - 1);
      var before, added := MemberIds(s, i - 1), IdsOfMember(s, i - 1);
      forall id | id in before
        ensures id !in added
      {
        MemberIdsExact(s, i - 1, id);
        IdsOfMemberExact(s, i - 1, id);
      }
      DistinctBoth(before, added);
    }
  }

  lemma AllIdsExact(s: Stack, id: ServiceId)
    ensures id in AllIds(s) <==> Present(s, id)
  {
    MemberIdsExact(s, |s.members|, id);
    ExtraIdsExact(s, id);
  }

  lemma AllIdsDistinct(s: Stack)
    ensures Distinct(AllIds(s))
  {
    var members, prometheus := MemberIds(s, |s.members|), if s.prometheusEnabled then [Prometheus] else [];
    MemberIdsDistinct(s, |s.members|);
    MemberIdsExact(s, |s.members|, Prometheus);
    DistinctBoth(members, prometheus);
    forall id | id in members + prometheus
      ensures id !in ExtraIds(s)
    {
      MemberIdsExact(s, |s.members|, id);
      ExtraIdsExact(s, id);
    }
    ExtraIdsDistinct(s);
    DistinctBoth(members + prometheus, ExtraIds(s));
  }

  lemma {:induction false} DistinctCount(ids: seq<ServiceId>)
    requires Distinct(ids)
    ensures |set id | id in ids| == |ids|
  {
    if ids != [] {
      var k := |ids| - 1;
      DistinctCount(ids[..k]);
      assert (set id | id in ids) == (set id | id in ids[..k]) + {ids[k]};
    } else {
      assert (set id | id in ids) == {};
    }
  }

  /** The members that run a core of their own. */
  function InternalMembers(s: Stack, i: nat): nat
    requires i <= |s.members|
  {
    if i == 0 then 0 else InternalMembers(s, i - 1) + if s.members[i - 1].external then 0 else 1
  }

  function PerMember(s: Stack): nat {
    2 + (if s.database == PostgresDB then 1 else 0) + (if s.sandboxEnabled then 1 else 0)
  }

  function NodeCount(s: Stack): nat {
    match s.provider
    case GethNode(_) => 1
    case BesuNode(_) => 2
    case RemoteRPC(_) => 1
    case Tezos => 1
    case QuorumNode(_, tessera) => if tessera then 2 * |s.members| else |s.members|
    case Fabric(remote) => if remote then 0 else 3
  }

  /** The number of services by kind. */
  function ServiceCount(s: Stack): nat {
    var n := |s.members|;
    InternalMembers(s, n) + n * PerMember(s) + (if s.prometheusEnabled then 1 else 0)
    + NodeCount(s) + n + |s.tokenProviders| * n
  }

  lemma {:induction false} MemberIdsCount(s: Stack, i: nat)
    requires i <= |s.members|
    ensures |MemberIds(s, i)| == InternalMembers(s, i) + i * PerMember(s)
  {
    if i > 0 {
      MemberIdsCount(s, i - 1);
      var per := PerMember(s);
      assert i * per == (i - 1) * per + per;
    }
  }

  lemma {:induction false} TokensIdsCount(s: Stack, k: nat)
    ensures |TokensIds(s, k)| == k * |s.members|
  {
    if k > 0 { TokensIdsCount(s, k - 1); }
  }

  lemma AllIdsCount(s: Stack)
    ensures |AllIds(s)| == ServiceCount(s)
  {
    MemberIdsCount(s, |s.members|);
    TokensIdsCount(s, |s.tokenProviders|);
  }

  lemma ComposeSize(s: Stack)
    requires ValidStack(s)
    ensures |Assembled(s)| == ServiceCount(s)
  {
    var ids, compose := AllIds(s), Assembled(s);
    AllIdsDistinct(s);
    DistinctCount(ids);
    AllIdsCount(s);
    forall id
      ensures id in ids <==> id in compose.Keys
    {
      AllIdsExact(s, id);
      AssembledExact(s, id);
    }
    assert compose.Keys == set id | id in ids;
    assert |compose| == |compose.Keys|;
  }

  lemma {:induction false} InjectiveImage(ids: set<ServiceId>, name: ServiceId -> string)
    requires forall a, b :: a in ids && b in ids && name(a) == name(b) ==> a == b
    ensures |set id | id in ids :: name(id)| == |ids|
  {
    var names := set id | id in ids :: name(id);
    if ids == {} {
      assert names == {};
    } else {
      var a :| a in ids;
      var rest := ids - {a};
      InjectiveImage(rest, name);
      var others := set id | id in rest :: name(id);
      assert names == others + {name(a)};
    }
  }

  /** Written out, the names of the services are still all different: the file has as many entries under string keys as
      the parts define, and none of the definitions is lost. */
  lemma NoServiceOverwritten(s: Stack)
    requires ValidStack(s)
    ensures |set id | id in Assembled(s).Keys :: ServiceName(id)| == ServiceCount(s)
  {
    ComposeSize(s);
    InjectiveNames(Assembled(s).Keys);
    assert |Assembled(s)| == |Assembled(s).Keys|;
  }

  lemma InjectiveNames(ids: set<ServiceId>)
    ensures |set id | id in ids :: ServiceName(id)| == |ids|
  {
    forall a, b | a in ids && b in ids && ServiceName(a) == ServiceName(b)
      ensures a == b
    {
      ServiceNameInjective(a, b);
    }
    var name := (id: ServiceId) => ServiceName(id);
    InjectiveImage(ids, name);
    assert (set id | id in ids :: name(id)) == set id | id in ids :: ServiceName(id);
  }

  /** Nor do two services ask for the same container. */
  lemma NoContainerTwice(s: Stack, a: ServiceId, b: ServiceId)
    requires ValidStack(s) && a in Assembled(s) && b in Assembled(s)
    requires ContainerOf(Assembled(s), a) == ContainerOf(Assembled(s), b)
    ensures a == b
  {
    ContainerNamed(s, a);
    ContainerNamed(s, b);
    ContainerNameInjective(s.name, a, b);
  }

  function ContainerOf(compose: map<ServiceId, Shape>, id: ServiceId): string
    requires id in compose
  {
    ContainerName(compose[id].body.container.stack, compose[id].body.container.id)
  }

  lemma ContainerNamed(s: Stack, id: ServiceId)
    requires ValidStack(s) && id in Assembled(s)
    ensures ContainerOf(Assembled(s), id) == ContainerName(s.name, id)
  {
    AssembledExact(s, id);
    IdOfService(s, id);
  }

  // ---------------------------------------------------------------- volumes

  /** A service may mount a volume that only another service declares: fabric's own services mount firefly_fabric, which
      fabconnect declares. So nothing is missing unless there is no member to bring fabconnect. */
  lemma MountsDeclaredExactly(s: Stack)
    requires ValidStack(s)
    ensures (forall id, v :: Present(s, id) && v in ServiceOf(s, id).body.mounts ==> Declared(s, v))
            <==> !(s.provider == Fabric(false) && s.members == [])
  {
    if s.provider == Fabric(false) && s.members == [] {
      assert Present(s, FabricCA) && FireflyFabric in ServiceOf(s, FabricCA).body.mounts;
      assert !Declared(s, FireflyFabric);
    } else {
      forall id, v | Present(s, id) && v in ServiceOf(s, id).body.mounts
        ensures Declared(s, v)
      {
        MountDeclared(s, id, v);
      }
    }
  }

  lemma MountDeclared(s: Stack, id: ServiceId, v: VolumeId)
    requires ValidStack(s) && Present(s, id) && v in ServiceOf(s, id).body.mounts
    requires s.provider == Fabric(false) ==> s.members != []
    ensures Declared(s, v)
  {
    if id.FabricCA? || id.FabricOrderer? || id.FabricPeer? {
      assert v == FireflyFabric || v in ServiceOf(s, id).volumes;
    } else {
      VolumeOfServiceDeclared(s, id, v);
    }
  }

  /** The other way round, fabric's fabric_ca volume is the only one that is declared and never mounted. */
  lemma DeclaredMountedExactly(s: Stack, v: VolumeId)
    requires ValidStack(s) && Declared(s, v)
    ensures (exists id :: Present(s, id) && v in ServiceOf(s, id).body.mounts) <==> v != FabricCAData
  {
    if v == FabricCAData {
      forall id | Present(s, id)
        ensures v !in ServiceOf(s, id).body.mounts
      {
        CAVolumeNotMounted(s, id);
      }
    } else {
      DeclaringService(s, v);
      MountedByDeclaring(s, v);
    }
  }

  lemma CAVolumeNotMounted(s: Stack, id: ServiceId)
    requires ValidStack(s) && Present(s, id)
    ensures FabricCAData !in ServiceOf(s, id).body.mounts
  {
  }

  lemma MountedByDeclaring(s: Stack, v: VolumeId)
    requires ValidStack(s) && Declared(s, v) && v != FabricCAData && Present(s, DeclaredBy(s, v))
    ensures v in ServiceOf(s, DeclaredBy(s, v)).body.mounts
  {
    if v.FabricOrdererData? || v.FabricPeerData? {
      FabricDataMounted(s, v);
    } else {
      DeclaringService(s, v);
      PlainUnlessFabric(s, DeclaredBy(s, v));
    }
  }

  lemma FabricDataMounted(s: Stack, v: VolumeId)
    requires ValidStack(s) && s.provider == Fabric(false) && (v.FabricOrdererData? || v.FabricPeerData?)
    ensures v in ServiceOf(s, DeclaredBy(s, v)).body.mounts
  {
    var id := DeclaredBy(s, v);
    assert ServiceOf(s, id).body.mounts == [FireflyFabric, v] by { FabricMounts(s, id); }
    assert [FireflyFabric, v][1] == v;
  }

  lemma FabricMounts(s: Stack, id: ServiceId)
    requires ValidStack(s) && s.provider == Fabric(false) && (id.FabricOrderer? || id.FabricPeer?)
    ensures ServiceOf(s, id).body.mounts == [FireflyFabric, if id.FabricOrderer? then FabricOrdererData else FabricPeerData]
  {
  }

  lemma PlainUnlessFabric(s: Stack, id: ServiceId)
    requires ValidStack(s) && Present(s, id) && !id.FabricCA? && !id.FabricOrderer? && !id.FabricPeer?
    ensures ServiceOf(s, id).volumes == ServiceOf(s, id).body.mounts
  {
  }

  // ---------------------------------------------------------------- the user's environment

  /** The token service whose factory address is filled in after the user's variables were merged. */
  predicate SetsFactoryLast(s: Stack, id: ServiceId) {
    && id.Tokens? && id.k < |s.tokenProviders| && s.tokenProviders[id.k] == ERC20ERC721
    && !TokenFactoriesDisabled(s.provider) && DeployedAddress(s.deployed, FactoryName(id.k)) != ""
  }

  /** Every service sees every variable of the user, with the user's value, apart from that one. */
  lemma UserVariablesWin(s: Stack, id: ServiceId, v: Variable)
    requires ValidStack(s) && Present(s, id) && v in s.environment
    ensures v in ServiceOf(s, id).body.environment
    ensures ServiceOf(s, id).body.environment[v] == s.environment[v]
            <==> !(SetsFactoryLast(s, id) && v == FACTORY_CONTRACT_ADDRESS
                   && s.environment[v] != Text(DeployedAddress(s.deployed, FactoryName(id.k))))
  {
    if id.Tokens? {
      TokensEnvironmentOf(s, id.i, id.k, v);
    }
  }

  lemma TokensEnvironmentOf(s: Stack, i: nat, k: nat, v: Variable)
    requires k < |s.tokenProviders| && v in s.environment
    ensures v in TokensEnvironment(s, i, k)
    ensures TokensEnvironment(s, i, k)[v] == if SetsFactoryLast(s, Tokens(i, k)) && v == FACTORY_CONTRACT_ADDRESS
                                             then Text(DeployedAddress(s.deployed, FactoryName(k))) else s.environment[v]
  {
  }
}
