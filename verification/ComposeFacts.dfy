/** The lists in which the providers deliver their services agree with the description of the compose file service by
    service. */
module ComposeFacts {
  import opened Wrappers
  import opened Names
  import opened Types
  import opened ComposeSpec

  // ---------------------------------------------------------------- the provider services

  lemma NodeIdsExact(s: Stack, id: ServiceId)
    ensures id in NodeIds(s) <==> IsExtra(s, id) && !id.Connector? && !id.Tokens?
  {
    match s.provider
    case QuorumNode(_, tessera) =>
      if id.Quorum? && id.i < |s.members| { assert QuorumIds(|s.members|)[id.i] == id; }
      if tessera && id.Tessera? && id.i < |s.members| { assert TesseraIds(|s.members|)[id.i] == id; }
    case _ =>
  }

  lemma {:induction false} TokensIdsExact(s: Stack, k: nat, id: ServiceId)
    ensures id in TokensIds(s, k) <==> id.Tokens? && id.i < |s.members| && id.k < k
  {
    if k > 0 {
      TokensIdsExact(s, k - 1, id);
      if id.Tokens? && id.i < |s.members| && id.k == k - 1 {
        assert MemberTokens(s, k - 1)[id.i] == id;
      }
    }
  }

  lemma ExtraIdsExact(s: Stack, id: ServiceId)
    ensures id in ExtraIds(s) <==> IsExtra(s, id)
  {
    NodeIdsExact(s, id);
    TokensIdsExact(s, |s.tokenProviders|, id);
    if id.Connector? && IsExtra(s, id) { assert ConnectorIds(s)[id.i] == id; }
  }

  predicate Distinct(ids: seq<ServiceId>) {
    forall j, k :: 0 <= j < k < |ids| ==> ids[j] != ids[k]
  }

  lemma DistinctBoth(a: seq<ServiceId>, b: seq<ServiceId>)
    requires Distinct(a) && Distinct(b)
    requires forall id :: id in a ==> id !in b
    ensures Distinct(a + b)
  {
    forall j, k | 0 <= j < k < |a + b|
      ensures (a + b)[j] != (a + b)[k]
    {
      if j < |a| <= k {
        assert a[j] in a && b[k - |a|] in b;
      }
    }
  }

  lemma {:induction false} TokensIdsDistinct(s: Stack, k: nat)
    ensures Distinct(TokensIds(s, k))
  {
    if k > 0 {
      TokensIdsDistinct(s, k - 1);
      var before, added := TokensIds(s, k - 1), MemberTokens(s, k - 1);
      forall id | id in before
        ensures id !in added
      {
        TokensIdsExact(s, k - 1, id);
      }
      DistinctBoth(before, added);
    }
  }

  /** The definitions never name a service twice. */
  lemma ExtraIdsDistinct(s: Stack)
    ensures Distinct(ExtraIds(s))
  {
    var nodes, connectors, tokens := NodeIds(s), ConnectorIds(s), TokensIds(s, |s.tokenProviders|);
    forall id | id in nodes
      ensures id !in connectors
    {
      NodeIdsExact(s, id);
    }
    forall id | id in nodes + connectors
      ensures id !in tokens
    {
      NodeIdsExact(s, id);
      TokensIdsExact(s, |s.tokenProviders|, id);
    }
    if s.provider.QuorumNode? {
      DistinctBoth(QuorumIds(|s.members|), if s.provider.tessera then TesseraIds(|s.members|) else []);
    }
    DistinctBoth(nodes, connectors);
    TokensIdsDistinct(s, |s.tokenProviders|);
    DistinctBoth(nodes + connectors, tokens);
  }

  // ---------------------------------------------------------------- the definitions behind them

  ghost predicate Matches(s: Stack, plan: seq<Definition>, ids: seq<ServiceId>)
    requires ValidStack(s)
  {
    && |plan| == |ids|
    && forall j :: 0 <= j < |ids| ==> IsExtra(s, ids[j]) && plan[j] == ServiceOf(s, ids[j])
  }

  lemma MatchesBoth(s: Stack, p: seq<Definition>, a: seq<ServiceId>, q: seq<Definition>, b: seq<ServiceId>)
    requires ValidStack(s) && Matches(s, p, a) && Matches(s, q, b)
    ensures Matches(s, p + q, a + b)
  {
    forall j | 0 <= j < |a + b|
      ensures IsExtra(s, (a + b)[j]) && (p + q)[j] == ServiceOf(s, (a + b)[j])
    {
      if j < |a| {
        assert (a + b)[j] == a[j] && (p + q)[j] == p[j];
      } else {
        assert (a + b)[j] == b[j - |a|] && (p + q)[j] == q[j - |a|];
      }
    }
  }

  lemma NodePlanMatches(s: Stack)
    requires ValidStack(s)
    ensures Matches(s, NodePlan(s), NodeIds(s))
  {
    if s.provider.QuorumNode? {
      var n := |s.members|;
      assert Matches(s, QuorumPlan(s, n, s.provider.tessera), QuorumIds(n));
      if s.provider.tessera {
        assert Matches(s, TesseraPlan(s, n), TesseraIds(n));
        MatchesBoth(s, QuorumPlan(s, n, true), QuorumIds(n), TesseraPlan(s, n), TesseraIds(n));
      }
    }
  }

  lemma {:induction false} AllTokensPlanMatches(s: Stack, k: nat)
    requires ValidStack(s) && k <= |s.tokenProviders|
    ensures Matches(s, AllTokensPlan(s, k), TokensIds(s, k))
  {
    if k > 0 {
      AllTokensPlanMatches(s, k - 1);
      assert Matches(s, TokensPlan(s, k - 1), MemberTokens(s, k - 1));
      MatchesBoth(s, AllTokensPlan(s, k - 1), TokensIds(s, k - 1), TokensPlan(s, k - 1), MemberTokens(s, k - 1));
    }
  }

  lemma ExtraPlanMatches(s: Stack)
    requires ValidStack(s)
    ensures Matches(s, ExtraPlan(s), ExtraIds(s))
  {
    NodePlanMatches(s);
    assert Matches(s, ConnectorPlan(s), ConnectorIds(s));
    MatchesBoth(s, NodePlan(s), NodeIds(s), ConnectorPlan(s), ConnectorIds(s));
    AllTokensPlanMatches(s, |s.tokenProviders|);
    MatchesBoth(s, NodePlan(s) + ConnectorPlan(s), ProviderIds(s),
                AllTokensPlan(s, |s.tokenProviders|), TokensIds(s, |s.tokenProviders|));
  }

  /** A service has a health check exactly if its kind defines one. */
  lemma HealthOfKind(s: Stack, id: ServiceId)
    requires ValidStack(s) && Present(s, id)
    ensures ServiceOf(s, id).body.health <==> HasHealthCheck(id)
  {
  }

  lemma IdOfService(s: Stack, id: ServiceId)
    requires ValidStack(s) && Present(s, id)
    ensures ServiceOf(s, id).id == id
    ensures ServiceOf(s, id).body.container == Container(s.name, id)
  {
  }

  // ---------------------------------------------------------------- volumes

  /** The service whose definition declares a volume. */
  function DeclaredBy(s: Stack, v: VolumeId): ServiceId {
    match v
    case CoreData(i) => Core(i)
    case PostgresData(i) => Postgres(i)
    case IpfsStaging(i) => Ipfs(i)
    case IpfsData(i) => Ipfs(i)
    case DataExchangeData(i) => DataExchange(i)
    case PrometheusData => Prometheus
    case PrometheusConfig => Prometheus
    case GethData => Geth
    case BesuData => Besu
    case EthsignerData => Ethsigner
    case EthsignerConfig => Ethsigner
    case TezossignerData => Tezossigner
    case TezossignerConfig => Tezossigner
    case QuorumData(i) => Quorum(i)
    case TesseraData(i) => Tessera(i)
    case ConnectorConfig(kind, i) => Connector(kind, i)
    case ConnectorData(kind, i) => Connector(kind, i)
    case FabconnectReceipts(i) => Connector(Fabconnect, i)
    case FabconnectEvents(i) => Connector(Fabconnect, i)
    case FireflyFabric => Connector(Fabconnect, 0)
    case FabricCAData => FabricCA
    case FabricOrdererData => FabricOrderer
    case FabricPeerData => FabricPeer
  }

  lemma VolumeOfServiceDeclared(s: Stack, id: ServiceId, v: VolumeId)
    requires ValidStack(s) && Present(s, id) && v in ServiceOf(s, id).volumes
    ensures Declared(s, v)
  {
  }

  lemma DeclaringService(s: Stack, v: VolumeId)
    requires ValidStack(s) && Declared(s, v)
    ensures Present(s, DeclaredBy(s, v)) && v in ServiceOf(s, DeclaredBy(s, v)).volumes
  {
  }

  /** The declared volumes are exactly those some service brings along. */
  lemma DeclaredExactly(s: Stack, v: VolumeId)
    requires ValidStack(s)
    ensures Declared(s, v) <==> exists id :: Present(s, id) && v in ServiceOf(s, id).volumes
  {
    if Declared(s, v) { DeclaringService(s, v); }
    forall id | Present(s, id) && v in ServiceOf(s, id).volumes {
      VolumeOfServiceDeclared(s, id, v);
    }
  }

  // ---------------------------------------------------------------- deployed contracts

  /** The address of the last contract of that name, or the empty string if there is none. */
  ghost predicate IsAddressOf(deployed: seq<DeployedContract>, name: string, address: string) {
    || (address == "" && forall k :: 0 <= k < |deployed| ==> deployed[k].name != name)
    || exists k :: LastOfName(deployed, name, k) && address == deployed[k].address
  }

  predicate LastOfName(deployed: seq<DeployedContract>, name: string, k: int) {
    0 <= k < |deployed| && deployed[k].name == name && forall j :: k < j < |deployed| ==> deployed[j].name != name
  }

  lemma {:induction false} DeployedAddressExact(deployed: seq<DeployedContract>, name: string)
    ensures IsAddressOf(deployed, name, DeployedAddress(deployed, name))
  {
    if deployed != [] {
      var n := |deployed| - 1;
      var before := deployed[..n];
      DeployedAddressExact(before, name);
      if deployed[n].name == name {
        assert LastOfName(deployed, name, n);
      } else if k :| LastOfName(before, name, k) && DeployedAddress(before, name) == before[k].address {
        assert LastOfName(deployed, name, k);
      }
    }
  }
}
