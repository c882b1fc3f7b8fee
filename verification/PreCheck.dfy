/** checkPortsAvailable, internal/stacks/stack_manager.go: the host ports that are tried before a first start, against the
    host ports that the compose file is going to publish. */
module PreCheck {
  import opened Wrappers
  import opened Names
  import opened Types
  import opened ComposeSpec
  import opened ComposeExact
  import opened HostPorts
  import Ports

  /** The outcome of dialing a port. */
  datatype Probe = Available | Unavailable | ProbeError(message: string)

  datatype PortError = PortTaken(port: int) | ProbeFailed(message: string)

  function MemberPorts(s: Stack, m: Organization): seq<int> {
    [m.connectorPort, m.databasePort, m.uiPort] + m.tokensPorts + [m.ptmPort]
    + (if m.external then [] else [m.spiPort, m.fireFlyPort, m.fireFlyMetricsPort])
    + [m.dataExchangePort, m.ipfsApiPort, m.ipfsGatewayPort]
    + if s.sandboxEnabled then [m.sandboxPort] else []
  }

  function FirstPorts(s: Stack, i: nat): seq<int>
    requires i <= |s.members|
  {
    if i == 0 then [s.blockchainPort] else FirstPorts(s, i - 1) + MemberPorts(s, s.members[i - 1])
  }

  function PortsToCheck(s: Stack): seq<int> {
    FirstPorts(s, |s.members|) + if s.prometheusEnabled then [s.prometheusPort] else []
  }

  /** The first half of checkPortsAvailable. */
  method CollectPorts(s: Stack) returns (ports: seq<int>)
    ensures ports == PortsToCheck(s)
  {
    ports := [s.blockchainPort];
    for i := 0 to |s.members|
      invariant ports == FirstPorts(s, i)
    {
      ports := AppendMemberPorts(s, s.members[i], ports);
    }
    if s.prometheusEnabled {
      ports := ports + [s.prometheusPort];
    }
  }

  method AppendMemberPorts(s: Stack, m: Organization, before: seq<int>) returns (ports: seq<int>)
    ensures ports == before + MemberPorts(s, m)
    ensures ports == before + [m.connectorPort, m.databasePort, m.uiPort] + m.tokensPorts + [m.ptmPort]
                     + (if m.external then [] else [m.spiPort, m.fireFlyPort, m.fireFlyMetricsPort])
                     + [m.dataExchangePort, m.ipfsApiPort, m.ipfsGatewayPort] + (if s.sandboxEnabled then [m.sandboxPort] else [])
  {
    var always, internalOnly, sandbox := [m.connectorPort, m.databasePort, m.uiPort] + m.tokensPorts + [m.ptmPort], [], [];
    if !m.external {
      internalOnly := [m.spiPort, m.fireFlyPort, m.fireFlyMetricsPort];
    }
    if s.sandboxEnabled {
      sandbox := [m.sandboxPort];
    }
    ports := before + (always + internalOnly + [m.dataExchangePort, m.ipfsApiPort, m.ipfsGatewayPort] + sandbox);
  }

  /** The blockchain port is tried first, then the members' ports member by member, and that of Prometheus last. */
  lemma ListInOrder(s: Stack, i: nat)
    requires i < |s.members|
    ensures FirstPorts(s, 0) == [s.blockchainPort]
    ensures FirstPorts(s, i) + MemberPorts(s, s.members[i]) <= PortsToCheck(s)
    ensures s.prometheusEnabled ==> PortsToCheck(s)[|PortsToCheck(s)| - 1] == s.prometheusPort
  {
    PortsGrow(s, i + 1, |s.members|);
  }

  lemma {:induction false} PortsGrow(s: Stack, i: nat, n: nat)
    requires i <= n <= |s.members|
    ensures FirstPorts(s, i) <= FirstPorts(s, n)
  {
    if i < n { PortsGrow(s, i, n - 1); }
  }

  function Verdict(port: int, outcome: Probe): Result<(), PortError> {
    match outcome
    case Available => Success(())
    case Unavailable => Failure(PortTaken(port))
    case ProbeError(message) => Failure(ProbeFailed(message))
  }

  /** The second half. The check passes exactly if every port can be had; otherwise it reports the first that cannot. */
  method CheckPortsAvailable(s: Stack, probe: int -> Probe) returns (r: Result<(), PortError>)
    ensures r.Success? <==> forall p :: p in PortsToCheck(s) ==> probe(p) == Available
    ensures r.Failure? ==>
              exists k :: 0 <= k < |PortsToCheck(s)| && (forall j :: 0 <= j < k ==> probe(PortsToCheck(s)[j]) == Available)
                && match probe(PortsToCheck(s)[k])
                   case Available => false
                   case Unavailable => r == Failure(PortTaken(PortsToCheck(s)[k]))
                   case ProbeError(message) => r == Failure(ProbeFailed(message))
  {
    var ports := CollectPorts(s);
    for k := 0 to |ports|
      invariant forall j :: 0 <= j < k ==> probe(ports[j]) == Available
    {
      r := Verdict(ports[k], probe(ports[k]));
      if r.Failure? {
        return;
      }
    }
    return Success(());
  }

  // ---------------------------------------------------------------- which published ports are tried

  /** The uses that the check forgets: the RPC ports of all quorum nodes but the first, and the ports written down in
      the code. */
  predicate Forgotten(h: HostUse) {
    (h.QuorumRPC? && h.i > 0) || h.Fixed?
  }

  lemma {:induction false} MemberPortsTried(s: Stack, n: nat, i: nat, p: int)
    requires i < n <= |s.members| && p in MemberPorts(s, s.members[i])
    ensures p in FirstPorts(s, n)
  {
    if i < n - 1 { MemberPortsTried(s, n - 1, i, p); }
  }

  lemma {:induction false} BlockchainPortTried(s: Stack, n: nat)
    requires n <= |s.members|
    ensures s.blockchainPort in FirstPorts(s, n)
  {
    if n > 0 { BlockchainPortTried(s, n - 1); }
  }

  /** Everything else that is published is tried, whatever the bases and however many members there are. */
  lemma PublishedPortTried(o: InitOptions, s: Stack, id: ServiceId, j: nat)
    requires MadeFrom(o, s) && ValidStack(s) && Present(s, id) && j < |UsesOf(id)| && !Forgotten(UsesOf(id)[j])
    ensures j < |PortsOf(s, id)| && PortsOf(s, id)[j].host in PortsToCheck(s)
  {
    PublishedAsPlanned(o, s, id, j);
    PlannedPortTried(o, s, id, j);
  }

  lemma PlannedPortTried(o: InitOptions, s: Stack, id: ServiceId, j: nat)
    requires MadeFrom(o, s) && Present(s, id) && j < |UsesOf(id)| && !Forgotten(UsesOf(id)[j])
    ensures PortFor(o, UsesOf(id)[j]) in PortsToCheck(s)
  {
    var h := UsesOf(id)[j];
    if h.Allocated? && h.use != Ports.Blockchain {
      UseOfPresent(o, s, id, j);
      AllocatedPortTried(o, s, h.use);
    } else {
      if h.PrometheusWeb? { PrometheusUse(s, id, j); }
      UnallocatedPortTried(o, s, h);
    }
  }

  lemma PrometheusUse(s: Stack, id: ServiceId, j: nat)
    requires Present(s, id) && j < |UsesOf(id)| && UsesOf(id)[j].PrometheusWeb?
    ensures s.prometheusEnabled
  {
  }

  lemma UnallocatedPortTried(o: InitOptions, s: Stack, h: HostUse)
    requires MadeFrom(o, s) && (h.PrometheusWeb? ==> s.prometheusEnabled)
    requires !Forgotten(h) && (h.Allocated? ==> h.use == Ports.Blockchain)
    ensures PortFor(o, h) in PortsToCheck(s)
  {
    var rest := if s.prometheusEnabled then [s.prometheusPort] else [];
    assert PortsToCheck(s) == FirstPorts(s, |s.members|) + rest;
    if h.PrometheusWeb? {
      assert s.prometheusPort in rest;
    } else {
      BlockchainPortTried(s, |s.members|);
    }
  }

  lemma AllocatedPortTried(o: InitOptions, s: Stack, use: Ports.PortUse)
    requires MadeFrom(o, s) && use != Ports.Blockchain && use.i < |s.members| && Ports.InUse(o, use.i + 1, use) && Tried(s, use)
    requires use.Token? ==> use.k < |s.members[use.i].tokensPorts|
    ensures Ports.PlannedPort(o, use) in PortsToCheck(s)
  {
    RecordedAsPlanned(o, s, use.i, use);
    RecordedPortTried(s, use);
    MemberPortsTried(s, |s.members|, use.i, Ports.RecordedPort(s.members[use.i], use));
  }

  /** The allocated ports of a service that exists belong to a member, and to an internal one if it is a core. */
  lemma UseOfPresent(o: InitOptions, s: Stack, id: ServiceId, j: nat)
    requires MadeFrom(o, s) && Present(s, id) && j < |UsesOf(id)|
    requires UsesOf(id)[j].Allocated? && UsesOf(id)[j].use != Ports.Blockchain
    ensures var use := UsesOf(id)[j].use;
            && use.i < |s.members| && Ports.InUse(o, use.i + 1, use) && Tried(s, use)
            && (use.Token? ==> use.k < |s.members[use.i].tokensPorts|)
  {
    if id.Tokens? { assert Ports.IsMember(o, id.i, s.members[id.i]); }
  }

  /** The uses whose recorded port is on the list. */
  predicate Tried(s: Stack, use: Ports.PortUse)
    requires use != Ports.Blockchain && use.i < |s.members|
  {
    match use
    case FireFly(i) => !s.members[i].external
    case Spi(i) => !s.members[i].external
    case FireFlyMetrics(i) => !s.members[i].external
    case ConnectorMetrics(_) => false
    case Sandbox(_) => s.sandboxEnabled
    case _ => true
  }

  lemma RecordedPortTried(s: Stack, use: Ports.PortUse)
    requires use != Ports.Blockchain && use.i < |s.members| && Tried(s, use)
    requires use.Token? ==> use.k < |s.members[use.i].tokensPorts|
    ensures Ports.RecordedPort(s.members[use.i], use) in MemberPorts(s, s.members[use.i])
  {
  }

  // ---------------------------------------------------------------- and which are not

  /** Every port on the list was allocated by init, is the Prometheus port, or is the 0 of a port that was not needed. */
  ghost predicate FromPlan(o: InitOptions, s: Stack, p: int) {
    || p == 0
    || (s.prometheusEnabled && p == s.prometheusPort)
    || exists use :: Ports.InUse(o, o.memberCount, use) && IsTried(s, use) && p == Ports.PlannedPort(o, use)
  }

  predicate IsTried(s: Stack, use: Ports.PortUse) {
    use == Ports.Blockchain || (use.i < |s.members| && Tried(s, use))
  }

  lemma MemberPortFromPlan(o: InitOptions, s: Stack, i: nat, p: int)
    requires MadeFrom(o, s) && i < |s.members| && p in MemberPorts(s, s.members[i])
    ensures FromPlan(o, s, p)
  {
    assert Ports.IsMember(o, i, s.members[i]);
    if p != 0 {
      var use := UseOfMemberPort(o, s.members[i], s, i, p);
      FromUse(o, s, i, use);
    }
  }

  lemma UseOfMemberPort(o: InitOptions, m: Organization, s: Stack, i: nat, p: int) returns (use: Ports.PortUse)
    requires i < |s.members| && m == s.members[i] && p in MemberPorts(s, m) && p != 0
    requires s.sandboxEnabled == o.sandboxEnabled && |m.tokensPorts| == |o.tokenProviders|
    requires !o.prometheusEnabled ==> m.fireFlyMetricsPort == 0
    ensures use != Ports.Blockchain && use.i == i && Ports.InUse(o, i + 1, use) && Tried(s, use)
    ensures (use.Token? ==> use.k < |m.tokensPorts|) && Ports.RecordedPort(m, use) == p
  {
    if p in m.tokensPorts {
      var k :| 0 <= k < |m.tokensPorts| && m.tokensPorts[k] == p;
      use := Ports.Token(i, k);
    } else if p == m.connectorPort {
      use := Ports.Connector(i);
    } else if p == m.databasePort {
      use := Ports.DatabasePort(i);
    } else if p == m.uiPort {
      use := Ports.UI(i);
    } else if p == m.ptmPort {
      use := Ports.Ptm(i);
    } else if p == m.dataExchangePort {
      use := Ports.DataExchange(i);
    } else if p == m.ipfsApiPort {
      use := Ports.IpfsApi(i);
    } else if p == m.ipfsGatewayPort {
      use := Ports.IpfsGateway(i);
    } else if s.sandboxEnabled && p == m.sandboxPort {
      use := Ports.Sandbox(i);
    } else if p == m.spiPort {
      use := Ports.Spi(i);
    } else if p == m.fireFlyPort {
      use := Ports.FireFly(i);
    } else {
      use := Ports.FireFlyMetrics(i);
    }
  }

  lemma FromUse(o: InitOptions, s: Stack, i: nat, use: Ports.PortUse)
    requires MadeFrom(o, s) && i < |s.members| && use != Ports.Blockchain && use.i == i && Ports.InUse(o, i + 1, use)
    requires Tried(s, use) && (use.Token? ==> use.k < |s.members[i].tokensPorts|)
    ensures FromPlan(o, s, Ports.RecordedPort(s.members[i], use))
  {
    RecordedAsPlanned(o, s, i, use);
    assert Ports.InUse(o, o.memberCount, use);
  }

  lemma {:induction false} FirstPortsFromPlan(o: InitOptions, s: Stack, n: nat, p: int)
    requires MadeFrom(o, s) && n <= |s.members| && p in FirstPorts(s, n)
    ensures FromPlan(o, s, p)
  {
    if n == 0 {
      assert p == Ports.PlannedPort(o, Ports.Blockchain) && Ports.InUse(o, o.memberCount, Ports.Blockchain);
    } else if p in MemberPorts(s, s.members[n - 1]) {
      MemberPortFromPlan(o, s, n - 1, p);
    } else {
      FirstPortsFromPlan(o, s, n - 1, p);
    }
  }

  /** With the default flags and within the bounds of its provider the check misses exactly those: for geth, besu and a remote node nothing, for quorum the
      RPC port of every node but the first (tessera's ports are covered), for tezos one port, for fabric its seven. */
  lemma TriedExactly(o: InitOptions, s: Stack, id: ServiceId, j: nat)
    requires MadeFrom(o, s) && ValidStack(s) && DefaultFlags(o) && Fits(o, s)
    requires Present(s, id) && j < |UsesOf(id)|
    ensures j < |PortsOf(s, id)|
    ensures PortsOf(s, id)[j].host in PortsToCheck(s) <==> !Forgotten(UsesOf(id)[j])
  {
    PublishedAsPlanned(o, s, id, j);
    var h := UsesOf(id)[j];
    if !Forgotten(h) {
      PublishedPortTried(o, s, id, j);
    } else if PortFor(o, h) in PortsToCheck(s) {
      var p := PortFor(o, h);
      if p in FirstPorts(s, |s.members|) { FirstPortsFromPlan(o, s, |s.members|, p); }
      assert h in UsesOf(id) && Published(s, h);
      ForgottenNotPlanned(o, s, h);
      assert false;
    }
  }

  lemma ForgottenNotPlanned(o: InitOptions, s: Stack, h: HostUse)
    requires MadeFrom(o, s) && DefaultFlags(o) && Fits(o, s) && Published(s, h) && Forgotten(h)
    ensures !FromPlan(o, s, PortFor(o, h))
  {
    UsesFitProvider(s, h);
    forall use | Ports.InUse(o, o.memberCount, use)
      ensures PortFor(o, h) != Ports.PlannedPort(o, use)
    {
      if h.Fixed? {
        PlannedApart(o, s, use, h.port);
      } else if use != Ports.Blockchain {
        PlannedClearOfQuorum(o, s, h.i, use);
      }
    }
  }

  /** The uses behind the list, one by one: everything that was allocated, but for external members neither what their
      core publishes nor its metrics, and never a connector's metrics. So a start is not held up by a core that runs
      outside already. */
  predicate Looked(s: Stack, use: Ports.PortUse)
    requires use != Ports.Blockchain ==> use.i < |s.members|
  {
    match use
    case FireFly(i) => !s.members[i].external
    case Spi(i) => !s.members[i].external
    case FireFlyMetrics(i) => !s.members[i].external
    case ConnectorMetrics(_) => false
    case _ => true
  }

  lemma ListExactly(o: InitOptions, s: Stack, use: Ports.PortUse)
    requires MadeFrom(o, s) && DefaultFlags(o) && Fits(o, s) && Ports.DistinctPorts(o, o.memberCount)
    requires Ports.InUse(o, o.memberCount, use)
    ensures Ports.PlannedPort(o, use) in PortsToCheck(s) <==> Looked(s, use)
  {
    var p := Ports.PlannedPort(o, use);
    if Looked(s, use) { LookedAt(o, s, use); }
    if p in PortsToCheck(s) {
      if s.prometheusEnabled { PlannedApart(o, s, use, 9090); }
      FirstPortsFromPlan(o, s, |s.members|, p);
      PortShape(o, s, use);
      var other :| Ports.InUse(o, o.memberCount, other) && IsTried(s, other) && p == Ports.PlannedPort(o, other);
      assert other == use;
    }
  }

  lemma LookedAt(o: InitOptions, s: Stack, use: Ports.PortUse)
    requires MadeFrom(o, s) && Ports.InUse(o, o.memberCount, use) && Looked(s, use)
    ensures Ports.PlannedPort(o, use) in PortsToCheck(s)
  {
    if use == Ports.Blockchain {
      BlockchainPortTried(s, |s.members|);
    } else {
      assert Ports.IsMember(o, use.i, s.members[use.i]);
      AllocatedPortTried(o, s, use);
    }
  }

  /** Which services these are. */
  lemma ForgottenServices(s: Stack, id: ServiceId, j: nat)
    requires Present(s, id) && j < |UsesOf(id)|
    ensures Forgotten(UsesOf(id)[j]) <==>
              (id.Quorum? && id.i > 0) || (id.Tezossigner? && j == 1) || id.FabricCA? || id.FabricOrderer? || id.FabricPeer?
    ensures s.provider.GethNode? || s.provider.BesuNode? || s.provider.RemoteRPC? || s.provider == Fabric(true)
            ==> !Forgotten(UsesOf(id)[j])
  {
  }
}
