/** Host port allocation at init: createMember and the member loop of InitStack, internal/stacks/stack_manager.go. */
module Ports {
  import opened Wrappers
  import opened Decimal
  import opened Types

  /** Everything that gets a host port of its own; the number is the member, k the token provider. */
  datatype PortUse =
    | Blockchain
    | FireFly(i: nat)
    | Spi(i: nat)
    | Connector(i: nat)
    | UI(i: nat)
    | DatabasePort(i: nat)
    | DataExchange(i: nat)
    | IpfsApi(i: nat)
    | IpfsGateway(i: nat)
    | FireFlyMetrics(i: nat)
    | ConnectorMetrics(i: nat)
    | Token(i: nat, k: nat)
    | Sandbox(i: nat)
    | Ptm(i: nat)

  function Bit(b: bool): nat {
    if b then 1 else 0
  }

  /** The number of the services range one member may reach, counted from its base: the last offset is one less. */
  function Span(o: InitOptions): nat {
    8 + 2 * Bit(o.prometheusEnabled) + |o.tokenProviders| + Bit(o.sandboxEnabled)
  }

  /** The uses that exist for n members. */
  predicate InUse(o: InitOptions, n: nat, use: PortUse) {
    match use
    case Blockchain => true
    case FireFlyMetrics(i) => i < n && o.prometheusEnabled
    case ConnectorMetrics(i) => i < n && o.prometheusEnabled
    case Token(i, k) => i < n && k < |o.tokenProviders|
    case Sandbox(i) => i < n && o.sandboxEnabled
    case _ => use.i < n
  }

  /** The port a use ends up on, in closed form. Data exchange and the two IPFS ports get the base twice. */
  function PlannedPort(o: InitOptions, use: PortUse): int {
    var base := o.servicesBasePort;
    match use
    case Blockchain => base
    case FireFly(i) => o.fireFlyBasePort + i
    case Spi(i) => base + 100 * i + 1
    case Connector(i) => base + 100 * i + 2
    case UI(i) => base + 100 * i + 3
    case DatabasePort(i) => base + 100 * i + 4
    case DataExchange(i) => 2 * base + 200 * i + 5
    case IpfsApi(i) => 2 * base + 200 * i + 6
    case IpfsGateway(i) => 2 * base + 200 * i + 7
    case FireFlyMetrics(i) => base + 100 * i + 8
    case ConnectorMetrics(i) => base + 100 * i + 9
    case Token(i, k) => base + 100 * i + 8 + 2 * Bit(o.prometheusEnabled) + k
    case Sandbox(i) => base + 100 * i + 8 + 2 * Bit(o.prometheusEnabled) + |o.tokenProviders|
    case Ptm(i) => o.ptmBasePort + 10 * i
  }

  /** The field of a member that records the port of a use. */
  function RecordedPort(m: Organization, use: PortUse): int
    requires use != Blockchain
    requires use.Token? ==> use.k < |m.tokensPorts|
  {
    match use
    case FireFly(_) => m.fireFlyPort
    case Spi(_) => m.spiPort
    case Connector(_) => m.connectorPort
    case UI(_) => m.uiPort
    case DatabasePort(_) => m.databasePort
    case DataExchange(_) => m.dataExchangePort
    case IpfsApi(_) => m.ipfsApiPort
    case IpfsGateway(_) => m.ipfsGatewayPort
    case FireFlyMetrics(_) => m.fireFlyMetricsPort
    case ConnectorMetrics(_) => m.connectorMetricsPort
    case Token(_, k) => m.tokensPorts[k]
    case Sandbox(_) => m.sandboxPort
    case Ptm(_) => m.ptmPort
  }

  /** Member i of a stack made from these options. */
  ghost predicate IsMember(o: InitOptions, i: nat, m: Organization) {
    && m.index == i && m.id == Digits(i)
    && m.external == (i < o.externalProcesses)
    && i < |o.orgNames| && m.orgName == o.orgNames[i]
    && i < |o.nodeNames| && m.nodeName == o.nodeNames[i]
    && |m.tokensPorts| == |o.tokenProviders|
    && (forall use: PortUse :: use != Blockchain && use.i == i && InUse(o, i + 1, use) ==>
          RecordedPort(m, use) == PlannedPort(o, use))
    && (!o.prometheusEnabled ==> m.fireFlyMetricsPort == m.connectorMetricsPort == 0)
    && (!o.sandboxEnabled ==> m.sandboxPort == 0)
  }

  /** The ports of a member, one after the other from its base. Three of them have the base added once more. */
  predicate PortsAsDocumented(o: InitOptions, i: nat, m: Organization) {
    var base, tokens := o.servicesBasePort + 100 * i, |o.tokenProviders|;
    && m.fireFlyPort == o.fireFlyBasePort + i && m.ptmPort == o.ptmBasePort + 10 * i
    && m.spiPort == base + 1 && m.connectorPort == base + 2 && m.uiPort == base + 3 && m.databasePort == base + 4
    && m.dataExchangePort == 2 * base + 5 && m.ipfsApiPort == 2 * base + 6 && m.ipfsGatewayPort == 2 * base + 7
    && (if o.prometheusEnabled then m.fireFlyMetricsPort == base + 8 && m.connectorMetricsPort == base + 9
        else m.fireFlyMetricsPort == 0 && m.connectorMetricsPort == 0)
    && var next := if o.prometheusEnabled then base + 10 else base + 8;
       && |m.tokensPorts| == tokens && (forall k :: 0 <= k < tokens ==> m.tokensPorts[k] == next + k)
       && m.sandboxPort == (if o.sandboxEnabled then next + tokens else 0)
  }

  /** The init half of the stack manager. The outcomes of the provider's CreateAccount calls are a parameter. */
  class StackBuilder {
    var members: seq<Organization>
    var accounts: seq<Option<Account>>

    constructor ()
      ensures members == [] && accounts == []
    {
      members, accounts := [], [];
    }

    method CreateMember(id: string, index: nat, o: InitOptions, external: bool,
                        created: Result<Option<Account>, string>)
      returns (r: Result<Organization, string>)
      requires id == Digits(index) && external == (index < o.externalProcesses)
      requires index < |o.orgNames| && index < |o.nodeNames|
      ensures created.Failure? ==> r == Failure(created.error)
      ensures created.Success? ==> r.Success? && IsMember(o, index, r.value) && r.value.account == created.value
      ensures created.Success? ==> PortsAsDocumented(o, index, r.value)
      ensures created.Success? ==>
                && r.value.id == id && r.value.index == index && r.value.external == external
                && r.value.orgName == o.orgNames[index] && r.value.nodeName == o.nodeNames[index]
    {
      var serviceBase := o.servicesBasePort + index * 100;
      var ptmBase := o.ptmBasePort + index * 10;
      var nextPort := serviceBase + 5;
      var dataExchangePort := serviceBase + nextPort;
      nextPort := nextPort + 1;
      var ipfsApiPort := serviceBase + nextPort;
      nextPort := nextPort + 1;
      var ipfsGatewayPort := serviceBase + nextPort;
      nextPort := nextPort + 1;
      var fireFlyMetricsPort, connectorMetricsPort := 0, 0;
      if o.prometheusEnabled {
        fireFlyMetricsPort := nextPort;
        nextPort := nextPort + 1;
        connectorMetricsPort := nextPort;
        nextPort := nextPort + 1;
      }
      var tokensPorts := [];
      ghost var firstToken := nextPort;
      for k := 0 to |o.tokenProviders|
        invariant nextPort == firstToken + k && |tokensPorts| == k
        invariant forall j :: 0 <= j < k ==> tokensPorts[j] == firstToken + j
      {
        tokensPorts := tokensPorts + [nextPort];
        nextPort := nextPort + 1;
      }
      if created.Failure? {
        return Failure(created.error);
      }
      var sandboxPort := if o.sandboxEnabled then nextPort else 0;
      r := Success(Organization(
        id, index, o.fireFlyBasePort + index, serviceBase + 1, fireFlyMetricsPort, serviceBase + 2,
        connectorMetricsPort, serviceBase + 4, dataExchangePort, ipfsApiPort, ipfsGatewayPort, serviceBase + 3,
        sandboxPort, tokensPorts, ptmBase, external, o.orgNames[index], o.nodeNames[index], created.value));
    }

    /** The member loop of InitStack. It stops at the first account that cannot be created. */
    method InitMembers(o: InitOptions, created: nat -> Result<Option<Account>, string>) returns (r: Result<(), string>)
      requires o.memberCount <= |o.orgNames| && o.memberCount <= |o.nodeNames|
      modifies this
      ensures r.Success? <==> forall i: nat :: i < o.memberCount ==> created(i).Success?
      ensures r.Success? ==>
                && |members| == o.memberCount && |accounts| == o.memberCount
                && (forall i :: 0 <= i < o.memberCount ==> IsMember(o, i, members[i]) && members[i].account == created(i).value)
                && (forall i :: 0 <= i < o.memberCount ==> accounts[i] == members[i].account)
      ensures r.Success? ==>
                forall i :: 0 <= i < o.memberCount ==>
                  members[i].external == (i < o.externalProcesses) && PortsAsDocumented(o, i, members[i])
      ensures r.Success? ==> NumberedMembers(members, |o.tokenProviders|)
      ensures r.Failure? ==> exists i: nat :: i < o.memberCount && |members| == i && created(i) == Failure(r.error)
    {
      members := [];
      accounts := seq(o.memberCount, _ => None);
      for i := 0 to o.memberCount
        invariant |members| == i && |accounts| == o.memberCount
        invariant forall j :: 0 <= j < i ==>
          created(j).Success? && IsMember(o, j, members[j]) && members[j].account == created(j).value && PortsAsDocumented(o, j, members[j])
        invariant forall j :: 0 <= j < o.memberCount ==> accounts[j] == if j < i then members[j].account else None
      {
        var externalProcess := i < o.externalProcesses;
        var member := CreateMember(Digits(i), i, o, externalProcess, created(i));
        if member.Failure? {
          return Failure(member.error);
        }
        members := members + [member.value];
        if member.value.account.Some? {
          accounts := accounts[i := member.value.account];
        }
      }
      return Success(());
    }
  }

  // ---------------------------------------------------------------- no two uses share a port

  /** The blockchain port and the services range, without the FireFly and private transaction manager ranges. */
  predicate IsServiceUse(use: PortUse) {
    !use.FireFly? && !use.Ptm?
  }

  ghost predicate DistinctServicePorts(o: InitOptions, n: nat) {
    forall a: PortUse, b: PortUse ::
      InUse(o, n, a) && InUse(o, n, b) && IsServiceUse(a) && IsServiceUse(b) && PlannedPort(o, a) == PlannedPort(o, b)
      ==> a == b
  }

  ghost predicate DistinctPorts(o: InitOptions, n: nat) {
    forall a: PortUse, b: PortUse ::
      InUse(o, n, a) && InUse(o, n, b) && PlannedPort(o, a) == PlannedPort(o, b) ==> a == b
  }

  /** The two shapes of a port of the services range: doubled base with offset 5 to 7, or base with another offset. */
  predicate Doubled(use: PortUse) {
    use.DataExchange? || use.IpfsApi? || use.IpfsGateway?
  }

  function MemberOf(use: PortUse): nat {
    if use == Blockchain then 0 else use.i
  }

  function Offset(o: InitOptions, use: PortUse): (d: nat)
    requires IsServiceUse(use)
    ensures PlannedPort(o, use) == if Doubled(use) then 2 * o.servicesBasePort + 200 * MemberOf(use) + d
                                   else o.servicesBasePort + 100 * MemberOf(use) + d
    ensures Doubled(use) <==> 5 <= d <= 7
    ensures forall n: nat :: InUse(o, n, use) ==> d < Span(o)
  {
    match use
    case Blockchain => 0
    case Spi(_) => 1
    case Connector(_) => 2
    case UI(_) => 3
    case DatabasePort(_) => 4
    case DataExchange(_) => 5
    case IpfsApi(_) => 6
    case IpfsGateway(_) => 7
    case FireFlyMetrics(_) => 8
    case ConnectorMetrics(_) => 9
    case Token(_, k) => 8 + 2 * Bit(o.prometheusEnabled) + k
    case Sandbox(_) => 8 + 2 * Bit(o.prometheusEnabled) + |o.tokenProviders|
  }

  /** Within one member an offset names its use. */
  lemma OffsetInjective(o: InitOptions, n: nat, a: PortUse, b: PortUse)
    requires InUse(o, n, a) && InUse(o, n, b) && IsServiceUse(a) && IsServiceUse(b)
    requires MemberOf(a) == MemberOf(b) && Offset(o, a) == Offset(o, b)
    ensures a == b
  {
  }

  /** Every offset from 8 up to the span is taken by some use of every member. */
  lemma OffsetTaken(o: InitOptions, n: nat, i: nat, d: nat) returns (use: PortUse)
    requires i < n && 8 <= d < Span(o)
    ensures InUse(o, n, use) && IsServiceUse(use) && !Doubled(use) && MemberOf(use) == i && Offset(o, use) == d
  {
    var m := 2 * Bit(o.prometheusEnabled);
    use := if d - 8 < m then (if d == 8 then FireFlyMetrics(i) else ConnectorMetrics(i))
           else if d - 8 - m < |o.tokenProviders| then Token(i, d - 8 - m)
           else Sandbox(i);
  }

  /** The largest offset from 8 up, counted from the first doubled one; 0 if there is no such offset. */
  function Reach(o: InitOptions): nat {
    if Span(o) == 8 then 0 else Span(o) - 6
  }

  /** When the services ports of n members are distinct, in terms of the base's hundreds and what is left of it: one
      member must keep its doubled ports off its own range. From two on the ranges must not overlap, and the doubled ports
      of member 0 must not come down on a range that they reach, either after its first offsets or among them. */
  predicate ServicesApart(o: InitOptions, n: nat) {
    var hundreds, rest := o.servicesBasePort / 100, o.servicesBasePort % 100;
    if n < 2 then n == 0 || !(1 <= o.servicesBasePort <= Reach(o))
    else
      && Span(o) <= 101
      && !(1 <= rest <= Reach(o) && hundreds < n)
      && !(94 <= rest && hundreds + 1 < n)
  }

  lemma ServiceUsesApart(o: InitOptions, n: nat, a: PortUse, b: PortUse)
    requires o.servicesBasePort >= 0 && ServicesApart(o, n)
    requires InUse(o, n, a) && InUse(o, n, b) && IsServiceUse(a) && IsServiceUse(b)
    requires PlannedPort(o, a) == PlannedPort(o, b)
    ensures a == b
  {
    if Doubled(a) && !Doubled(b) {
      DoubledApart(o, n, a, b);
    } else if Doubled(b) && !Doubled(a) {
      DoubledApart(o, n, b, a);
    } else {
      var i, d, j, e := MemberOf(a), Offset(o, a), MemberOf(b), Offset(o, b);
      assert d == 0 ==> i == 0;
      assert e == 0 ==> j == 0;
      assert i == j && d == e;
      OffsetInjective(o, n, a, b);
    }
  }

  /** A doubled port differs from another one by the base's rest and some hundreds, apart from the offsets. */
  lemma DoubledApart(o: InitOptions, n: nat, a: PortUse, b: PortUse)
    requires o.servicesBasePort >= 0 && ServicesApart(o, n)
    requires InUse(o, n, a) && InUse(o, n, b) && IsServiceUse(a) && IsServiceUse(b)
    requires Doubled(a) && !Doubled(b)
    ensures PlannedPort(o, a) != PlannedPort(o, b)
  {
    var d, e := Offset(o, b), Offset(o, a);
    var hundreds, rest := o.servicesBasePort / 100, o.servicesBasePort % 100;
    var q := hundreds + 2 * MemberOf(a) - MemberOf(b);
    assert PlannedPort(o, a) - PlannedPort(o, b) == 100 * q + rest + e - d;
    assert d == 0 ==> q >= 0;
    assert d < 5 || 8 <= d < Span(o);
    if n >= 2 {
      assert q == 0 ==> hundreds <= MemberOf(b) < n;
      assert q == -1 ==> hundreds + 1 <= MemberOf(b) < n;
      assert q >= 1 ==> 100 * q + rest + e - d > 0;
      assert q <= -2 ==> 100 * q + rest + e - d < 0;
    }
  }

  /** The uses with the offsets before and at the doubled ones. */
  function LowUse(i: nat, d: nat): PortUse
    requires 1 <= d <= 7
  {
    match d
    case 1 => Spi(i)
    case 2 => Connector(i)
    case 3 => UI(i)
    case 4 => DatabasePort(i)
    case 5 => DataExchange(i)
    case 6 => IpfsApi(i)
    case 7 => IpfsGateway(i)
  }

  /** A port on which a doubled one of member 0 comes down. */
  lemma Collision(o: InitOptions, n: nat, use: PortUse, e: nat)
    requires n > 0 && 5 <= e <= 7 && InUse(o, n, use) && IsServiceUse(use) && !Doubled(use)
    requires PlannedPort(o, use) == 2 * o.servicesBasePort + e
    ensures !DistinctServicePorts(o, n)
  {
    assert InUse(o, n, LowUse(0, e)) && PlannedPort(o, LowUse(0, e)) == PlannedPort(o, use) && LowUse(0, e) != use;
  }

  lemma RangesOverlap(o: InitOptions, n: nat)
    requires n >= 2 && Span(o) > 101
    ensures !DistinctServicePorts(o, n)
  {
    var use := OffsetTaken(o, n, 0, 101);
    assert PlannedPort(o, use) == PlannedPort(o, Spi(1)) && use != Spi(1);
    assert InUse(o, n, Spi(1));
  }

  /** Within member i's range, after the doubled offsets. */
  lemma CollisionAfter(o: InitOptions, n: nat, i: nat, m: nat)
    requires i < n && 1 <= m <= Reach(o) && o.servicesBasePort == 100 * i + m
    ensures !DistinctServicePorts(o, n)
  {
    var e := if m == 1 then 7 else if m == 2 then 6 else 5;
    var use := OffsetTaken(o, n, i, m + e);
    Collision(o, n, use, e);
  }

  /** Within member i's range, before the doubled offsets. */
  lemma CollisionBefore(o: InitOptions, n: nat, i: nat, t: nat)
    requires i < n && 1 <= t <= 6 && o.servicesBasePort == 100 * i - t
    ensures !DistinctServicePorts(o, n)
  {
    var e := if t <= 4 then 5 else t + 1;
    Collision(o, n, LowUse(i, e - t), e);
  }

  lemma ServicesCollide(o: InitOptions, n: nat)
    requires o.servicesBasePort >= 0 && !ServicesApart(o, n)
    ensures !DistinctServicePorts(o, n)
  {
    var hundreds, rest := o.servicesBasePort / 100, o.servicesBasePort % 100;
    if n == 1 {
      CollisionAfter(o, n, 0, o.servicesBasePort);
    } else if Span(o) > 101 {
      RangesOverlap(o, n);
    } else if 94 <= rest && hundreds + 1 < n {
      CollisionBefore(o, n, hundreds + 1, 100 - rest);
    } else {
      CollisionAfter(o, n, hundreds, rest);
    }
  }

  /** For every number of members and every base this is the exact condition. */
  lemma ServicePortsDistinctExactly(o: InitOptions, n: nat)
    requires o.servicesBasePort >= 0
    ensures DistinctServicePorts(o, n) <==> ServicesApart(o, n)
  {
    if ServicesApart(o, n) {
      forall a: PortUse, b: PortUse | InUse(o, n, a) && InUse(o, n, b) && IsServiceUse(a) && IsServiceUse(b)
                  && PlannedPort(o, a) == PlannedPort(o, b)
        ensures a == b
      {
        ServiceUsesApart(o, n, a, b);
      }
    } else {
      ServicesCollide(o, n);
    }
  }

  /** A base that is a multiple of 100 leaves only the overlap of the ranges. */
  lemma AlignedBase(o: InitOptions, n: nat)
    requires o.servicesBasePort >= 0 && o.servicesBasePort % 100 == 0 && n >= 2
    ensures DistinctServicePorts(o, n) <==> Span(o) <= 101
  {
    ServicePortsDistinctExactly(o, n);
  }

  /** A services base that is not a multiple of 100 can put a doubled port on a token port. */
  lemma UnalignedBaseCollides(o: InitOptions, n: nat)
    requires o.servicesBasePort == 103 && !o.prometheusEnabled && |o.tokenProviders| >= 1 && n >= 2
    ensures PlannedPort(o, DataExchange(0)) == PlannedPort(o, Token(1, 0))
    ensures !DistinctServicePorts(o, n)
  {
    assert InUse(o, n, DataExchange(0)) && InUse(o, n, Token(1, 0));
  }

  /** The flag defaults of the three port bases, cmd/init.go. */
  predicate DefaultBases(o: InitOptions) {
    o.fireFlyBasePort == 5000 && o.servicesBasePort == 5100 && o.ptmBasePort == 4100
  }

  /** With the default bases all ranges together are free of collisions for up to 90 members and no further:
      member 90's private transaction manager port is member 0's FireFly port. */
  lemma DefaultPortsDistinctExactly(o: InitOptions, n: nat)
    requires DefaultBases(o) && n >= 2
    ensures DistinctPorts(o, n) <==> n <= 90 && Span(o) <= 101
  {
    AlignedBase(o, n);
    if n > 90 {
      assert PlannedPort(o, Ptm(90)) == PlannedPort(o, FireFly(0));
      assert InUse(o, n, Ptm(90)) && InUse(o, n, FireFly(0));
    } else if Span(o) <= 101 {
      DefaultPortsDistinct(o, n);
    }
  }

  lemma DefaultPortsDistinct(o: InitOptions, n: nat)
    requires DefaultBases(o) && n <= 90 && Span(o) <= 101
    ensures DistinctPorts(o, n)
  {
    forall a: PortUse, b: PortUse | InUse(o, n, a) && InUse(o, n, b) && PlannedPort(o, a) == PlannedPort(o, b)
      ensures a == b
    {
      DefaultRangesApart(o, n, a);
      DefaultRangesApart(o, n, b);
      if IsServiceUse(a) && IsServiceUse(b) { ServiceUsesApart(o, n, a, b); }
    }
  }

  lemma DefaultRangesApart(o: InitOptions, n: nat, use: PortUse)
    requires DefaultBases(o) && InUse(o, n, use) && n <= 90
    ensures IsServiceUse(use) <==> PlannedPort(o, use) >= 5100
    ensures use.FireFly? <==> 5000 <= PlannedPort(o, use) < 5100
  {
    if IsServiceUse(use) {
      var d := Offset(o, use);
      assert PlannedPort(o, use) >= 5100;
    }
  }

  // ---------------------------------------------------------------- quorum's own stride

  /** The RPC port of quorum node i, internal/blockchain/ethereum/quorum/quorum_provider.go. */
  function QuorumNodePort(o: InitOptions, i: nat): int {
    o.servicesBasePort + i * 10
  }

  ghost predicate QuorumPortsFree(o: InitOptions, n: nat) {
    forall i: nat, use: PortUse ::
      i < n && InUse(o, n, use) && IsServiceUse(use) && QuorumNodePort(o, i) == PlannedPort(o, use) ==> use == Blockchain && i == 0
  }

  /** Quorum's node ports, ten apart, clear the members' services ranges exactly while those end below offset 10. */
  lemma QuorumPortsFreeExactly(o: InitOptions, n: nat)
    requires o.servicesBasePort % 100 == 0 && n >= 2
    ensures QuorumPortsFree(o, n) <==> Span(o) <= 10
  {
    if Span(o) <= 10 {
      forall i: nat, use: PortUse | i < n && InUse(o, n, use) && IsServiceUse(use) && QuorumNodePort(o, i) == PlannedPort(o, use)
        ensures use == Blockchain && i == 0
      {
        QuorumPortApart(o, n, i, use);
      }
    } else {
      var use := OffsetTaken(o, n, 0, 10);
      assert QuorumNodePort(o, 1) == PlannedPort(o, use);
    }
  }

  lemma QuorumPortApart(o: InitOptions, n: nat, i: nat, use: PortUse)
    requires o.servicesBasePort % 100 == 0 && Span(o) <= 10
    requires i < n && InUse(o, n, use) && IsServiceUse(use) && QuorumNodePort(o, i) == PlannedPort(o, use)
    ensures use == Blockchain && i == 0
  {
    var q, d, j := o.servicesBasePort / 100, Offset(o, use), MemberOf(use);
    assert o.servicesBasePort == 100 * q;
    var r := 10 * q + 20 * j - i;
    assert Doubled(use) ==> PlannedPort(o, use) - QuorumNodePort(o, i) == 10 * r + d;
    assert !Doubled(use);
    assert 10 * i == 10 * (10 * j) + d;
    assert d == 0;
    assert use == Blockchain;
  }

  /** One token provider and the sandbox, the defaults, just fit; switching Prometheus on does not. */
  lemma QuorumDefaults(o: InitOptions, n: nat)
    requires DefaultBases(o) && |o.tokenProviders| == 1 && o.sandboxEnabled && n >= 2
    ensures QuorumPortsFree(o, n) <==> !o.prometheusEnabled
    ensures o.prometheusEnabled ==> QuorumNodePort(o, 1) == PlannedPort(o, Token(0, 0)) == 5110
  {
    QuorumPortsFreeExactly(o, n);
  }
}
