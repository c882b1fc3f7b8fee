/** First-time setup told step by step: which steps there are, in which order, and what becomes of the contracts that the
    token providers deploy. */
module SetupSteps {
  import opened Wrappers
  import opened Decimal
  import opened Names
  import opened Types
  import opened ComposeSpec
  import opened ComposeFacts
  import opened ComposeExact
  import opened ComposeContents
  import opened LifecycleSpec
  import opened Lifecycle

  // ---------------------------------------------------------------- which steps, and when

  /** The steps of a stack's setup, one condition for each. */
  predicate Includes(s: Stack, stage: Stage) {
    var n, ownContract, preset := |s.members|, s.multiparty && s.contractAddress == "", s.multiparty && s.contractAddress != "";
    match stage
    case CopyInit => true
    case WriteDisabled => true
    case ProviderSetup => true
    case CopyPrometheus => s.prometheusEnabled
    case CopyExchange(i) => i < n
    case Pull => true
    case PreStart(round) => round < 2
    case Up(round) => round < 2
    case PostStart(round) => round < 2
    case DeployTokens(k) => k < |s.tokenProviders| && (s.provider.GethNode? || s.provider.BesuNode? || s.provider.QuorumNode?)
    case DeployFireFly => ownContract
    case ReadLocation(i) => i < n && ownContract
    case PatchConfig(i) => i < n
    case CreateCoreVolume(i) => i < n
    case MkdirCore(i) => i < n
    case WriteEnabled => true
    case StopAll => true
    case NodesUp(round) => round == 0
    case Register => ownContract
    case InitTokens(k) => k < |s.tokenProviders| && !preset
    case WriteState => !preset
    case _ => false
  }

  /** The place of a step: the part of setup it belongs to, and where it stands in that part. */
  function Place(stage: Stage): (nat, nat) {
    match stage
    case CopyInit => (0, 0)
    case WriteDisabled => (1, 0)
    case ProviderSetup => (2, 0)
    case CopyPrometheus => (3, 0)
    case CopyExchange(i) => (4, i)
    case Pull => (5, 0)
    case PreStart(round) => (if round == 0 then 6 else 14, 0)
    case Up(round) => (if round == 0 then 7 else 15, 0)
    case PostStart(round) => (if round == 0 then 8 else 16, 0)
    case DeployTokens(k) => (9, k)
    case DeployFireFly => (10, 0)
    case ReadLocation(i) => (11, 4 * i)
    case PatchConfig(i) => (11, 4 * i + 1)
    case CreateCoreVolume(i) => (11, 4 * i + 2)
    case MkdirCore(i) => (11, 4 * i + 3)
    case WriteEnabled => (12, 0)
    case StopAll => (13, 0)
    case NodesUp(_) => (17, 0)
    case Register => (18, 0)
    case InitTokens(k) => (19, k)
    case _ => (20, 0)
  }

  predicate Earlier(a: Stage, b: Stage) {
    Place(a).0 < Place(b).0 || (Place(a).0 == Place(b).0 && Place(a).1 < Place(b).1)
  }

  predicate InOrder(stages: seq<Stage>) {
    forall j, k :: 0 <= j < k < |stages| ==> Earlier(stages[j], stages[k])
  }

  /** All steps belong to these parts. */
  predicate Within(stages: seq<Stage>, low: nat, high: nat) {
    forall k :: 0 <= k < |stages| ==> low <= Place(stages[k]).0 <= high
  }

  lemma OrderBoth(a: seq<Stage>, b: seq<Stage>, low: nat, middle: nat, high: nat)
    requires InOrder(a) && InOrder(b) && Within(a, low, middle) && Within(b, middle + 1, high) && low <= middle < high
    ensures InOrder(a + b) && Within(a + b, low, high)
  {
    var c := a + b;
    assert forall k :: 0 <= k < |c| ==> c[k] == if k < |a| then a[k] else b[k - |a|];
    forall j, k | 0 <= j < k < |c|
      ensures Earlier(c[j], c[k])
    {
    }
  }

  lemma {:induction false} ExchangeInOrder(n: nat, stage: Stage)
    ensures InOrder(ExchangeStages(n)) && Within(ExchangeStages(n), 4, 4)
    ensures forall k :: 0 <= k < |ExchangeStages(n)| ==> ExchangeStages(n)[k].CopyExchange? && ExchangeStages(n)[k].i < n
    ensures stage in ExchangeStages(n) <==> stage.CopyExchange? && stage.i < n
  {
    if n > 0 { ExchangeInOrder(n - 1, stage); }
  }

  lemma {:induction false} TokensInOrder(n: nat, stage: Stage)
    ensures InOrder(TokenStages(n)) && Within(TokenStages(n), 9, 9)
    ensures forall k :: 0 <= k < |TokenStages(n)| ==> TokenStages(n)[k].DeployTokens? && TokenStages(n)[k].k < n
    ensures stage in TokenStages(n) <==> stage.DeployTokens? && stage.k < n
  {
    if n > 0 { TokensInOrder(n - 1, stage); }
  }

  lemma {:induction false} InitTokensInOrder(n: nat, stage: Stage)
    ensures InOrder(InitTokensStages(n)) && Within(InitTokensStages(n), 19, 19)
    ensures forall k :: 0 <= k < |InitTokensStages(n)| ==> InitTokensStages(n)[k].InitTokens? && InitTokensStages(n)[k].k < n
    ensures stage in InitTokensStages(n) <==> stage.InitTokens? && stage.k < n
  {
    if n > 0 { InitTokensInOrder(n - 1, stage); }
  }

  /** The steps of member i. */
  predicate OfMember(s: Stack, stage: Stage, i: nat) {
    || (stage == ReadLocation(i) && s.multiparty && s.contractAddress == "")
    || stage == PatchConfig(i) || stage == CreateCoreVolume(i) || stage == MkdirCore(i)
  }

  predicate OfMembers(s: Stack, stage: Stage, n: nat) {
    match stage
    case ReadLocation(i) => i < n && OfMember(s, stage, i)
    case PatchConfig(i) => i < n
    case CreateCoreVolume(i) => i < n
    case MkdirCore(i) => i < n
    case _ => false
  }

  predicate MembersPlaced(stages: seq<Stage>, n: nat) {
    InOrder(stages) && Within(stages, 11, 11) && forall k :: 0 <= k < |stages| ==> Place(stages[k]).1 < 4 * n
  }

  lemma {:induction false} MembersInOrder(s: Stack, n: nat)
    ensures MembersPlaced(MemberStages(s, n), n)
  {
    if n > 0 {
      MembersInOrder(s, n - 1);
      OneMoreInOrder(s, n - 1, n);
    }
  }

  lemma OneMoreInOrder(s: Stack, i: nat, n: nat)
    requires n == i + 1 && MembersPlaced(MemberStages(s, i), i)
    ensures MembersPlaced(MemberStages(s, n), n)
  {
    OneMemberInOrder(s, i);
    MemberAppended(MemberStages(s, i), OneMember(s, i), i);
    OneMemberMore(s, i);
  }

  function OneMember(s: Stack, i: nat): seq<Stage> {
    (if NeedsContract(s) then [ReadLocation(i)] else []) + [PatchConfig(i), CreateCoreVolume(i), MkdirCore(i)]
  }

  lemma OneMemberMore(s: Stack, i: nat)
    ensures MemberStages(s, i + 1) == MemberStages(s, i) + OneMember(s, i)
  {
    Joined(MemberStages(s, i), if NeedsContract(s) then [ReadLocation(i)] else [], [PatchConfig(i), CreateCoreVolume(i), MkdirCore(i)]);
  }

  lemma OneMemberInOrder(s: Stack, i: nat)
    ensures var added := OneMember(s, i);
            InOrder(added) && Within(added, 11, 11) && forall k :: 0 <= k < |added| ==> 4 * i <= Place(added[k]).1 < 4 * i + 4
  {
  }

  lemma Joined<T>(a: seq<T>, b: seq<T>, c: seq<T>)
    ensures a + b + c == a + (b + c)
  {
  }

  lemma OneMemberHolds(s: Stack, i: nat, stage: Stage)
    ensures stage in OneMember(s, i) <==> OfMember(s, stage, i)
  {
  }

  lemma OneMoreMember(s: Stack, n: nat, stage: Stage)
    ensures OfMembers(s, stage, n + 1) <==> OfMembers(s, stage, n) || OfMember(s, stage, n)
  {
  }

  lemma {:induction false} MembersHold(s: Stack, n: nat, stage: Stage)
    ensures stage in MemberStages(s, n) <==> OfMembers(s, stage, n)
  {
    if n > 0 {
      MembersHold(s, n - 1, stage);
      OneMoreMember(s, n - 1, stage);
      OneMemberHolds(s, n - 1, stage);
      assert MemberStages(s, n) == MemberStages(s, n - 1) + OneMember(s, n - 1) by { OneMemberMore(s, n - 1); }
    }
  }

  lemma MemberAppended(before: seq<Stage>, added: seq<Stage>, i: nat)
    requires MembersPlaced(before, i)
    requires InOrder(added) && Within(added, 11, 11) && forall k :: 0 <= k < |added| ==> 4 * i <= Place(added[k]).1 < 4 * i + 4
    ensures MembersPlaced(before + added, i + 1)
  {
    var c := before + added;
    assert forall k :: 0 <= k < |c| ==> c[k] == if k < |before| then before[k] else added[k - |before|];
    forall j, k | 0 <= j < k < |c|
      ensures Earlier(c[j], c[k])
    {
    }
  }

  lemma PrepareInOrder(s: Stack)
    ensures InOrder(PrepareStages(s)) && Within(PrepareStages(s), 0, 5)
  {
    var first, prometheus := [CopyInit, WriteDisabled, ProviderSetup], if s.prometheusEnabled then [CopyPrometheus] else [];
    var exchange := ExchangeStages(|s.members|);
    ExchangeInOrder(|s.members|, Pull);
    OrderBoth(first, prometheus, 0, 2, 3);
    OrderBoth(first + prometheus, exchange, 0, 3, 4);
    OrderBoth(first + prometheus + exchange, [Pull], 0, 4, 5);
  }

  lemma PrepareHolds(s: Stack, stage: Stage)
    ensures stage in PrepareStages(s) <==> Includes(s, stage) && Place(stage).0 <= 5
  {
    ExchangeInOrder(|s.members|, stage);
  }

  lemma DeployInOrder(s: Stack, stage: Stage)
    ensures InOrder(DeployStages(s)) && Within(DeployStages(s), 9, 10)
    ensures stage in DeployStages(s) <==> Includes(s, stage) && 9 <= Place(stage).0 <= 10
  {
    TokensInOrder(|s.tokenProviders|, stage);
    OrderBoth(if TokenFactoriesDisabled(s.provider) then [] else TokenStages(|s.tokenProviders|),
              if NeedsContract(s) then [DeployFireFly] else [], 9, 9, 10);
  }

  lemma FinalInOrder(s: Stack)
    ensures InOrder(FinalStages(s)) && Within(FinalStages(s), 18, 20)
  {
    var register, tokens := if s.multiparty then [Register] else [], InitTokensStages(|s.tokenProviders|);
    InitTokensInOrder(|s.tokenProviders|, Register);
    assert InOrder(register + tokens + [WriteState]) && Within(register + tokens + [WriteState], 18, 20) by {
      OrderBoth(register, tokens, 18, 18, 19);
      OrderBoth(register + tokens, [WriteState], 18, 19, 20);
    }
    assert FinalStages(s) == if Preset(s) then [] else register + tokens + [WriteState];
  }

  lemma FinalHolds(s: Stack, stage: Stage)
    ensures stage in FinalStages(s) <==> Includes(s, stage) && 18 <= Place(stage).0
  {
    InitTokensInOrder(|s.tokenProviders|, stage);
  }

  lemma StartupInOrder(round: nat)
    ensures InOrder(Startup(round)) && Within(Startup(round), if round == 0 then 6 else 14, if round == 0 then 8 else 16)
  {
  }

  lemma RestartInOrder()
    ensures InOrder(RestartStages()) && Within(RestartStages(), 12, 17)
  {
    var first := [WriteEnabled, StopAll];
    StartupInOrder(1);
    assert InOrder(first + Startup(1)) && Within(first + Startup(1), 12, 16) by { OrderBoth(first, Startup(1), 12, 13, 16); }
    OrderBoth(first + Startup(1), [NodesUp(0)], 12, 16, 17);
  }

  lemma StartupHolds(s: Stack, stage: Stage)
    ensures stage in Startup(0) <==> Includes(s, stage) && 6 <= Place(stage).0 <= 8
  {
  }

  lemma RestartHolds(s: Stack, stage: Stage)
    ensures stage in RestartStages() <==> Includes(s, stage) && 12 <= Place(stage).0 <= 17
  {
    assert RestartStages() == [WriteEnabled, StopAll, PreStart(1), Up(1), PostStart(1), NodesUp(0)];
  }

  lemma SetupInOrder(s: Stack)
    ensures InOrder(SetupStages(s))
  {
    var d := RestartStages() + FinalStages(s);
    var c := MemberStages(s, |s.members|) + d;
    var b := DeployStages(s) + c;
    var a := Startup(0) + b;
    assert InOrder(d) && Within(d, 12, 20) by {
      RestartInOrder();
      FinalInOrder(s);
      OrderBoth(RestartStages(), FinalStages(s), 12, 17, 20);
    }
    assert InOrder(c) && Within(c, 11, 20) by {
      MembersInOrder(s, |s.members|);
      OrderBoth(MemberStages(s, |s.members|), d, 11, 11, 20);
    }
    assert InOrder(b) && Within(b, 9, 20) by {
      DeployInOrder(s, Pull);
      OrderBoth(DeployStages(s), c, 9, 10, 20);
    }
    assert InOrder(a) && Within(a, 6, 20) by {
      StartupInOrder(0);
      OrderBoth(Startup(0), b, 6, 8, 20);
    }
    PrepareInOrder(s);
    OrderBoth(PrepareStages(s), a, 0, 5, 20);
  }

  lemma SetupHolds(s: Stack, stage: Stage)
    ensures stage in SetupStages(s) <==> Includes(s, stage)
  {
    PrepareHolds(s, stage);
    StartupHolds(s, stage);
    DeployInOrder(s, stage);
    MembersHold(s, |s.members|, stage);
    RestartHolds(s, stage);
    FinalHolds(s, stage);
    MembersPart(s, stage);
    InSixParts(stage, PrepareStages(s), Startup(0), DeployStages(s), MemberStages(s, |s.members|), RestartStages(), FinalStages(s));
  }

  lemma MembersPart(s: Stack, stage: Stage)
    ensures OfMembers(s, stage, |s.members|) <==> Includes(s, stage) && Place(stage).0 == 11
  {
  }

  lemma InSixParts<T>(x: T, a: seq<T>, b: seq<T>, c: seq<T>, d: seq<T>, e: seq<T>, f: seq<T>)
    ensures x in a + (b + (c + (d + (e + f)))) <==> x in a || x in b || x in c || x in d || x in e || x in f
  {
  }

  /** The list of setup's steps is the one that holds these steps, each once, in this order. */
  lemma SetupStepsExactly(s: Stack, stage: Stage)
    ensures stage in SetupStages(s) <==> Includes(s, stage)
    ensures InOrder(SetupStages(s))
  {
    SetupHolds(s, stage);
    SetupInOrder(s);
  }

  // ---------------------------------------------------------------- the contracts of the token providers

  /** How many of the first k token providers deployed a contract. */
  function DeployedBefore(env: Stage -> Outcome, k: nat): nat {
    if k == 0 then 0 else DeployedBefore(env, k - 1) + if env(DeployTokens(k - 1)).Deployed? then 1 else 0
  }

  lemma {:induction false} ResultsCounted(env: Stage -> Outcome, n: nat)
    ensures |TokenResults(env, n)| == DeployedBefore(env, n)
    ensures forall k :: 0 <= k < n && env(DeployTokens(k)).Deployed? ==>
              DeployedBefore(env, k) < |TokenResults(env, n)| && TokenResults(env, n)[DeployedBefore(env, k)] == env(DeployTokens(k)).contract
  {
    if n > 0 { ResultsCounted(env, n - 1); }
  }

  /** Every result is that of a provider, and the later it stands the later is the provider. */
  lemma {:induction false} ResultBehind(env: Stage -> Outcome, n: nat, x: nat) returns (k: nat)
    requires x < |TokenResults(env, n)|
    ensures k < n && env(DeployTokens(k)).Deployed? && DeployedBefore(env, k) == x
    ensures TokenResults(env, n)[x] == env(DeployTokens(k)).contract
  {
    ResultsCounted(env, n - 1);
    if x < |TokenResults(env, n - 1)| {
      k := ResultBehind(env, n - 1, x);
    } else {
      k := n - 1;
    }
  }

  lemma {:induction false} CountGrows(env: Stage -> Outcome, j: nat, k: nat)
    requires j <= k
    ensures DeployedBefore(env, j) <= DeployedBefore(env, k)
    ensures j < k && env(DeployTokens(j)).Deployed? ==> DeployedBefore(env, j) < DeployedBefore(env, k)
    decreases k - j
  {
    if j < k { CountGrows(env, j + 1, k); }
  }

  /** A setup that came to its end. */
  predicate CompleteSetup(s: Stack, w: World, env: Stage -> Outcome, w': World)
    requires ValidStack(s)
  {
    Setup(s, w, env) == (w', Completed)
  }

  /** From position m on the list holds the contracts of the token providers that have something to deploy, in the order
      of the providers, and then FireFly's own, if setup deploys it; nothing else. */
  ghost predicate Recorded(s: Stack, env: Stage -> Outcome, m: nat, d: seq<DeployedContract>) {
    var n, own := |s.tokenProviders|, s.multiparty && s.contractAddress == "" && env(DeployFireFly).Deployed?;
    && |d| == m + DeployedBefore(env, n) + (if own then 1 else 0)
    && (forall k :: 0 <= k < n && env(DeployTokens(k)).Deployed? ==>
          m + DeployedBefore(env, k) < |d| && d[m + DeployedBefore(env, k)] == env(DeployTokens(k)).contract)
    && (own ==> d[|d| - 1] == env(DeployFireFly).contract)
  }

  /** On geth, besu and quorum a complete setup has deployed for every token provider, behind what was deployed before. */
  lemma TokenContractsInOrder(s: Stack, w: World, env: Stage -> Outcome, w': World)
    requires ValidStack(s) && CompleteSetup(s, w, env, w')
    requires s.provider.GethNode? || s.provider.BesuNode? || s.provider.QuorumNode?
    ensures forall k :: 0 <= k < |s.tokenProviders| ==> !env(DeployTokens(k)).Failed?
    ensures w.deployed <= w'.deployed && Recorded(s, env, |w.deployed|, w'.deployed)
  {
    assert w'.deployed == w.deployed + SetupResults(s, env) by { SetupEffect(s, w, env); }
    ResultsRecorded(s, env, w.deployed);
    forall k: nat | k < |s.tokenProviders|
      ensures !env(DeployTokens(k)).Failed?
    {
      StepSucceeds(s, w, env, w', DeployTokens(k));
    }
  }

  lemma ResultsRecorded(s: Stack, env: Stage -> Outcome, before: seq<DeployedContract>)
    requires s.provider.GethNode? || s.provider.BesuNode? || s.provider.QuorumNode?
    ensures Recorded(s, env, |before|, before + SetupResults(s, env))
  {
    ResultsCounted(env, |s.tokenProviders|);
  }

  /** A complete setup means that none of its steps failed. */
  lemma StepSucceeds(s: Stack, w: World, env: Stage -> Outcome, w': World, stage: Stage)
    requires ValidStack(s) && CompleteSetup(s, w, env, w') && Includes(s, stage) && !stage.ReadLocation?
    ensures !env(stage).Failed?
  {
    SetupEndsExactly(s, w, env);
    SetupHolds(s, stage);
    SucceedsAt(SetupStages(s), env, stage);
  }

  lemma {:induction false} SucceedsAt(stages: seq<Stage>, env: Stage -> Outcome, stage: Stage)
    requires Succeeds(stages, env) && stage in stages && !stage.ReadLocation?
    ensures !env(stage).Failed?
  {
    if stages[0] != stage { SucceedsAt(stages[1..], env, stage); }
  }

  /** The saved state is that list, unless the contract was there before. */
  lemma TokenContractsSaved(s: Stack, w: World, env: Stage -> Outcome, w': World)
    requires ValidStack(s) && CompleteSetup(s, w, env, w') && !(s.multiparty && s.contractAddress != "")
    ensures w'.disk.state == State(w'.accounts, w'.deployed)
  {
    SetupEffect(s, w, env);
  }

  lemma {:induction false} RunSame(s: Stack, w: World, stages: seq<Stage>, env: Stage -> Outcome, env': Stage -> Outcome)
    requires ValidStack(s) && forall k :: 0 <= k < |stages| ==> env(stages[k]) == env'(stages[k])
    ensures Run(s, w, stages, env) == Run(s, w, stages, env')
    decreases |stages|
  {
    if stages != [] {
      assert forall k :: 0 <= k < |stages[1..]| ==> stages[1..][k] == stages[k + 1];
      RunSame(s, Apply(s, w, stages[0], env(stages[0])), stages[1..], env, env');
    }
  }

  /** With a remote node, tezos or fabric nothing depends on whether token contracts could be deployed: none is. */
  lemma NoTokenContracts(s: Stack, w: World, env: Stage -> Outcome, env': Stage -> Outcome)
    requires ValidStack(s) && (s.provider.RemoteRPC? || s.provider.Tezos? || s.provider.Fabric?)
    requires forall stage: Stage :: !stage.DeployTokens? ==> env(stage) == env'(stage)
    ensures Setup(s, w, env) == Setup(s, w, env')
  {
    DeploysNothing(s);
    RunSame(s, BeforeSetup(s, w), SetupStages(s), env, env');
  }

  lemma DeploysNothing(s: Stack)
    requires s.provider.RemoteRPC? || s.provider.Tezos? || s.provider.Fabric?
    ensures forall k :: 0 <= k < |SetupStages(s)| ==> !SetupStages(s)[k].DeployTokens?
  {
    forall k | 0 <= k < |SetupStages(s)|
      ensures !SetupStages(s)[k].DeployTokens?
    {
      SetupHolds(s, SetupStages(s)[k]);
    }
  }

  // ---------------------------------------------------------------- what the token services are told

  /** The contract of provider k is the last one of its name among all that setup deploys. */
  predicate LastDeployed(s: Stack, env: Stage -> Outcome, k: nat, c: DeployedContract) {
    && k < |s.tokenProviders| && env(DeployTokens(k)) == Deployed(c)
    && (forall j :: k < j < |s.tokenProviders| && env(DeployTokens(j)).Deployed? ==> env(DeployTokens(j)).contract.name != c.name)
    && (env(DeployFireFly).Deployed? ==> env(DeployFireFly).contract.name != c.name)
  }

  lemma LastInList(s: Stack, env: Stage -> Outcome, m: nat, d: seq<DeployedContract>, k: nat, c: DeployedContract)
    requires Recorded(s, env, m, d) && LastDeployed(s, env, k, c)
    ensures LastOfName(d, c.name, m + DeployedBefore(env, k)) && d[m + DeployedBefore(env, k)] == c
  {
    forall y | m + DeployedBefore(env, k) < y < |d|
      ensures d[y].name != c.name
    {
      if y < m + DeployedBefore(env, |s.tokenProviders|) {
        var j := LaterProvider(env, k, y - m, |s.tokenProviders|);
      }
    }
  }

  lemma LaterProvider(env: Stage -> Outcome, k: nat, x: nat, n: nat) returns (j: nat)
    requires DeployedBefore(env, k) < x < DeployedBefore(env, n)
    ensures k < j < n && env(DeployTokens(j)).Deployed? && DeployedBefore(env, j) == x
  {
    ResultsCounted(env, n);
    j := ResultBehind(env, n, x);
    if j <= k { CountGrows(env, j, k); }
  }

  lemma AddressUnique(deployed: seq<DeployedContract>, name: string, address: string, k: int)
    requires IsAddressOf(deployed, name, address) && LastOfName(deployed, name, k)
    ensures address == deployed[k].address
  {
    if j :| LastOfName(deployed, name, j) && address == deployed[j].address {
      assert j == k;
    }
  }

  /** In this file the service is there and has the text as the value of the variable. */
  predicate Shows(compose: ComposeFile, id: ServiceId, v: Variable, text: string) {
    && compose.Written? && id in compose.services
    && v in compose.services[id].body.environment && compose.services[id].body.environment[v] == Text(text)
  }

  lemma WrittenWithContracts(s: Stack, w: World, env: Stage -> Outcome, w': World)
    requires ValidStack(s) && CompleteSetup(s, w, env, w')
    ensures w'.disk.compose == Written(Assembled(WithDeployed(s, w'.deployed)))
  {
    SetupEffect(s, w, env);
  }

  /** The stack that the compose file is written for in the end. */
  lemma StackWithContracts(s: Stack, w: World, env: Stage -> Outcome, w': World, k: nat, c: DeployedContract) returns (s': Stack, x: nat)
    requires ValidStack(s) && CompleteSetup(s, w, env, w') && LastDeployed(s, env, k, c)
    requires s.provider.GethNode? || s.provider.BesuNode? || s.provider.QuorumNode?
    ensures ValidStack(s') && s'.provider == s.provider && s'.members == s.members
    ensures s'.tokenProviders == s.tokenProviders && s'.environment == s.environment
    ensures w'.disk.compose == Written(Assembled(s')) && LastOfName(s'.deployed, c.name, x) && s'.deployed[x] == c
  {
    s', x := WithDeployed(s, w'.deployed), |w.deployed| + DeployedBefore(env, k);
    assert LastOfName(w'.deployed, c.name, x) && w'.deployed[x] == c by {
      TokenContractsInOrder(s, w, env, w');
      LastInList(s, env, |w.deployed|, w'.deployed, k, c);
    }
    WrittenWithContracts(s, w, env, w');
  }

  /** After a complete setup the services of an ERC20/ERC721 provider have the address of the factory that this provider
      deployed, whatever else was deployed. */
  lemma FactoryReachesServices(s: Stack, w: World, env: Stage -> Outcome, w': World, i: nat, k: nat, c: DeployedContract)
    requires ValidStack(s) && CompleteSetup(s, w, env, w') && LastDeployed(s, env, k, c)
    requires s.provider.GethNode? || s.provider.BesuNode? || s.provider.QuorumNode?
    requires i < |s.members| && s.tokenProviders[k] == ERC20ERC721
    requires c.name == "erc20erc721_TokenFactory_" + Digits(k) && c.address != ""
    ensures Shows(w'.disk.compose, Tokens(i, k), FACTORY_CONTRACT_ADDRESS, c.address)
  {
    var s', x := StackWithContracts(s, w, env, w', k, c);
    FactoryInFile(s', i, k, c.name, x);
  }

  lemma FactoryInFile(s: Stack, i: nat, k: nat, name: string, x: nat)
    requires ValidStack(s) && (s.provider.GethNode? || s.provider.BesuNode? || s.provider.QuorumNode?)
    requires i < |s.members| && k < |s.tokenProviders| && s.tokenProviders[k] == ERC20ERC721
    requires name == "erc20erc721_TokenFactory_" + Digits(k) && LastOfName(s.deployed, name, x) && s.deployed[x].address != ""
    ensures Shows(Written(Assembled(s)), Tokens(i, k), FACTORY_CONTRACT_ADDRESS, s.deployed[x].address)
  {
    TokensThere(s, i, k);
    var factory, contract := VariablesExactly(s, Tokens(i, k), FACTORY_CONTRACT_ADDRESS);
    AddressUnique(s.deployed, name, factory, x);
    FactorySet(s, Assembled(s)[Tokens(i, k)].body.environment, i, k, factory, contract);
  }

  lemma TokensThere(s: Stack, i: nat, k: nat)
    requires ValidStack(s) && i < |s.members| && k < |s.tokenProviders|
    ensures Tokens(i, k) in Assembled(s)
  {
    AssembledExact(s, Tokens(i, k));
  }

  lemma FactorySet(s: Stack, variables: Environment, i: nat, k: nat, factory: string, contract: string)
    requires DeploysFactories(s.provider) && factory != "" && RunsTokens(s, Tokens(i, k), ERC20ERC721)
    requires FollowsCli(s, variables, FACTORY_CONTRACT_ADDRESS, CliValue(s, Tokens(i, k), FACTORY_CONTRACT_ADDRESS, factory, contract))
    ensures FACTORY_CONTRACT_ADDRESS in variables && variables[FACTORY_CONTRACT_ADDRESS] == Text(factory)
  {
  }

  lemma ContractSet(s: Stack, variables: Environment, i: nat, k: nat, factory: string, contract: string)
    requires RunsTokens(s, Tokens(i, k), ERC1155) && CONTRACT_ADDRESS !in s.environment
    requires FollowsCli(s, variables, CONTRACT_ADDRESS, CliValue(s, Tokens(i, k), CONTRACT_ADDRESS, factory, contract))
    ensures CONTRACT_ADDRESS in variables && variables[CONTRACT_ADDRESS] == Text(contract)
  {
  }

  /** ERC1155 providers deploy under one name. So the services of all of them have the address of the last one's contract,
      unless the user gives another. */
  lemma LastContractReachesAll(s: Stack, w: World, env: Stage -> Outcome, w': World, i: nat, m: nat, k: nat, c: DeployedContract)
    requires ValidStack(s) && CompleteSetup(s, w, env, w') && LastDeployed(s, env, k, c)
    requires s.provider.GethNode? || s.provider.BesuNode? || s.provider.QuorumNode?
    requires i < |s.members| && m < |s.tokenProviders| && s.tokenProviders[m] == ERC1155
    requires c.name == "ERC1155MixedFungible" && CONTRACT_ADDRESS !in s.environment
    ensures Shows(w'.disk.compose, Tokens(i, m), CONTRACT_ADDRESS, c.address)
  {
    var s', x := StackWithContracts(s, w, env, w', k, c);
    ContractInFile(s', i, m, x);
  }

  lemma ContractInFile(s: Stack, i: nat, k: nat, x: nat)
    requires ValidStack(s) && i < |s.members| && k < |s.tokenProviders| && s.tokenProviders[k] == ERC1155
    requires LastOfName(s.deployed, "ERC1155MixedFungible", x) && CONTRACT_ADDRESS !in s.environment
    ensures Shows(Written(Assembled(s)), Tokens(i, k), CONTRACT_ADDRESS, s.deployed[x].address)
  {
    TokensThere(s, i, k);
    var factory, contract := VariablesExactly(s, Tokens(i, k), CONTRACT_ADDRESS);
    AddressUnique(s.deployed, "ERC1155MixedFungible", contract, x);
    ContractSet(s, Assembled(s)[Tokens(i, k)].body.environment, i, k, factory, contract);
  }
}
