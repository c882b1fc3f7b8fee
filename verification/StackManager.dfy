/** The commands of the stack manager as they run, step after step with early returns; each is shown to do what
    LifecycleSpec says of it. internal/stacks/stack_manager.go. */
module StackManagers {
  import opened Wrappers
  import opened Names
  import opened Types
  import opened ComposeSpec
  import opened ComposeFacts
  import opened ComposeExact
  import opened LifecycleSpec
  import opened Lifecycle
  import Compose

  class StackManager {
    const stack: Stack
    var disk: Disk
    var accounts: seq<Option<Account>>
    var deployed: seq<DeployedContract>
    /** contractDeploymentResult, a local variable of runFirstTimeSetup. */
    var contract: Option<DeployedContract>

    ghost predicate Valid() {
      ValidStack(stack) && ManifestComplete(stack)
    }

    ghost function State(): World
      reads this
    {
      World(disk, accounts, deployed, contract)
    }

    /** LoadStack of a stack on disk; the file may turn out unreadable. */
    constructor (stack: Stack, disk: Disk)
      ensures this.stack == stack && this.disk == disk && accounts == [] && deployed == [] && contract == None
    {
      this.stack, this.disk, this.accounts, this.deployed, this.contract := stack, disk, [], [], None;
    }

    method LoadState() returns (ok: bool)
      modifies this
      ensures ok <==> Load(old(disk)).Some?
      ensures ok ==> Load(old(disk)) == Some(State())
      ensures disk == old(disk)
    {
      accounts, deployed, contract := [], [], None;
      if disk.runtime {
        match disk.state {
          case State(savedAccounts, savedContracts) =>
            accounts, deployed := savedAccounts, savedContracts;
          case DamagedState =>
            return false;
          case NoState =>
        }
      }
      return true;
    }

    /** One step that the outside world decides about. */
    method Do(stage: Stage, env: Stage -> Outcome) returns (status: Status)
      requires Valid()
      modifies this
      ensures (State(), status) == Run(stack, old(State()), [stage], env)
    {
      var outcome := env(stage);
      if stage.ReadLocation? && contract.None? {
        return Panicked;
      }
      var w := Apply(stack, World(disk, accounts, deployed, contract), stage, outcome);
      disk, accounts, deployed, contract := w.disk, w.accounts, w.deployed, w.contract;
      if outcome.Failed? && !stage.ReadLocation? {
        status := Stopped(stage, outcome.error);
      } else {
        status := Completed;
      }
    }

    /** writeDockerCompose of a compose file as it was built. */
    method WriteDockerCompose(compose: Compose.DockerComposeConfig, stage: Stage, env: Stage -> Outcome) returns (status: Status)
      requires Valid() && (stage.WriteDisabled? || stage.WriteEnabled?)
      requires compose.Shapes == BuiltFor(stack, deployed, stage)
      modifies this
      ensures (State(), status) == Run(stack, old(State()), [stage], env)
      ensures status == Completed ==> disk.compose == Written(old(compose.Shapes))
    {
      WrittenAsBuilt(stack, State(), stage, env);
      status := Do(stage, env);
    }

    method DisableFireflyCoreContainers(env: Stage -> Outcome) returns (status: Status)
      requires Valid()
      modifies this
      ensures (State(), status) == Run(stack, old(State()), [WriteDisabled], env)
    {
      var now := stack.(deployed := deployed);
      assert ManifestComplete(now) && ValidStack(now);
      var compose := Compose.DisableFireflyCoreContainers(now);
      status := WriteDockerCompose(compose, WriteDisabled, env);
    }

    method EnableFireflyCoreContainers(env: Stage -> Outcome) returns (status: Status)
      requires Valid()
      modifies this
      ensures (State(), status) == Run(stack, old(State()), [WriteEnabled], env)
    {
      var now := stack.(deployed := deployed);
      assert ManifestComplete(now) && ValidStack(now);
      var compose := Compose.BuildDockerCompose(now);
      status := WriteDockerCompose(compose, WriteEnabled, env);
    }

    // ---------------------------------------------------------------- first-time setup

    method RunStartupSequence(round: nat, env: Stage -> Outcome) returns (status: Status)
      requires Valid()
      modifies this
      ensures (State(), status) == Run(stack, old(State()), Startup(round), env)
    {
      RunConcat(stack, State(), [PreStart(round)], [Up(round), PostStart(round)], env);
      status := Do(PreStart(round), env);
      if status != Completed {
        return;
      }
      RunConcat(stack, State(), [Up(round)], [PostStart(round)], env);
      status := Do(Up(round), env);
      if status != Completed {
        return;
      }
      status := Do(PostStart(round), env);
    }

    method CopyDataExchangeConfigToVolumes(env: Stage -> Outcome) returns (status: Status)
      requires Valid()
      modifies this
      ensures (State(), status) == Run(stack, old(State()), ExchangeStages(|stack.members|), env)
    {
      status := Completed;
      ghost var w0, n := State(), |stack.members|;
      for i := 0 to |stack.members|
        invariant Run(stack, w0, ExchangeStages(i), env) == (State(), Completed)
        invariant status == Completed
      {
        RunConcat(stack, w0, ExchangeStages(i), [CopyExchange(i)], env);
        status := Do(CopyExchange(i), env);
        if status != Completed {
          ExchangePrefix(i + 1, n);
          StopsEarly(stack, w0, ExchangeStages(i + 1), ExchangeStages(n), env);
          return;
        }
      }
    }

    method Prepare(env: Stage -> Outcome) returns (status: Status)
      requires Valid()
      modifies this
      ensures (State(), status) == Run(stack, old(State()), PrepareStages(stack), env)
    {
      ghost var prometheus := if stack.prometheusEnabled then [CopyPrometheus] else [];
      ghost var rest3 := ExchangeStages(|stack.members|) + [Pull];
      ghost var rest2 := prometheus + rest3;
      ghost var rest1 := [ProviderSetup] + rest2;
      assert PrepareStages(stack) == [CopyInit] + ([WriteDisabled] + rest1);

      RunConcat(stack, State(), [CopyInit], [WriteDisabled] + rest1, env);
      status := Do(CopyInit, env);
      if status != Completed {
        return;
      }
      RunConcat(stack, State(), [WriteDisabled], rest1, env);
      status := DisableFireflyCoreContainers(env);
      if status != Completed {
        return;
      }
      RunConcat(stack, State(), [ProviderSetup], rest2, env);
      status := Do(ProviderSetup, env);
      if status != Completed {
        return;
      }
      status := CopyConfigsAndPull(env);
    }

    method CopyConfigsAndPull(env: Stage -> Outcome) returns (status: Status)
      requires Valid()
      modifies this
      ensures (State(), status) == Run(stack, old(State()),
                (if stack.prometheusEnabled then [CopyPrometheus] else []) + (ExchangeStages(|stack.members|) + [Pull]), env)
    {
      ghost var exchange := ExchangeStages(|stack.members|);
      if stack.prometheusEnabled {
        RunConcat(stack, State(), [CopyPrometheus], exchange + [Pull], env);
        status := Do(CopyPrometheus, env);
        if status != Completed {
          return;
        }
      } else {
        assert [] + (exchange + [Pull]) == exchange + [Pull];
      }
      RunConcat(stack, State(), exchange, [Pull], env);
      status := CopyDataExchangeConfigToVolumes(env);
      if status != Completed {
        return;
      }
      status := Do(Pull, env);
    }

    method DeploySmartContracts(env: Stage -> Outcome) returns (status: Status)
      requires Valid()
      modifies this
      ensures (State(), status) == Run(stack, old(State()), TokenStages(|stack.tokenProviders|), env)
    {
      status := Completed;
      ghost var w0, n := State(), |stack.tokenProviders|;
      for k := 0 to |stack.tokenProviders|
        invariant Run(stack, w0, TokenStages(k), env) == (State(), Completed)
        invariant status == Completed
      {
        RunConcat(stack, w0, TokenStages(k), [DeployTokens(k)], env);
        status := Do(DeployTokens(k), env);
        if status != Completed {
          TokensPrefix(k + 1, n);
          StopsEarly(stack, w0, TokenStages(k + 1), TokenStages(n), env);
          return;
        }
      }
    }

    /** The token contracts, then the FireFly contract. */
    method DeployContracts(env: Stage -> Outcome) returns (status: Status)
      requires Valid()
      modifies this
      ensures (State(), status) == Run(stack, old(State()), DeployStages(stack), env)
    {
      ghost var own := if NeedsContract(stack) then [DeployFireFly] else [];
      ghost var tokens := if TokenFactoriesDisabled(stack.provider) then [] else TokenStages(|stack.tokenProviders|);
      RunConcat(stack, State(), tokens, own, env);
      status := Completed;
      if !TokenFactoriesDisabled(stack.provider) {
        status := DeploySmartContracts(env);
        if status != Completed {
          return;
        }
      }
      if stack.multiparty && stack.contractAddress == "" {
        status := Do(DeployFireFly, env);
      }
    }

    /** One turn of the member loop: a missing contract shows here, where its location is read. */
    method ConfigureMember(i: nat, env: Stage -> Outcome) returns (status: Status)
      requires Valid()
      modifies this
      ensures (State(), status) == Run(stack, old(State()),
                (if NeedsContract(stack) then [ReadLocation(i)] else [])
                + [PatchConfig(i), CreateCoreVolume(i), MkdirCore(i)], env)
    {
      ghost var rest := [PatchConfig(i), CreateCoreVolume(i), MkdirCore(i)];
      ghost var location := if NeedsContract(stack) then [ReadLocation(i)] else [];
      RunConcat(stack, State(), location, rest, env);
      if stack.multiparty && stack.contractAddress == "" {
        status := Do(ReadLocation(i), env);
        if status != Completed {
          return;
        }
      }
      RunConcat(stack, State(), [PatchConfig(i)], [CreateCoreVolume(i), MkdirCore(i)], env);
      status := Do(PatchConfig(i), env);
      if status != Completed {
        return;
      }
      RunConcat(stack, State(), [CreateCoreVolume(i)], [MkdirCore(i)], env);
      status := Do(CreateCoreVolume(i), env);
      if status != Completed {
        return;
      }
      status := Do(MkdirCore(i), env);
    }

    method ConfigureMembers(env: Stage -> Outcome) returns (status: Status)
      requires Valid()
      modifies this
      ensures (State(), status) == Run(stack, old(State()), MemberStages(stack, |stack.members|), env)
    {
      status := Completed;
      ghost var w0, n := State(), |stack.members|;
      for i := 0 to |stack.members|
        invariant Run(stack, w0, MemberStages(stack, i), env) == (State(), Completed)
        invariant status == Completed
      {
        ghost var turn := (if NeedsContract(stack) then [ReadLocation(i)] else [])
                          + [PatchConfig(i), CreateCoreVolume(i), MkdirCore(i)];
        assert MemberStages(stack, i + 1) == MemberStages(stack, i) + turn;
        RunConcat(stack, w0, MemberStages(stack, i), turn, env);
        status := ConfigureMember(i, env);
        if status != Completed {
          MembersPrefix(stack, i + 1, n);
          StopsEarly(stack, w0, MemberStages(stack, i + 1), MemberStages(stack, n), env);
          return;
        }
      }
    }

    method RestartContainers(env: Stage -> Outcome) returns (status: Status)
      requires Valid()
      modifies this
      ensures (State(), status) == Run(stack, old(State()), RestartStages(), env)
    {
      ghost var rest := Startup(1) + [NodesUp(0)];
      assert RestartStages() == [WriteEnabled] + ([StopAll] + rest);
      RunConcat(stack, State(), [WriteEnabled], [StopAll] + rest, env);
      status := EnableFireflyCoreContainers(env);
      if status != Completed {
        return;
      }
      RunConcat(stack, State(), [StopAll], rest, env);
      status := Do(StopAll, env);
      if status != Completed {
        return;
      }
      RunConcat(stack, State(), Startup(1), [NodesUp(0)], env);
      status := RunStartupSequence(1, env);
      if status != Completed {
        return;
      }
      status := Do(NodesUp(0), env);
    }

    method InitializeTokens(env: Stage -> Outcome) returns (status: Status)
      requires Valid()
      modifies this
      ensures (State(), status) == Run(stack, old(State()), InitTokensStages(|stack.tokenProviders|), env)
    {
      status := Completed;
      ghost var w0, n := State(), |stack.tokenProviders|;
      for k := 0 to |stack.tokenProviders|
        invariant Run(stack, w0, InitTokensStages(k), env) == (State(), Completed)
        invariant status == Completed
      {
        RunConcat(stack, w0, InitTokensStages(k), [InitTokens(k)], env);
        status := Do(InitTokens(k), env);
        if status != Completed {
          InitTokensPrefix(k + 1, n);
          StopsEarly(stack, w0, InitTokensStages(k + 1), InitTokensStages(n), env);
          return;
        }
      }
    }

    method Finish(env: Stage -> Outcome) returns (status: Status)
      requires Valid()
      modifies this
      ensures (State(), status) == Run(stack, old(State()), FinalStages(stack), env)
    {
      ghost var tokens := InitTokensStages(|stack.tokenProviders|);
      if stack.multiparty {
        if stack.contractAddress == "" {
          assert FinalStages(stack) == [Register] + (tokens + [WriteState]);
          RunConcat(stack, State(), [Register], tokens + [WriteState], env);
          status := Do(Register, env);
          if status != Completed {
            return;
          }
        } else {
          return Completed;
        }
      } else {
        assert FinalStages(stack) == tokens + [WriteState];
      }
      RunConcat(stack, State(), tokens, [WriteState], env);
      status := InitializeTokens(env);
      if status != Completed {
        return;
      }
      status := Do(WriteState, env);
    }

    method RunFirstTimeSetup(env: Stage -> Outcome) returns (status: Status)
      requires Valid()
      modifies this
      ensures (State(), status) == Setup(stack, old(State()), env)
    {
      CollectAccounts();
      contract := None;
      ghost var rest4 := RestartStages() + FinalStages(stack);
      ghost var rest3 := MemberStages(stack, |stack.members|) + rest4;
      ghost var rest2 := DeployStages(stack) + rest3;
      ghost var rest1 := Startup(0) + rest2;

      RunConcat(stack, State(), PrepareStages(stack), rest1, env);
      status := Prepare(env);
      if status != Completed {
        return;
      }
      RunConcat(stack, State(), Startup(0), rest2, env);
      status := RunStartupSequence(0, env);
      if status != Completed {
        return;
      }
      RunConcat(stack, State(), DeployStages(stack), rest3, env);
      status := DeployContracts(env);
      if status != Completed {
        return;
      }
      RunConcat(stack, State(), MemberStages(stack, |stack.members|), rest4, env);
      status := ConfigureMembers(env);
      if status != Completed {
        return;
      }
      RunConcat(stack, State(), RestartStages(), FinalStages(stack), env);
      status := RestartContainers(env);
      if status != Completed {
        return;
      }
      status := Finish(env);
      if status == Completed {
        disk := disk.(completed := true);
      }
    }

    method CollectAccounts()
      modifies `accounts
      ensures accounts == old(accounts) + MemberAccounts(stack.members)
    {
      assert stack.members[..|stack.members|] == stack.members;
      for i := 0 to |stack.members|
        invariant accounts == old(accounts) + MemberAccounts(stack.members[..i])
      {
        assert stack.members[..i + 1][..i] == stack.members[..i];
        if stack.members[i].account.Some? {
          accounts := accounts + [stack.members[i].account];
        }
      }
    }

    // ---------------------------------------------------------------- commands

    method RemoveVolumes(order: seq<VolumeId>, env: Stage -> Outcome) returns (status: Status)
      requires Valid() && IsOrder(stack, order)
      modifies `disk
      ensures var (volumes, result) := RemoveList(old(disk.volumes), VolumeList(stack, order), env);
              disk == old(disk).(volumes := volumes) && status == result
    {
      var list := CollectVolumes(stack, order);
      status := Completed;
      for k := 0 to |list|
        invariant disk == old(disk).(volumes := disk.volumes)
        invariant RemoveList(disk.volumes, list[k..], env) == RemoveList(old(disk.volumes), list, env)
      {
        assert list[k..][0] == list[k] && list[k..][1..] == list[k + 1..];
        if list[k] in disk.volumes {
          var outcome := env(RemoveVolume(list[k]));
          if outcome.Failed? {
            return Stopped(RemoveVolume(list[k]), outcome.error);
          }
          disk := disk.(volumes := disk.volumes - {list[k]});
        }
      }
    }

    method ResetStack(order: seq<VolumeId>, env: Stage -> Outcome) returns (status: Status)
      requires Valid() && IsOrder(stack, order)
      modifies this
      ensures (State(), status) == Reset(stack, old(State()), order, env)
    {
      RunConcat(stack, State(), [Down], [RemoveRuntime], env);
      status := Do(Down, env);
      if status != Completed {
        return;
      }
      status := Do(RemoveRuntime, env);
      if status != Completed {
        return;
      }
      status := RemoveVolumes(order, env);
    }

    method CheckBeforeStart(env: Stage -> Outcome) returns (status: Status)
      requires Valid()
      modifies this
      ensures (State(), status) == Run(stack, old(State()), Checks(), env)
    {
      RunConcat(stack, State(), [CheckPorts], [Stat], env);
      status := Do(CheckPorts, env);
      if status != Completed {
        return;
      }
      status := Do(Stat, env);
    }

    method StartAgain(env: Stage -> Outcome) returns (status: Status)
      requires Valid()
      modifies this
      ensures (State(), status) == Restart(stack, old(State()), env)
    {
      RunConcat(stack, State(), Startup(2), [NodesUp(1)], env);
      status := RunStartupSequence(2, env);
      if status == Completed {
        status := Do(NodesUp(1), env);
      }
    }

    method StartStack(noRollback: bool, order: seq<VolumeId>, env: Stage -> Outcome) returns (ending: Ending)
      requires Valid() && IsOrder(stack, order)
      modifies this
      ensures (State(), ending) == Start(stack, old(State()), noRollback, order, env)
    {
      var status := CheckBeforeStart(env);
      if status != Completed {
        return EndingOf(status);
      }
      if !disk.runtime {
        status := RunFirstTimeSetup(env);
        ending := EndSetup(status, noRollback, order, env);
      } else {
        status := StartAgain(env);
        ending := EndingOf(status);
      }
    }

    method EndSetup(setup: Status, noRollback: bool, order: seq<VolumeId>, env: Stage -> Outcome) returns (ending: Ending)
      requires Valid() && IsOrder(stack, order)
      modifies this
      ensures (State(), ending) == AfterSetup(stack, old(State()), setup, noRollback, order, env)
    {
      match setup {
        case Panicked => ending := Crashed;
        case Stopped(_, error) =>
          if noRollback {
            ending := NotStarted(error);
          } else {
            var status := ResetStack(order, env);
            ending := if status.Stopped? then RollbackFailed(error, status.error) else RolledBack(error);
          }
        case Completed =>
          var status := Do(NodesUp(1), env);
          ending := EndingOf(status);
      }
    }
  }

  /** The volume names removeVolumes goes through: those of the definitions, then those of the compose file in the order
      in which Go happens to list them. */
  method CollectVolumes(s: Stack, order: seq<VolumeId>) returns (list: seq<VolumeId>)
    requires ValidStack(s) && ManifestComplete(s) && IsOrder(s, order)
    ensures list == VolumeList(s, order)
  {
    list := CollectServiceVolumes(s);
    var compose := Compose.CreateDockerCompose(s);
    assert SetOf(order) == compose.volumes;
    list := list + order;
  }

  method CollectServiceVolumes(s: Stack) returns (list: seq<VolumeId>)
    requires ValidStack(s)
    ensures list == PlanVolumeList(ExtraPlan(s))
  {
    var definitions := Compose.ExtraDefinitions(s);
    list := ConcatVolumes(definitions, ExtraPlan(s));
  }

  method ConcatVolumes(definitions: seq<Compose.ServiceDefinition>, ghost plan: seq<Definition>) returns (list: seq<VolumeId>)
    requires Compose.Delivers(definitions, plan)
    ensures list == PlanVolumeList(plan)
  {
    list := [];
    for j := 0 to |definitions|
      invariant list == PlanVolumeList(plan[..j])
    {
      assert plan[..j + 1][..j] == plan[..j];
      assert Compose.View(definitions[j]) == plan[j];
      list := list + definitions[j].volumes;
    }
    assert plan[..|definitions|] == plan;
  }

  /** The services of the compose file that a step writes. */
  function BuiltFor(s: Stack, deployed: seq<DeployedContract>, stage: Stage): map<ServiceId, Shape>
    requires ValidStack(s)
  {
    var now := WithDeployed(s, deployed);
    if stage.WriteDisabled? then Disabled(now, Assembled(now), |now.members|) else Assembled(now)
  }

  lemma WrittenAsBuilt(s: Stack, w: World, stage: Stage, env: Stage -> Outcome)
    requires ValidStack(s) && (stage.WriteDisabled? || stage.WriteEnabled?)
    ensures var (w', status) := Run(s, w, [stage], env);
            status == Completed ==> w'.disk.compose == Written(BuiltFor(s, w.deployed, stage))
  {
    RunOne(s, w, stage, env);
    if !env(stage).Failed? { WrittenOnSuccess(s, w, stage, env(stage)); }
  }

  lemma WrittenOnSuccess(s: Stack, w: World, stage: Stage, outcome: Outcome)
    requires ValidStack(s) && (stage.WriteDisabled? || stage.WriteEnabled?) && !outcome.Failed?
    ensures Apply(s, w, stage, outcome).disk.compose == Written(BuiltFor(s, w.deployed, stage))
  {
  }

  lemma StopsEarly(s: Stack, w: World, a: seq<Stage>, b: seq<Stage>, env: Stage -> Outcome)
    requires ValidStack(s) && a <= b && Run(s, w, a, env).1 != Completed
    ensures Run(s, w, b, env) == Run(s, w, a, env)
  {
    assert b == a + b[|a|..];
    RunConcat(s, w, a, b[|a|..], env);
  }

  lemma {:induction false} ExchangePrefix(i: nat, n: nat)
    requires i <= n
    ensures ExchangeStages(i) <= ExchangeStages(n)
  {
    if i < n { ExchangePrefix(i, n - 1); }
  }

  lemma {:induction false} TokensPrefix(i: nat, n: nat)
    requires i <= n
    ensures TokenStages(i) <= TokenStages(n)
  {
    if i < n { TokensPrefix(i, n - 1); }
  }

  lemma {:induction false} InitTokensPrefix(i: nat, n: nat)
    requires i <= n
    ensures InitTokensStages(i) <= InitTokensStages(n)
  {
    if i < n { InitTokensPrefix(i, n - 1); }
  }

  lemma {:induction false} MembersPrefix(s: Stack, i: nat, n: nat)
    requires i <= n
    ensures MemberStages(s, i) <= MemberStages(s, n)
  {
    if i < n { MembersPrefix(s, i, n - 1); }
  }
}
