/** What setup, starts and resets do to a stack on disk when any of their steps may fail. */
module Lifecycle {
  import opened Wrappers
  import opened Names
  import opened Types
  import opened ComposeSpec
  import opened ComposeFacts
  import opened ComposeExact
  import opened ComposeContents
  import opened LifecycleSpec
  import opened Volumes

  // ---------------------------------------------------------------- runs

  lemma {:induction false} RunConcat(s: Stack, w: World, a: seq<Stage>, b: seq<Stage>, env: Stage -> Outcome)
    requires ValidStack(s)
    ensures var (w', status) := Run(s, w, a, env);
            Run(s, w, a + b, env) == if status == Completed then Run(s, w', b, env) else (w', status)
    decreases |a|
  {
    if a == [] {
      assert a + b == b;
    } else {
      assert (a + b)[1..] == a[1..] + b;
      RunConcat(s, Apply(s, w, a[0], env(a[0])), a[1..], b, env);
    }
  }

  lemma RunOne(s: Stack, w: World, stage: Stage, env: Stage -> Outcome)
    requires ValidStack(s) && !stage.ReadLocation?
    ensures Run(s, w, [stage], env) == (Apply(s, w, stage, env(stage)),
                                        if env(stage).Failed? then Stopped(stage, env(stage).error) else Completed)
  {
    var w' := Apply(s, w, stage, env(stage));
    assert [stage][1..] == [] && Run(s, w', [], env) == (w', Completed);
  }

  /** Steps that write neither to the runtime directory nor to the compose file, and deploy nothing. */
  predicate Quiet(stages: seq<Stage>) {
    forall k :: 0 <= k < |stages| ==> !Touches(stages[k])
  }

  predicate SameButVolumes(w: World, w': World) {
    w' == w.(disk := w.disk.(volumes := w'.disk.volumes))
  }

  lemma {:induction false} RunQuiet(s: Stack, w: World, stages: seq<Stage>, env: Stage -> Outcome)
    requires ValidStack(s) && Quiet(stages)
    ensures SameButVolumes(w, Run(s, w, stages, env).0)
    decreases |stages|
  {
    if stages != [] {
      RunQuiet(s, Apply(s, w, stages[0], env(stages[0])), stages[1..], env);
    }
  }

  /** Accounts are never changed by a step. */
  lemma {:induction false} RunAccounts(s: Stack, w: World, stages: seq<Stage>, env: Stage -> Outcome)
    requires ValidStack(s)
    ensures Run(s, w, stages, env).0.accounts == w.accounts
    decreases |stages|
  {
    if stages != [] {
      RunAccounts(s, Apply(s, w, stages[0], env(stages[0])), stages[1..], env);
    }
  }

  // ---------------------------------------------------------------- the parts of first-time setup

  lemma {:induction false} ExchangeQuiet(n: nat)
    ensures Quiet(ExchangeStages(n))
  {
    if n > 0 { ExchangeQuiet(n - 1); }
  }

  lemma {:induction false} MembersQuiet(s: Stack, n: nat)
    ensures Quiet(MemberStages(s, n))
  {
    if n > 0 { MembersQuiet(s, n - 1); }
  }

  lemma {:induction false} InitTokensQuiet(n: nat)
    ensures Quiet(InitTokensStages(n))
  {
    if n > 0 { InitTokensQuiet(n - 1); }
  }

  /** After the first step has failed there may be half a runtime directory; after it there is one. */
  lemma PrepareEffect(s: Stack, w: World, env: Stage -> Outcome)
    requires ValidStack(s)
    ensures var (w', status) := Run(s, w, PrepareStages(s), env);
            && !w'.disk.completed && w'.deployed == w.deployed && w'.contract == w.contract
            && (env(CopyInit).Failed? ==>
                  && status == Stopped(CopyInit, env(CopyInit).error)
                  && w'.disk.runtime == env(CopyInit).leftover.runtime)
            && (!env(CopyInit).Failed? ==>
                  w'.disk.runtime && w'.disk.state == InitState(s) && !(status.Stopped? && status.stage == CopyInit))
            && !status.Panicked?
            && (status == Completed ==>
                  var now := WithDeployed(s, w.deployed);
                  w'.disk.compose == Written(Disabled(now, Assembled(now), |s.members|)))
  {
    var first := [CopyInit, WriteDisabled];
    var rest := [ProviderSetup] + (if s.prometheusEnabled then [CopyPrometheus] else []) + ExchangeStages(|s.members|) + [Pull];
    assert PrepareStages(s) == first + rest;
    RunConcat(s, w, first, rest, env);
    CopyAndDisable(s, w, env);
    CopiesAndPull(s, Run(s, w, first, env).0, rest, env);
  }

  /** From the provider's setup to the pull nothing but volumes changes. */
  lemma CopiesAndPull(s: Stack, w: World, stages: seq<Stage>, env: Stage -> Outcome)
    requires ValidStack(s)
    requires stages == [ProviderSetup] + (if s.prometheusEnabled then [CopyPrometheus] else [])
                       + ExchangeStages(|s.members|) + [Pull]
    ensures var (w', status) := Run(s, w, stages, env);
            SameButVolumes(w, w') && !status.Panicked? && !(status.Stopped? && status.stage == CopyInit)
  {
    assert Quiet(stages) && ReadsNoLocation(stages) by { ExchangeOnly(|s.members|); }
    assert CopyInit !in stages by { ExchangeOnly(|s.members|); }
    RunQuiet(s, w, stages, env);
    StopsAmong(s, w, stages, env);
  }

  lemma {:induction false} ExchangeOnly(n: nat)
    ensures forall k :: 0 <= k < |ExchangeStages(n)| ==> ExchangeStages(n)[k].CopyExchange?
  {
    if n > 0 { ExchangeOnly(n - 1); }
  }

  lemma CopyAndDisable(s: Stack, w: World, env: Stage -> Outcome)
    requires ValidStack(s)
    ensures var (w', status) := Run(s, w, [CopyInit, WriteDisabled], env);
            && !w'.disk.completed && w'.deployed == w.deployed && w'.contract == w.contract
            && (env(CopyInit).Failed? ==>
                  && status == Stopped(CopyInit, env(CopyInit).error)
                  && w'.disk.runtime == env(CopyInit).leftover.runtime)
            && (!env(CopyInit).Failed? ==>
                  && w'.disk.runtime && w'.disk.state == InitState(s)
                  && (status == Completed || (status.Stopped? && status.stage == WriteDisabled)))
            && (status == Completed ==>
                  var now := WithDeployed(s, w.deployed);
                  w'.disk.compose == Written(Disabled(now, Assembled(now), |s.members|)))
  {
    var w1 := Apply(s, w, CopyInit, env(CopyInit));
    assert [CopyInit, WriteDisabled][1..] == [WriteDisabled];
    if !env(CopyInit).Failed? {
      assert Run(s, w, [CopyInit, WriteDisabled], env) == Run(s, w1, [WriteDisabled], env);
      assert [WriteDisabled][1..] == [];
    }
  }

  /** A run stops at one of its own steps, and only a missing contract makes it panic. */
  lemma {:induction false} StopsAmong(s: Stack, w: World, stages: seq<Stage>, env: Stage -> Outcome)
    requires ValidStack(s)
    ensures var (w', status) := Run(s, w, stages, env);
            && (status.Stopped? ==> status.stage in stages && !status.stage.ReadLocation? && env(status.stage).Failed?
                                    && status.error == env(status.stage).error)
            && (status.Panicked? ==> exists k :: 0 <= k < |stages| && stages[k].ReadLocation?)
    decreases |stages|
  {
    if stages != [] {
      var next := Apply(s, w, stages[0], env(stages[0]));
      StopsAmong(s, next, stages[1..], env);
      if Run(s, next, stages[1..], env).1.Panicked? {
        var k :| 0 <= k < |stages[1..]| && stages[1..][k].ReadLocation?;
        assert stages[k + 1].ReadLocation?;
      }
    }
  }

  function ResultOf(outcome: Outcome): seq<DeployedContract> {
    if outcome.Deployed? then [outcome.contract] else []
  }

  /** What the first k token providers deployed, in order. */
  function TokenResults(env: Stage -> Outcome, k: nat): seq<DeployedContract> {
    if k == 0 then [] else TokenResults(env, k - 1) + ResultOf(env(DeployTokens(k - 1)))
  }

  lemma {:induction false} TokensEffect(s: Stack, w: World, n: nat, env: Stage -> Outcome)
    requires ValidStack(s)
    ensures var (w', status) := Run(s, w, TokenStages(n), env);
            && w'.disk == w.disk && w'.contract == w.contract
            && (status == Completed ==> w'.deployed == w.deployed + TokenResults(env, n))
  {
    if n > 0 {
      TokensEffect(s, w, n - 1, env);
      RunConcat(s, w, TokenStages(n - 1), [DeployTokens(n - 1)], env);
      var w1 := Run(s, w, TokenStages(n - 1), env).0;
      assert Run(s, w1, [DeployTokens(n - 1)], env).0 == Apply(s, w1, DeployTokens(n - 1), env(DeployTokens(n - 1)));
    }
  }

  /** The contracts a complete setup deploys: the token providers', unless they have no factory, then FireFly's own. */
  function SetupResults(s: Stack, env: Stage -> Outcome): seq<DeployedContract> {
    (if TokenFactoriesDisabled(s.provider) then [] else TokenResults(env, |s.tokenProviders|))
    + if NeedsContract(s) then ResultOf(env(DeployFireFly)) else []
  }

  lemma DeployEffect(s: Stack, w: World, env: Stage -> Outcome)
    requires ValidStack(s) && w.contract == None
    ensures var (w', status) := Run(s, w, DeployStages(s), env);
            && w'.disk == w.disk
            && (status == Completed ==> w'.deployed == w.deployed + SetupResults(s, env))
            && (status == Completed ==> (w'.contract.Some? <==> NeedsContract(s) && env(DeployFireFly).Deployed?))
  {
    var tokens := if TokenFactoriesDisabled(s.provider) then [] else TokenStages(|s.tokenProviders|);
    var own := if NeedsContract(s) then [DeployFireFly] else [];
    RunConcat(s, w, tokens, own, env);
    TokensEffect(s, w, |s.tokenProviders|, env);
    var w1 := Run(s, w, tokens, env).0;
    if NeedsContract(s) {
      assert Run(s, w1, own, env).0 == Apply(s, w1, DeployFireFly, env(DeployFireFly));
    }
  }

  lemma RestartEffect(s: Stack, w: World, env: Stage -> Outcome)
    requires ValidStack(s)
    ensures var (w', status) := Run(s, w, RestartStages(), env);
            && w'.deployed == w.deployed && w'.disk.runtime == w.disk.runtime && w'.disk.completed == w.disk.completed
            && w'.disk.state == w.disk.state
            && (status == Completed ==> w'.disk.compose == Written(Assembled(WithDeployed(s, w.deployed))))
  {
    RestartSplits();
    RunConcat(s, w, [WriteEnabled], ContainersAgain(), env);
    WriteEnabledEffect(s, w, env);
    RunQuiet(s, Run(s, w, [WriteEnabled], env).0, ContainersAgain(), env);
  }

  function ContainersAgain(): seq<Stage> {
    [StopAll] + Startup(1) + [NodesUp(0)]
  }

  lemma RestartSplits()
    ensures RestartStages() == [WriteEnabled] + ContainersAgain() && Quiet(ContainersAgain())
    ensures CopyInit !in RestartStages()
  {
  }

  lemma WriteEnabledEffect(s: Stack, w: World, env: Stage -> Outcome)
    requires ValidStack(s)
    ensures var (w', status) := Run(s, w, [WriteEnabled], env);
            && w' == w.(disk := w.disk.(compose := w'.disk.compose))
            && (status == Completed ==> w'.disk.compose == Written(Assembled(WithDeployed(s, w.deployed))))
  {
    RunOne(s, w, WriteEnabled, env);
  }

  predicate Preset(s: Stack) {
    s.multiparty && s.contractAddress != ""
  }

  lemma FinalEffect(s: Stack, w: World, env: Stage -> Outcome)
    requires ValidStack(s)
    ensures var (w', status) := Run(s, w, FinalStages(s), env);
            && w'.deployed == w.deployed && w'.accounts == w.accounts
            && w'.disk.runtime == w.disk.runtime && w'.disk.completed == w.disk.completed && w'.disk.compose == w.disk.compose
            && (status == Completed ==> w'.disk.state == if Preset(s) then w.disk.state else State(w.accounts, w.deployed))
  {
    if !Preset(s) {
      var first := (if s.multiparty then [Register] else []) + InitTokensStages(|s.tokenProviders|);
      assert Quiet(first) by { InitTokensQuiet(|s.tokenProviders|); }
      RunConcat(s, w, first, [WriteState], env);
      RunQuiet(s, w, first, env);
      WriteStateEffect(s, Run(s, w, first, env).0, env);
    }
  }

  lemma WriteStateEffect(s: Stack, w: World, env: Stage -> Outcome)
    requires ValidStack(s)
    ensures var (w', status) := Run(s, w, [WriteState], env);
            && w' == w.(disk := w.disk.(state := w'.disk.state))
            && (status == Completed ==> w'.disk.state == State(w.accounts, w.deployed))
  {
    assert Run(s, w, [WriteState], env).0 == Apply(s, w, WriteState, env(WriteState));
  }

  // ---------------------------------------------------------------- first-time setup as a whole

  /** What a setup has achieved when it stops: before the end nothing is marked complete, and the runtime directory is
      there unless the copying of the first files failed cleanly. */
  ghost predicate SetupOutcome(s: Stack, w: World, env: Stage -> Outcome, w': World, status: Status)
    requires ValidStack(s)
  {
    && (status != Completed ==> !w'.disk.completed)
    && (status.Stopped? && status.stage == CopyInit ==>
          env(CopyInit).Failed? && w'.disk.runtime == env(CopyInit).leftover.runtime)
    && (!(status.Stopped? && status.stage == CopyInit) ==> w'.disk.runtime)
    && (status == Completed ==>
          && w'.disk.compose == Written(Assembled(WithDeployed(s, w'.deployed)))
          && w'.deployed == w.deployed + SetupResults(s, env)
          && w'.accounts == w.accounts + MemberAccounts(s.members)
          && w'.disk.state == if Preset(s) then InitState(s) else State(w'.accounts, w'.deployed))
  }

  lemma SetupEffect(s: Stack, w: World, env: Stage -> Outcome)
    requires ValidStack(s)
    ensures var (w', status) := Setup(s, w, env); SetupOutcome(s, w, env, w', status)
    ensures Setup(s, w, env).1 == Completed ==> Setup(s, w, env).0.disk.completed
  {
    var w0 := BeforeSetup(s, w);
    var rest := Startup(0) + (DeployStages(s) + (MemberStages(s, |s.members|) + (RestartStages() + FinalStages(s))));
    RunConcat(s, w0, PrepareStages(s), rest, env);
    PrepareEffect(s, w0, env);
    RunAccounts(s, w0, SetupStages(s), env);
    var (w1, status) := Run(s, w0, PrepareStages(s), env);
    if status == Completed { AfterPrepare(s, w1, rest, env); }
  }

  lemma AfterPrepare(s: Stack, w: World, stages: seq<Stage>, env: Stage -> Outcome)
    requires ValidStack(s) && w.contract == None && w.disk.runtime && !w.disk.completed && w.disk.state == InitState(s)
    requires stages == Startup(0) + (DeployStages(s) + (MemberStages(s, |s.members|) + (RestartStages() + FinalStages(s))))
    ensures var (w', status) := Run(s, w, stages, env);
            && w'.disk.runtime && !w'.disk.completed && !(status.Stopped? && status.stage == CopyInit)
            && (status == Completed ==>
                  && w'.disk.compose == Written(Assembled(WithDeployed(s, w'.deployed)))
                  && w'.deployed == w.deployed + SetupResults(s, env)
                  && w'.disk.state == if Preset(s) then InitState(s) else State(w'.accounts, w'.deployed))
  {
    var rest := DeployStages(s) + (MemberStages(s, |s.members|) + (RestartStages() + FinalStages(s)));
    RunConcat(s, w, Startup(0), rest, env);
    RunQuiet(s, w, Startup(0), env);
    StopsAmong(s, w, Startup(0), env);
    var (w1, status) := Run(s, w, Startup(0), env);
    if status == Completed { AfterStartup(s, w1, rest, env); }
  }

  lemma {:induction false} NoCopyInTokens(n: nat)
    ensures CopyInit !in TokenStages(n) && CopyInit !in InitTokensStages(n)
  {
    if n > 0 { NoCopyInTokens(n - 1); }
  }

  lemma AfterStartup(s: Stack, w: World, stages: seq<Stage>, env: Stage -> Outcome)
    requires ValidStack(s) && w.contract == None && w.disk.runtime && !w.disk.completed && w.disk.state == InitState(s)
    requires stages == DeployStages(s) + (MemberStages(s, |s.members|) + (RestartStages() + FinalStages(s)))
    ensures var (w', status) := Run(s, w, stages, env);
            && w'.disk.runtime && !w'.disk.completed && !(status.Stopped? && status.stage == CopyInit)
            && (status == Completed ==>
                  && w'.disk.compose == Written(Assembled(WithDeployed(s, w'.deployed)))
                  && w'.deployed == w.deployed + SetupResults(s, env)
                  && w'.disk.state == if Preset(s) then InitState(s) else State(w'.accounts, w'.deployed))
  {
    var rest := MemberStages(s, |s.members|) + (RestartStages() + FinalStages(s));
    RunConcat(s, w, DeployStages(s), rest, env);
    DeployEffect(s, w, env);
    StopsAmong(s, w, DeployStages(s), env);
    NoCopyInTokens(|s.tokenProviders|);
    var (w1, status) := Run(s, w, DeployStages(s), env);
    if status == Completed { AfterDeploy(s, w1, rest, env); }
  }

  lemma {:induction false} NoCopyInMembers(s: Stack, n: nat)
    ensures CopyInit !in MemberStages(s, n)
  {
    if n > 0 { NoCopyInMembers(s, n - 1); }
  }

  lemma AfterDeploy(s: Stack, w: World, stages: seq<Stage>, env: Stage -> Outcome)
    requires ValidStack(s) && w.disk.runtime && !w.disk.completed && w.disk.state == InitState(s)
    requires stages == MemberStages(s, |s.members|) + (RestartStages() + FinalStages(s))
    ensures var (w', status) := Run(s, w, stages, env);
            && w'.disk.runtime && !w'.disk.completed && !(status.Stopped? && status.stage == CopyInit)
            && (status == Completed ==>
                  && w'.disk.compose == Written(Assembled(WithDeployed(s, w'.deployed)))
                  && w'.deployed == w.deployed
                  && w'.disk.state == if Preset(s) then InitState(s) else State(w'.accounts, w'.deployed))
  {
    var rest := RestartStages() + FinalStages(s);
    RunConcat(s, w, MemberStages(s, |s.members|), rest, env);
    MembersQuiet(s, |s.members|);
    RunQuiet(s, w, MemberStages(s, |s.members|), env);
    StopsAmong(s, w, MemberStages(s, |s.members|), env);
    NoCopyInMembers(s, |s.members|);
    var (w1, status) := Run(s, w, MemberStages(s, |s.members|), env);
    if status == Completed { AfterMembers(s, w1, env); }
  }

  lemma NoCopyInFinal(s: Stack)
    ensures CopyInit !in FinalStages(s)
  {
    NoCopyInTokens(|s.tokenProviders|);
  }

  lemma AfterMembers(s: Stack, w: World, env: Stage -> Outcome)
    requires ValidStack(s) && w.disk.runtime && !w.disk.completed && w.disk.state == InitState(s)
    ensures var (w', status) := Run(s, w, RestartStages() + FinalStages(s), env);
            && w'.disk.runtime && !w'.disk.completed && !(status.Stopped? && status.stage == CopyInit)
            && (status == Completed ==>
                  && w'.disk.compose == Written(Assembled(WithDeployed(s, w'.deployed)))
                  && w'.deployed == w.deployed
                  && w'.disk.state == if Preset(s) then InitState(s) else State(w'.accounts, w'.deployed))
  {
    RunConcat(s, w, RestartStages(), FinalStages(s), env);
    RestartEffect(s, w, env);
    FinalEffect(s, Run(s, w, RestartStages(), env).0, env);
    StopsAmong(s, w, RestartStages() + FinalStages(s), env);
    RestartSplits();
    NoCopyInFinal(s);
  }

  // ---------------------------------------------------------------- when setup completes, and when it crashes

  predicate Succeeds(stages: seq<Stage>, env: Stage -> Outcome) {
    stages == [] || ((stages[0].ReadLocation? || !env(stages[0]).Failed?) && Succeeds(stages[1..], env))
  }

  predicate ReadsNoLocation(stages: seq<Stage>) {
    forall k :: 0 <= k < |stages| ==> !stages[k].ReadLocation?
  }

  lemma {:induction false} CompletesExactly(s: Stack, w: World, stages: seq<Stage>, env: Stage -> Outcome)
    requires ValidStack(s) && (w.contract.Some? || ReadsNoLocation(stages))
    ensures Run(s, w, stages, env).1 == Completed <==> Succeeds(stages, env)
    ensures !Run(s, w, stages, env).1.Panicked?
    decreases |stages|
  {
    if stages != [] {
      var outcome := env(stages[0]);
      if !(outcome.Failed? && !stages[0].ReadLocation?) {
        CompletesExactly(s, Apply(s, w, stages[0], outcome), stages[1..], env);
      }
    }
  }

  lemma {:induction false} SucceedsBoth(a: seq<Stage>, b: seq<Stage>, env: Stage -> Outcome)
    ensures Succeeds(a + b, env) <==> Succeeds(a, env) && Succeeds(b, env)
  {
    if a == [] {
      assert a + b == b;
    } else {
      assert (a + b)[1..] == a[1..] + b;
      SucceedsBoth(a[1..], b, env);
    }
  }

  lemma SucceedsOne(stage: Stage, env: Stage -> Outcome)
    ensures Succeeds([stage], env) <==> stage.ReadLocation? || !env(stage).Failed?
  {
    assert [stage][1..] == [];
  }

  /** The deployment of the FireFly contract can end without a contract and without an error; the member loop then
      dereferences nil. */
  predicate CanPanic(s: Stack, env: Stage -> Outcome) {
    NeedsContract(s) && s.members != [] && env(DeployFireFly) == Done
  }

  /** The steps up to the member loop, and from there on. */
  function Head(s: Stack): seq<Stage> {
    PrepareStages(s) + (Startup(0) + DeployStages(s))
  }

  function Tail(s: Stack): seq<Stage> {
    MemberStages(s, |s.members|) + (RestartStages() + FinalStages(s))
  }

  lemma Reassociate(a: seq<Stage>, b: seq<Stage>, c: seq<Stage>, d: seq<Stage>)
    ensures a + (b + (c + d)) == (a + (b + c)) + d
    ensures a + (b + c) == (a + b) + c
  {
  }

  lemma SetupSplits(s: Stack)
    ensures SetupStages(s) == Head(s) + Tail(s)
    ensures Head(s) == (PrepareStages(s) + Startup(0)) + DeployStages(s)
  {
    Reassociate(PrepareStages(s), Startup(0), DeployStages(s), Tail(s));
  }

  lemma CopyComesFirst(s: Stack)
    ensures |PrepareStages(s)| > 0 && PrepareStages(s)[0] == CopyInit
  {
  }

  lemma {:induction false} TokensReadNothing(n: nat)
    ensures ReadsNoLocation(TokenStages(n)) && ReadsNoLocation(InitTokensStages(n))
  {
    if n > 0 { TokensReadNothing(n - 1); }
  }

  lemma {:induction false} MembersRead(s: Stack, n: nat)
    ensures !NeedsContract(s) ==> ReadsNoLocation(MemberStages(s, n))
    ensures NeedsContract(s) && n > 0 ==> |MemberStages(s, n)| > 0 && MemberStages(s, n)[0] == ReadLocation(0)
  {
    if n > 0 { MembersRead(s, n - 1); }
  }

  lemma HeadReadsNothing(s: Stack)
    ensures ReadsNoLocation(Head(s))
    ensures ReadsNoLocation(RestartStages() + FinalStages(s))
  {
    ExchangeOnly(|s.members|);
    TokensReadNothing(|s.tokenProviders|);
    assert ReadsNoLocation(ExchangeStages(|s.members|));
    assert ReadsNoLocation(PrepareStages(s));
    assert ReadsNoLocation(DeployStages(s));
  }

  lemma {:induction false} ContractUntouched(s: Stack, w: World, stages: seq<Stage>, env: Stage -> Outcome)
    requires ValidStack(s) && forall k :: 0 <= k < |stages| ==> stages[k] != DeployFireFly
    ensures Run(s, w, stages, env).0.contract == w.contract
    decreases |stages|
  {
    if stages != [] { ContractUntouched(s, Apply(s, w, stages[0], env(stages[0])), stages[1..], env); }
  }

  lemma HeadContract(s: Stack, w: World, env: Stage -> Outcome)
    requires ValidStack(s) && w.contract == None && Run(s, w, Head(s), env).1 == Completed
    ensures Run(s, w, Head(s), env).0.contract.Some? <==> NeedsContract(s) && env(DeployFireFly).Deployed?
    ensures NeedsContract(s) ==> !env(DeployFireFly).Failed?
  {
    var before := PrepareStages(s) + Startup(0);
    SetupSplits(s);
    RunConcat(s, w, before, DeployStages(s), env);
    NoneDeploys(s);
    ContractUntouched(s, w, before, env);
    var w' := Run(s, w, before, env).0;
    DeployEffect(s, w', env);
    DeployCompletes(s, w', env);
  }

  lemma NoneDeploys(s: Stack)
    ensures var before := PrepareStages(s) + Startup(0); forall k :: 0 <= k < |before| ==> before[k] != DeployFireFly
  {
    ExchangeOnly(|s.members|);
  }

  lemma DeployCompletes(s: Stack, w: World, env: Stage -> Outcome)
    requires ValidStack(s) && Run(s, w, DeployStages(s), env).1 == Completed
    ensures NeedsContract(s) ==> !env(DeployFireFly).Failed?
  {
    TokensReadNothing(|s.tokenProviders|);
    CompletesExactly(s, w, DeployStages(s), env);
    if NeedsContract(s) {
      SucceedsBoth(if TokenFactoriesDisabled(s.provider) then [] else TokenStages(|s.tokenProviders|), [DeployFireFly], env);
      SucceedsOne(DeployFireFly, env);
    }
  }

  /** The steps up to the contract, the member loop and some more. */
  lemma EndsExactly(s: Stack, w: World, last: seq<Stage>, env: Stage -> Outcome)
    requires ValidStack(s) && w.contract == None && ReadsNoLocation(last)
    ensures var (stages, status) := (Head(s) + (MemberStages(s, |s.members|) + last),
                                     Run(s, w, Head(s) + (MemberStages(s, |s.members|) + last), env).1);
            && (status.Panicked? <==> CanPanic(s, env) && Succeeds(Head(s), env))
            && (status == Completed <==> !CanPanic(s, env) && Succeeds(stages, env))
  {
    var tail := MemberStages(s, |s.members|) + last;
    RunConcat(s, w, Head(s), tail, env);
    HeadReadsNothing(s);
    CompletesExactly(s, w, Head(s), env);
    SucceedsBoth(Head(s), tail, env);
    if Succeeds(Head(s), env) {
      HeadContract(s, w, env);
      TailEndsExactly(s, Run(s, w, Head(s), env).0, last, env);
    }
  }

  lemma TailEndsExactly(s: Stack, w: World, last: seq<Stage>, env: Stage -> Outcome)
    requires ValidStack(s) && ReadsNoLocation(last)
    requires w.contract.Some? <==> NeedsContract(s) && env(DeployFireFly).Deployed?
    requires NeedsContract(s) ==> !env(DeployFireFly).Failed?
    ensures var tail := MemberStages(s, |s.members|) + last;
            && (Run(s, w, tail, env).1.Panicked? <==> CanPanic(s, env))
            && (Run(s, w, tail, env).1 == Completed <==> !CanPanic(s, env) && Succeeds(tail, env))
  {
    var tail := MemberStages(s, |s.members|) + last;
    MembersRead(s, |s.members|);
    if CanPanic(s, env) {
      assert tail[0] == MemberStages(s, |s.members|)[0];
    } else {
      assert w.contract.Some? || ReadsNoLocation(tail) by {
        if w.contract.None? { assert ReadsNoLocation(MemberStages(s, |s.members|)); }
      }
      CompletesExactly(s, w, tail, env);
    }
  }

  /** Setup crashes exactly if it gets as far as the contract and the contract is missing; it completes exactly if
      neither that happens nor a step fails. */
  lemma SetupEndsExactly(s: Stack, w: World, env: Stage -> Outcome)
    requires ValidStack(s)
    ensures Setup(s, w, env).1.Panicked? <==> CanPanic(s, env) && Succeeds(Head(s), env)
    ensures Setup(s, w, env).1 == Completed <==> !CanPanic(s, env) && Succeeds(SetupStages(s), env)
  {
    SetupSplits(s);
    HeadReadsNothing(s);
    EndsExactly(s, BeforeSetup(s, w), RestartStages() + FinalStages(s), env);
  }

  // ---------------------------------------------------------------- at rest

  /** The compose file starts the real cores: it is the one built for the stack, with some list of deployed contracts. */
  ghost predicate RealCores(s: Stack, compose: ComposeFile)
    requires ValidStack(s)
  {
    compose.Written? && exists deployed: seq<DeployedContract> :: compose.services == Assembled(WithDeployed(s, deployed))
  }

  lemma RealCoresRun(s: Stack, compose: ComposeFile, i: nat)
    requires ValidStack(s) && RealCores(s, compose) && i < |s.members| && !s.members[i].external
    ensures Core(i) in compose.services && compose.services[Core(i)].entryPoint == []
  {
    var deployed: seq<DeployedContract> :| compose.services == Assembled(WithDeployed(s, deployed));
    DisablingTouchesCoresOnly(WithDeployed(s, deployed), Core(i));
  }

  /** A runtime directory means that the setup which made it came to its end, and that the cores are real. */
  ghost predicate AtRest(s: Stack, d: Disk)
    requires ValidStack(s)
  {
    d.runtime ==> d.completed && RealCores(s, d.compose)
  }

  /** docker compose down and the removal of the runtime directory work. */
  predicate RollbackWorks(env: Stage -> Outcome) {
    !env(Down).Failed? && !env(RemoveRuntime).Failed?
  }

  lemma ResetClears(s: Stack, w: World, order: seq<VolumeId>, env: Stage -> Outcome)
    requires ValidStack(s) && RollbackWorks(env)
    ensures !Reset(s, w, order, env).0.disk.runtime
  {
    assert !Run(s, w, ResetStages(), env).0.disk.runtime by { RuntimeRemoved(s, w, env); }
  }

  lemma RuntimeRemoved(s: Stack, w: World, env: Stage -> Outcome)
    requires ValidStack(s) && RollbackWorks(env)
    ensures !Run(s, w, ResetStages(), env).0.disk.runtime
  {
    assert ResetStages() == [Down] + [RemoveRuntime];
    RunConcat(s, w, [Down], [RemoveRuntime], env);
    RunOne(s, w, Down, env);
    RunOne(s, Apply(s, w, Down, env(Down)), RemoveRuntime, env);
  }

  lemma SetupAtRestExactly(s: Stack, w: World, env: Stage -> Outcome)
    requires ValidStack(s)
    ensures var (w', status) := Setup(s, w, env);
            AtRest(s, w'.disk) <==>
              status == Completed || (env(CopyInit).Failed? && !env(CopyInit).leftover.runtime)
  {
    SetupEffect(s, w, env);
    FirstStep(s, w, env);
  }

  lemma FirstStep(s: Stack, w: World, env: Stage -> Outcome)
    requires ValidStack(s)
    ensures env(CopyInit).Failed? <==> (var status := Setup(s, w, env).1; status.Stopped? && status.stage == CopyInit)
  {
    var w0 := BeforeSetup(s, w);
    var rest := Startup(0) + (DeployStages(s) + (MemberStages(s, |s.members|) + (RestartStages() + FinalStages(s))));
    RunConcat(s, w0, PrepareStages(s), rest, env);
    PrepareEffect(s, w0, env);
    var w1 := Run(s, w0, PrepareStages(s), env).0;
    if Run(s, w0, PrepareStages(s), env).1 == Completed { AfterPrepare(s, w1, rest, env); }
  }

  /** When nothing was left and the first steps of a start succeed. */
  predicate StartsSetup(d: Disk, env: Stage -> Outcome) {
    !d.runtime && !env(CheckPorts).Failed? && !env(Stat).Failed?
  }

  lemma StartReaches(s: Stack, w: World, noRollback: bool, order: seq<VolumeId>, env: Stage -> Outcome)
    requires ValidStack(s) && StartsSetup(w.disk, env)
    ensures var (w', status) := Setup(s, w, env);
            Start(s, w, noRollback, order, env) == AfterSetup(s, w', status, noRollback, order, env)
  {
    var w1 := Apply(s, w, CheckPorts, env(CheckPorts));
    assert [CheckPorts, Stat][1..] == [Stat];
    assert Run(s, w, Checks(), env) == Run(s, w1, [Stat], env);
    assert [Stat][1..] == [];
  }

  /** One first start, whatever fails in it. If rolling back works, the stack is at rest afterwards unless setup stopped
      and rolling back was switched off, or the program crashed; that is all, except that a first step which leaves no
      directory needs no rolling back. */
  lemma FirstStartAtRestExactly(s: Stack, w: World, noRollback: bool, order: seq<VolumeId>, env: Stage -> Outcome)
    requires ValidStack(s) && StartsSetup(w.disk, env) && RollbackWorks(env)
    ensures AtRest(s, Start(s, w, noRollback, order, env).0.disk) <==>
              !(CanPanic(s, env) && Succeeds(Head(s), env))
              && (noRollback && !Succeeds(SetupStages(s), env) ==> env(CopyInit).Failed? && !env(CopyInit).leftover.runtime)
  {
    StartReaches(s, w, noRollback, order, env);
    var (w', status) := Setup(s, w, env);
    SetupEndsExactly(s, w, env);
    SetupAtRestExactly(s, w, env);
    HeadIncludesCopy(s, env);
    match status
    case Completed => RunQuiet(s, w', [NodesUp(1)], env);
    case Panicked =>
    case Stopped(_, _) => if !noRollback { ResetClears(s, w', order, env); }
  }

  lemma HeadIncludesCopy(s: Stack, env: Stage -> Outcome)
    ensures Succeeds(Head(s), env) ==> !env(CopyInit).Failed?
    ensures Succeeds(SetupStages(s), env) ==> Succeeds(Head(s), env)
  {
    SetupSplits(s);
    SucceedsBoth(Head(s), Tail(s), env);
    CopyComesFirst(s);
    SucceedsBoth(PrepareStages(s), Startup(0) + DeployStages(s), env);
  }

  // ---------------------------------------------------------------- starting again

  lemma QuietLists()
    ensures Quiet(Checks()) && Quiet(AgainStages())
    ensures ReadsNoLocation(Checks()) && ReadsNoLocation(AgainStages())
  {
  }

  /** Where there is a runtime directory a start only restarts containers. */
  lemma StartAgain(s: Stack, w: World, noRollback: bool, order: seq<VolumeId>, env: Stage -> Outcome)
    requires ValidStack(s) && w.disk.runtime
    ensures SameButVolumes(w, Start(s, w, noRollback, order, env).0)
    ensures Succeeds(Checks(), env) && Succeeds(AgainStages(), env) ==> Start(s, w, noRollback, order, env).1 == Running
  {
    QuietLists();
    RunQuiet(s, w, Checks(), env);
    CompletesExactly(s, w, Checks(), env);
    var w0 := Run(s, w, Checks(), env).0;
    RunQuiet(s, w0, AgainStages(), env);
    CompletesExactly(s, w0, AgainStages(), env);
  }

  lemma NotReached(s: Stack, w: World, noRollback: bool, order: seq<VolumeId>, env: Stage -> Outcome)
    requires ValidStack(s) && !w.disk.runtime && !StartsSetup(w.disk, env)
    ensures SameButVolumes(w, Start(s, w, noRollback, order, env).0)
  {
    QuietLists();
    RunQuiet(s, w, Checks(), env);
    CompletesExactly(s, w, Checks(), env);
    SucceedsBoth([CheckPorts], [Stat], env);
    SucceedsOne(CheckPorts, env);
    SucceedsOne(Stat, env);
    assert Checks() == [CheckPorts] + [Stat];
  }

  // ---------------------------------------------------------------- and if rolling back is switched off

  /** A runtime directory over a compose file in which no core runs. */
  ghost predicate Stuck(s: Stack, d: Disk)
    requires ValidStack(s)
  {
    d.runtime && d.compose == Written(Disabled(s, Assembled(s), |s.members|))
  }

  lemma StuckRunsNoCore(s: Stack, d: Disk, i: nat)
    requires ValidStack(s) && Stuck(s, d) && i < |s.members| && !s.members[i].external
    ensures Core(i) in d.compose.services && d.compose.services[Core(i)].entryPoint == ["/bin/sh", "-c", "exit", "0"]
  {
    DisabledCoresExit(s, i);
  }

  /** The two compose files are told apart by any internal member: a stuck stack does not have the real cores. */
  lemma StuckIsNotReal(s: Stack, d: Disk, i: nat)
    requires ValidStack(s) && Stuck(s, d) && i < |s.members| && !s.members[i].external
    ensures !RealCores(s, d.compose)
  {
    StuckRunsNoCore(s, d, i);
    if RealCores(s, d.compose) {
      RealCoresRun(s, d.compose, i);
      assert false;
    }
  }

  /** Nothing but a reset gets a stuck stack going: further starts find the directory and only restart the containers,
      and every core they start exits at once. */
  lemma {:induction false} StuckUntilReset(s: Stack, d: Disk, commands: seq<Command>)
    requires ValidStack(s) && Stuck(s, d)
    requires forall k :: 0 <= k < |commands| ==> !commands[k].ResetCommand?
    ensures var d' := ExecuteAll(s, d, commands);
            && Stuck(s, d')
            && forall i :: 0 <= i < |s.members| && !s.members[i].external ==>
                 Core(i) in d'.compose.services && d'.compose.services[Core(i)].entryPoint == ["/bin/sh", "-c", "exit", "0"]
  {
    if commands != [] {
      var k := |commands| - 1;
      StuckUntilReset(s, d, commands[..k]);
      StuckKept(s, ExecuteAll(s, d, commands[..k]), commands[k]);
    }
    var d' := ExecuteAll(s, d, commands);
    forall i | 0 <= i < |s.members| && !s.members[i].external
      ensures Core(i) in d'.compose.services && d'.compose.services[Core(i)].entryPoint == ["/bin/sh", "-c", "exit", "0"]
    {
      StuckRunsNoCore(s, d', i);
    }
  }

  lemma StuckKept(s: Stack, d: Disk, c: Command)
    requires ValidStack(s) && Stuck(s, d) && !c.ResetCommand?
    ensures Stuck(s, Execute(s, d, c))
  {
    if Load(d).Some? {
      var w := Load(d).value;
      match c
      case StopCommand(env) => RunQuiet(s, w, [StopAll], env);
      case StartCommand(noRollback, order, env) => StartAgain(s, w, noRollback, order, env);
    }
  }

  function AllWell(stage: Stage): Outcome {
    Done
  }

  lemma {:induction false} AllWellSucceeds(stages: seq<Stage>)
    ensures Succeeds(stages, AllWell)
  {
    if stages != [] { AllWellSucceeds(stages[1..]); }
  }

  function PullFails(stage: Stage): Outcome {
    if stage == Pull then Failed("pull", Leftover(false, Untouched, {})) else Done
  }

  /** A fresh stack gets stuck when the images cannot be pulled on a first start without rollback, and the next start,
      in which nothing fails, reports success although no core runs. */
  lemma NoRollbackThenStart(s: Stack, d: Disk, order: seq<VolumeId>)
    requires ValidStack(s) && s.deployed == [] && !d.runtime
    ensures var d1 := Execute(s, d, StartCommand(true, order, PullFails));
            && Stuck(s, d1) && Load(d1).Some?
            && Start(s, Load(d1).value, true, order, AllWell).1 == Running
            && Stuck(s, Execute(s, d1, StartCommand(true, order, AllWell)))
  {
    PullFailsEarly(s, Load(d).value, order);
    var d1 := Execute(s, d, StartCommand(true, order, PullFails));
    AllWellSucceeds(Checks());
    AllWellSucceeds(AgainStages());
    StartAgain(s, Load(d1).value, true, order, AllWell);
  }

  lemma PullFailsEarly(s: Stack, w: World, order: seq<VolumeId>)
    requires ValidStack(s) && s.deployed == [] && w.deployed == [] && !w.disk.runtime
    ensures var w' := Start(s, w, true, order, PullFails).0;
            Stuck(s, w'.disk) && w'.disk.state == InitState(s)
  {
    StartReaches(s, w, true, order, PullFails);
    var w0 := BeforeSetup(s, w);
    var later := Startup(0) + (DeployStages(s) + (MemberStages(s, |s.members|) + (RestartStages() + FinalStages(s))));
    RunConcat(s, w0, PrepareStages(s), later, PullFails);
    PrepareStopsAtPull(s, w0);
  }

  lemma PrepareStopsAtPull(s: Stack, w: World)
    requires ValidStack(s) && s.deployed == [] && w.deployed == []
    ensures var (w', status) := Run(s, w, PrepareStages(s), PullFails);
            Stuck(s, w'.disk) && w'.disk.state == InitState(s) && status.Stopped?
  {
    var first := [CopyInit, WriteDisabled];
    var rest := [ProviderSetup] + (if s.prometheusEnabled then [CopyPrometheus] else []) + ExchangeStages(|s.members|);
    assert PrepareStages(s) == first + (rest + [Pull]);
    RunConcat(s, w, first, rest + [Pull], PullFails);
    FirstTwoSucceed(s, w);
    RestStopsAtPull(s, Run(s, w, first, PullFails).0, rest);
  }

  lemma FirstTwoSucceed(s: Stack, w: World)
    requires ValidStack(s) && s.deployed == [] && w.deployed == []
    ensures var (w', status) := Run(s, w, [CopyInit, WriteDisabled], PullFails);
            Stuck(s, w'.disk) && w'.disk.state == InitState(s) && status == Completed
  {
    var first := [CopyInit, WriteDisabled];
    assert Run(s, w, first, PullFails).1 == Completed by {
      SucceedsBoth([CopyInit], [WriteDisabled], PullFails);
      SucceedsOne(CopyInit, PullFails);
      SucceedsOne(WriteDisabled, PullFails);
      assert first == [CopyInit] + [WriteDisabled];
      CompletesExactly(s, w, first, PullFails);
    }
    CopyAndDisable(s, w, PullFails);
    SameStack(s, w.deployed);
  }

  lemma SameStack(s: Stack, deployed: seq<DeployedContract>)
    requires s.deployed == deployed
    ensures WithDeployed(s, deployed) == s
  {
  }

  lemma RestStopsAtPull(s: Stack, w: World, rest: seq<Stage>)
    requires ValidStack(s)
    requires rest == [ProviderSetup] + (if s.prometheusEnabled then [CopyPrometheus] else []) + ExchangeStages(|s.members|)
    ensures var (w', status) := Run(s, w, rest + [Pull], PullFails);
            SameButVolumes(w, w') && status.Stopped?
  {
    ExchangeOnly(|s.members|);
    RunQuiet(s, w, rest + [Pull], PullFails);
    CompletesExactly(s, w, rest + [Pull], PullFails);
    SucceedsBoth(rest, [Pull], PullFails);
    SucceedsOne(Pull, PullFails);
  }

  /** A reset whose steps work takes any stack, a stuck one too, back to where a start runs setup again. */
  lemma ResetUnsticks(s: Stack, d: Disk, order: seq<VolumeId>, env: Stage -> Outcome)
    requires ValidStack(s) && Load(d).Some? && RollbackWorks(env) && !env(StopAll).Failed?
    ensures !Execute(s, d, ResetCommand(order, env)).runtime
  {
    var w := Load(d).value;
    var w' := Run(s, w, [StopAll], env).0;
    assert Run(s, w, [StopAll], env).1 == Completed by { RunOne(s, w, StopAll, env); }
    ResetClears(s, w', order, env);
  }

  /** A state file that cannot be read cannot be reset away either: every command stops at loading it. */
  lemma {:induction false} UnreadableStateStays(s: Stack, d: Disk, commands: seq<Command>)
    requires ValidStack(s) && Load(d).None?
    ensures ExecuteAll(s, d, commands) == d
  {
    if commands != [] { UnreadableStateStays(s, d, commands[..|commands| - 1]); }
  }

  // ---------------------------------------------------------------- state saved by a complete setup

  /** From a stack that never ran, a complete setup ends with the members' accounts in order and the deployed contracts in
      order, token providers first. They are on disk as well, except with a contract that was there before: then the
      copy that init made stays, and what the token providers deployed is forgotten with the process. */
  lemma SetupStateSaved(s: Stack, d: Disk, env: Stage -> Outcome)
    requires ValidStack(s) && !d.runtime && Load(d).Some? && Setup(s, Load(d).value, env).1 == Completed
    ensures var w' := Setup(s, Load(d).value, env).0;
            && w'.accounts == MemberAccounts(s.members) && w'.deployed == SetupResults(s, env)
            && Load(w'.disk) == Some(if Preset(s) then World(w'.disk, InitState(s).accounts, [], None)
                                     else World(w'.disk, w'.accounts, w'.deployed, None))
    ensures InitState(s).State? && |InitState(s).accounts| == |s.members|
    ensures forall i :: 0 <= i < |s.members| ==> InitState(s).accounts[i] == s.members[i].account
  {
    SetupEffect(s, Load(d).value, env);
  }

  /** How many of the first i members have an account. */
  function AccountsBefore(members: seq<Organization>, i: nat): nat
    requires i <= |members|
  {
    if i == 0 then 0 else AccountsBefore(members, i - 1) + if members[i - 1].account.Some? then 1 else 0
  }

  /** The accounts of setup are those of the members that have one, in the order of the members. */
  lemma AccountsInOrder(members: seq<Organization>)
    ensures |MemberAccounts(members)| == AccountsBefore(members, |members|)
    ensures forall i :: 0 <= i < |members| && members[i].account.Some? ==>
              AccountsBefore(members, i) < |MemberAccounts(members)|
              && MemberAccounts(members)[AccountsBefore(members, i)] == members[i].account
  {
    FirstAccounts(members, |members|);
    assert members[..|members|] == members;
  }

  lemma {:induction false} FirstAccounts(members: seq<Organization>, n: nat)
    requires n <= |members|
    ensures var accounts := MemberAccounts(members[..n]);
            && |accounts| == AccountsBefore(members, n)
            && forall i :: 0 <= i < n && members[i].account.Some? ==>
                 AccountsBefore(members, i) < |accounts| && accounts[AccountsBefore(members, i)] == members[i].account
  {
    if n > 0 {
      FirstAccounts(members, n - 1);
      OneMoreAccount(members, n - 1);
    }
  }

  lemma OneMoreAccount(members: seq<Organization>, n: nat)
    requires n < |members|
    ensures MemberAccounts(members[..n + 1]) ==
              MemberAccounts(members[..n]) + if members[n].account.Some? then [members[n].account] else []
  {
    assert members[..n + 1][..n] == members[..n];
  }

  // ---------------------------------------------------------------- volumes left behind

  predicate KeepsVolumes(stages: seq<Stage>) {
    forall k :: 0 <= k < |stages| ==> !stages[k].RemoveVolume?
  }

  lemma {:induction false} TokensKeepVolumes(n: nat)
    ensures KeepsVolumes(TokenStages(n))
  {
    if n > 0 { TokensKeepVolumes(n - 1); }
  }

  lemma QuietKeepsVolumes(stages: seq<Stage>)
    requires Quiet(stages)
    ensures KeepsVolumes(stages)
  {
  }

  lemma KeepsBoth(a: seq<Stage>, b: seq<Stage>)
    requires KeepsVolumes(a) && KeepsVolumes(b)
    ensures KeepsVolumes(a + b)
  {
  }

  lemma SetupKeepsVolumes(s: Stack)
    ensures KeepsVolumes(SetupStages(s))
  {
    var n := |s.members|;
    PartsKeepVolumes(s);
    KeepsBoth(RestartStages(), FinalStages(s));
    KeepsBoth(MemberStages(s, n), RestartStages() + FinalStages(s));
    KeepsBoth(DeployStages(s), MemberStages(s, n) + (RestartStages() + FinalStages(s)));
    KeepsBoth(Startup(0), DeployStages(s) + (MemberStages(s, n) + (RestartStages() + FinalStages(s))));
    KeepsBoth(PrepareStages(s), Startup(0) + (DeployStages(s) + (MemberStages(s, n) + (RestartStages() + FinalStages(s)))));
  }

  lemma PartsKeepVolumes(s: Stack)
    ensures KeepsVolumes(PrepareStages(s)) && KeepsVolumes(Startup(0)) && KeepsVolumes(DeployStages(s))
    ensures KeepsVolumes(MemberStages(s, |s.members|)) && KeepsVolumes(RestartStages()) && KeepsVolumes(FinalStages(s))
  {
    ExchangeQuiet(|s.members|);
    QuietKeepsVolumes(ExchangeStages(|s.members|));
    TokensKeepVolumes(|s.tokenProviders|);
    MembersQuiet(s, |s.members|);
    QuietKeepsVolumes(MemberStages(s, |s.members|));
    InitTokensQuiet(|s.tokenProviders|);
    QuietKeepsVolumes(InitTokensStages(|s.tokenProviders|));
  }

  lemma ResetVolumes(s: Stack, w: World, order: seq<VolumeId>, env: Stage -> Outcome)
    requires ValidStack(s) && IsOrder(s, order) && Reset(s, w, order, env).1 == Completed
    ensures forall v :: v in Reset(s, w, order, env).0.disk.volumes <==> v in w.disk.volumes && !Declared(s, v)
  {
    var w1 := Run(s, w, ResetStages(), env).0;
    DownKeepsVolumes(s, w, env);
    RemovalExact(s, w1.disk.volumes, order, env);
  }

  lemma DownKeepsVolumes(s: Stack, w: World, env: Stage -> Outcome)
    requires ValidStack(s)
    ensures Run(s, w, ResetStages(), env).0.disk.volumes == w.disk.volumes
  {
    RunCreates(s, w, ResetStages(), env);
    CreatedByNone(s, ResetStages());
  }

  /** What a complete setup creates and a complete reset leaves: the connector configs of evmconnect and tezosconnect and
      the core data of external members, beside volumes that were there before and are not the stack's. A setup that
      stopped half way leaves no more than that. */
  lemma LeftAfterReset(s: Stack, w: World, env: Stage -> Outcome, order: seq<VolumeId>, env': Stage -> Outcome, v: VolumeId)
    requires ValidStack(s) && IsOrder(s, order)
    requires var (w', _) := Setup(s, w, env); Reset(s, w', order, env').1 == Completed
    ensures var (w', status) := Setup(s, w, env);
            var left := Reset(s, w', order, env').0.disk.volumes;
            && (v in left ==> (v in w.disk.volumes && !Declared(s, v)) || Leaked(s, v))
            && (status == Completed ==> (v in left <==> (v in w.disk.volumes && !Declared(s, v)) || Leaked(s, v)))
  {
    var w0, w' := BeforeSetup(s, w), Setup(s, w, env).0;
    SetupKeepsVolumes(s);
    RunCreates(s, w0, SetupStages(s), env);
    CreatedBySetup(s, v);
    ResetVolumes(s, w', order, env');
    if Leaked(s, v) { LeakedUndeclared(s, v); }
  }

  lemma LeakedUndeclared(s: Stack, v: VolumeId)
    requires Leaked(s, v)
    ensures !Declared(s, v)
  {
  }
}
