/** The state of a stack in outline, computed from the commands and the outcomes of their steps. */
module Phases {
  import opened Wrappers
  import opened Names
  import opened Types
  import opened ComposeSpec
  import opened ComposeExact
  import opened LifecycleSpec
  import opened Lifecycle

  /** Fresh: no runtime directory. Ready: one made by a complete setup. Broken: one that is not. The state file in it can
      be read or not. */
  datatype Phase = Fresh | Ready(readable: bool) | Broken(readable: bool)
  {
    function WithFile(file: FileLeft): Phase {
      if Fresh? || file.Untouched? then this else this.(readable := file.Finished?)
    }
  }

  ghost function PhaseOf(s: Stack, d: Disk): Phase
    requires ValidStack(s)
  {
    if !d.runtime then Fresh
    else if d.completed && RealCores(s, d.compose) then Ready(!d.state.DamagedState?)
    else Broken(!d.state.DamagedState?)
  }

  // ---------------------------------------------------------------- what commands do to the phase

  predicate SetupSucceeds(s: Stack, env: Stage -> Outcome) {
    !CanPanic(s, env) && Succeeds(SetupStages(s), env)
  }

  predicate SetupCrashes(s: Stack, env: Stage -> Outcome) {
    CanPanic(s, env) && Succeeds(Head(s), env)
  }

  /** All steps of setup but the last one, which writes the state if there is no contract from before. */
  function MostStages(s: Stack): seq<Stage> {
    Head(s) + (MemberStages(s, |s.members|) + (RestartStages() + NearlyFinal(s)))
  }

  function NearlyFinal(s: Stack): seq<Stage> {
    if Preset(s) then [] else (if s.multiparty then [Register] else []) + InitTokensStages(|s.tokenProviders|)
  }

  /** Setup goes well up to the saving of the state, which ruins the file. */
  predicate RuinsState(s: Stack, env: Stage -> Outcome) {
    && !Preset(s) && !CanPanic(s, env) && Succeeds(MostStages(s), env)
    && env(WriteState).Failed? && env(WriteState).leftover.file.Ruined?
  }

  /** Where a setup leaves the stack that stopped or crashed. */
  function AfterBadSetup(s: Stack, env: Stage -> Outcome): Phase {
    if !env(CopyInit).Failed? then Broken(!RuinsState(s, env))
    else if env(CopyInit).leftover.runtime then Broken(!env(CopyInit).leftover.file.Ruined?)
    else Fresh
  }

  /** docker compose down, then the removal of the runtime directory; whether volumes go as well makes no difference. */
  function AfterReset(phase: Phase, env: Stage -> Outcome): Phase {
    if env(Down).Failed? then phase
    else if env(RemoveRuntime).Failed? then phase.WithFile(env(RemoveRuntime).leftover.file)
    else Fresh
  }

  function AfterFirstStart(s: Stack, noRollback: bool, env: Stage -> Outcome): Phase {
    if SetupSucceeds(s, env) then Ready(true)
    else if noRollback || SetupCrashes(s, env) then AfterBadSetup(s, env)
    else AfterReset(AfterBadSetup(s, env), env)
  }

  function NextPhase(s: Stack, phase: Phase, c: Command): Phase {
    if !phase.Fresh? && !phase.readable then phase
    else
      match c
      case StopCommand(_) => phase
      case StartCommand(noRollback, _, env) =>
        if !phase.Fresh? || env(CheckPorts).Failed? || env(Stat).Failed? then phase else AfterFirstStart(s, noRollback, env)
      case ResetCommand(_, env) => if env(StopAll).Failed? then phase else AfterReset(phase, env)
  }

  /** From a fresh stack on. */
  function LastPhase(s: Stack, commands: seq<Command>): Phase {
    if commands == [] then Fresh
    else NextPhase(s, LastPhase(s, commands[..|commands| - 1]), commands[|commands| - 1])
  }

  // ---------------------------------------------------------------- the disk follows

  predicate KeepsState(stages: seq<Stage>) {
    forall k :: 0 <= k < |stages| ==> !stages[k].CopyInit? && !stages[k].WriteState? && !stages[k].RemoveRuntime?
  }

  lemma {:induction false} StateUntouched(s: Stack, w: World, stages: seq<Stage>, env: Stage -> Outcome)
    requires ValidStack(s) && KeepsState(stages)
    ensures Run(s, w, stages, env).0.disk.state == w.disk.state
    decreases |stages|
  {
    if stages != [] {
      StateUntouched(s, Apply(s, w, stages[0], env(stages[0])), stages[1..], env);
    }
  }

  lemma SetupIsMost(s: Stack)
    ensures SetupStages(s) == MostStages(s) + if Preset(s) then [] else [WriteState]
  {
    var last := if Preset(s) then [] else [WriteState];
    assert FinalStages(s) == NearlyFinal(s) + last;
    SetupSplits(s);
    LastApart(Head(s), MemberStages(s, |s.members|), RestartStages(), NearlyFinal(s), last);
  }

  lemma LastApart(a: seq<Stage>, b: seq<Stage>, c: seq<Stage>, d: seq<Stage>, e: seq<Stage>)
    ensures a + (b + (c + (d + e))) == (a + (b + (c + d))) + e
  {
  }

  /** The first step apart from the others. */
  function AfterCopy(s: Stack): seq<Stage> {
    MostStages(s)[1..]
  }

  lemma MostStartsWithCopy(s: Stack)
    ensures |MostStages(s)| > 0 && MostStages(s)[0] == CopyInit
  {
    CopyComesFirst(s);
  }

  lemma {:induction false} TokensKeepState(n: nat)
    ensures KeepsState(TokenStages(n)) && KeepsState(InitTokensStages(n))
  {
    if n > 0 { TokensKeepState(n - 1); }
  }

  lemma {:induction false} MembersKeepState(s: Stack, n: nat)
    ensures KeepsState(MemberStages(s, n))
  {
    if n > 0 { MembersKeepState(s, n - 1); }
  }

  lemma RestKeepsState(s: Stack)
    ensures KeepsState(AfterCopy(s))
  {
    ExchangeOnly(|s.members|);
    TokensKeepState(|s.tokenProviders|);
    MembersKeepState(s, |s.members|);
    assert KeepsState(PrepareStages(s)[1..]);
    assert KeepsState(DeployStages(s));
    assert KeepsState(Startup(0)) && KeepsState(RestartStages()) && KeepsState(NearlyFinal(s));
  }

  /** When its first step works, the state is the one of init until the last step, and that one is reached exactly if
      all others succeed. */
  lemma StateDuringSetup(s: Stack, w: World, env: Stage -> Outcome)
    requires ValidStack(s) && w.contract == None && !env(CopyInit).Failed?
    ensures Run(s, w, MostStages(s), env).0.disk.state == InitState(s)
  {
    MostStartsWithCopy(s);
    RestKeepsState(s);
    var w1 := Apply(s, w, CopyInit, env(CopyInit));
    assert Run(s, w, MostStages(s), env) == Run(s, w1, AfterCopy(s), env);
    StateUntouched(s, w1, AfterCopy(s), env);
  }

  lemma MostEndsExactly(s: Stack, w: World, env: Stage -> Outcome)
    requires ValidStack(s) && w.contract == None
    ensures Run(s, w, MostStages(s), env).1 == Completed <==> !CanPanic(s, env) && Succeeds(MostStages(s), env)
  {
    TokensReadNothing(|s.tokenProviders|);
    assert ReadsNoLocation(RestartStages() + NearlyFinal(s));
    EndsExactly(s, w, RestartStages() + NearlyFinal(s), env);
  }

  lemma StateAfterSetup(s: Stack, w: World, env: Stage -> Outcome)
    requires ValidStack(s) && !env(CopyInit).Failed?
    ensures Setup(s, w, env).0.disk.state.DamagedState? <==> RuinsState(s, env)
  {
    var w0 := BeforeSetup(s, w);
    var last := if Preset(s) then [] else [WriteState];
    SetupIsMost(s);
    RunConcat(s, w0, MostStages(s), last, env);
    StateDuringSetup(s, w0, env);
    MostEndsExactly(s, w0, env);
    if !Preset(s) { RunOne(s, Run(s, w0, MostStages(s), env).0, WriteState, env); }
  }

  lemma PhaseAfterSetup(s: Stack, w: World, env: Stage -> Outcome)
    requires ValidStack(s)
    ensures var (w', status) := Setup(s, w, env);
            && (status == Completed <==> SetupSucceeds(s, env)) && (status.Panicked? <==> SetupCrashes(s, env))
            && PhaseOf(s, w'.disk) == if SetupSucceeds(s, env) then Ready(true) else AfterBadSetup(s, env)
  {
    SetupEndsExactly(s, w, env);
    SetupEffect(s, w, env);
    FirstStep(s, w, env);
    if env(CopyInit).Failed? {
      StateAfterFailedCopy(s, w, env);
    } else {
      StateAfterSetup(s, w, env);
    }
  }

  lemma StateAfterFailedCopy(s: Stack, w: World, env: Stage -> Outcome)
    requires ValidStack(s) && env(CopyInit).Failed?
    ensures Setup(s, w, env).0.disk.state.DamagedState? <==>
              env(CopyInit).leftover.runtime && env(CopyInit).leftover.file.Ruined?
  {
    var w0 := BeforeSetup(s, w);
    SetupIsMost(s);
    MostStartsWithCopy(s);
    assert SetupStages(s)[0] == CopyInit;
    assert Run(s, w0, SetupStages(s), env).0 == Apply(s, w0, CopyInit, env(CopyInit));
  }

  lemma PhaseAfterReset(s: Stack, w: World, order: seq<VolumeId>, env: Stage -> Outcome)
    requires ValidStack(s)
    ensures PhaseOf(s, Reset(s, w, order, env).0.disk) == AfterReset(PhaseOf(s, w.disk), env)
  {
    ResetSteps(s, w, env);
    if !env(Down).Failed? { PhaseAfterRemoval(s, Apply(s, w, Down, env(Down)), env); }
  }

  lemma ResetSteps(s: Stack, w: World, env: Stage -> Outcome)
    requires ValidStack(s)
    ensures var w1 := Apply(s, w, Down, env(Down));
            && w1.disk == w.disk
            && Run(s, w, ResetStages(), env).0 == if env(Down).Failed? then w1 else Apply(s, w1, RemoveRuntime, env(RemoveRuntime))
  {
    assert ResetStages() == [Down] + [RemoveRuntime];
    RunConcat(s, w, [Down], [RemoveRuntime], env);
    RunOne(s, w, Down, env);
    RunOne(s, Apply(s, w, Down, env(Down)), RemoveRuntime, env);
  }

  lemma PhaseAfterRemoval(s: Stack, w: World, env: Stage -> Outcome)
    requires ValidStack(s)
    ensures PhaseOf(s, Apply(s, w, RemoveRuntime, env(RemoveRuntime)).disk) ==
              if env(RemoveRuntime).Failed? then PhaseOf(s, w.disk).WithFile(env(RemoveRuntime).leftover.file) else Fresh
  {
  }

  lemma PhaseAfterStart(s: Stack, w: World, noRollback: bool, order: seq<VolumeId>, env: Stage -> Outcome)
    requires ValidStack(s)
    ensures PhaseOf(s, Start(s, w, noRollback, order, env).0.disk) ==
              if StartsSetup(w.disk, env) then AfterFirstStart(s, noRollback, env) else PhaseOf(s, w.disk)
  {
    if w.disk.runtime {
      StartAgain(s, w, noRollback, order, env);
    } else if StartsSetup(w.disk, env) {
      StartReaches(s, w, noRollback, order, env);
      PhaseAfterSetup(s, w, env);
      var (w', status) := Setup(s, w, env);
      match status
      case Completed => RunQuiet(s, w', [NodesUp(1)], env);
      case Panicked =>
      case Stopped(_, _) => PhaseAfterReset(s, w', order, env);
    } else {
      NotReached(s, w, noRollback, order, env);
    }
  }

  lemma PhaseAfterCommand(s: Stack, d: Disk, c: Command)
    requires ValidStack(s)
    ensures PhaseOf(s, Execute(s, d, c)) == NextPhase(s, PhaseOf(s, d), c)
  {
    if Load(d).Some? {
      var w := Load(d).value;
      match c
      case StartCommand(noRollback, order, env) => PhaseAfterStart(s, w, noRollback, order, env);
      case StopCommand(env) => RunQuiet(s, w, [StopAll], env);
      case ResetCommand(order, env) =>
        RunQuiet(s, w, [StopAll], env);
        RunOne(s, w, StopAll, env);
        PhaseAfterReset(s, Run(s, w, [StopAll], env).0, order, env);
    }
  }

  lemma {:induction false} PhaseAfterAll(s: Stack, d: Disk, commands: seq<Command>)
    requires ValidStack(s) && !d.runtime
    ensures PhaseOf(s, ExecuteAll(s, d, commands)) == LastPhase(s, commands)
  {
    if commands != [] {
      var k := |commands| - 1;
      PhaseAfterAll(s, d, commands[..k]);
      PhaseAfterCommand(s, ExecuteAll(s, d, commands[..k]), commands[k]);
    }
  }

  /** After any commands whatever, any step of which may have failed in any way, a stack that was fresh is at rest
      exactly if the last phase is not a broken one. */
  lemma AtRestExactly(s: Stack, d: Disk, commands: seq<Command>)
    requires ValidStack(s) && !d.runtime
    ensures AtRest(s, ExecuteAll(s, d, commands)) <==> !LastPhase(s, commands).Broken?
  {
    PhaseAfterAll(s, d, commands);
  }

  /** A command that keeps its hands off the rollback, in an environment where rolling back works. */
  predicate Benign(s: Stack, c: Command) {
    match c
    case StartCommand(noRollback, _, env) => !noRollback && RollbackWorks(env) && !CanPanic(s, env)
    case StopCommand(_) => true
    case ResetCommand(_, env) => RollbackWorks(env)
  }

  lemma BenignBreaksNothing(s: Stack, phase: Phase, c: Command)
    requires Benign(s, c) && !phase.Broken?
    ensures !NextPhase(s, phase, c).Broken?
  {
  }

  lemma {:induction false} NeverBroken(s: Stack, commands: seq<Command>)
    requires forall k :: 0 <= k < |commands| ==> Benign(s, commands[k])
    ensures !LastPhase(s, commands).Broken?
  {
    if commands != [] {
      var k := |commands| - 1;
      NeverBroken(s, commands[..k]);
      BenignBreaksNothing(s, LastPhase(s, commands[..k]), commands[k]);
    }
  }

  /** After any commands that roll back, with any steps failing but those of the rollback, a stack is at rest. */
  lemma AlwaysAtRest(s: Stack, d: Disk, commands: seq<Command>)
    requires ValidStack(s) && !d.runtime
    requires forall k :: 0 <= k < |commands| ==> Benign(s, commands[k])
    ensures AtRest(s, ExecuteAll(s, d, commands))
  {
    AtRestExactly(s, d, commands);
    NeverBroken(s, commands);
  }
}
