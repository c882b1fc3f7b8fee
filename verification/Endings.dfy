/** What a start and a reset report: which ending stands for which outcomes of the steps, and whose error it carries. */
module Endings {
  import opened Wrappers
  import opened Names
  import opened Types
  import opened ComposeSpec
  import opened LifecycleSpec
  import opened Lifecycle
  import opened Phases
  import opened Volumes

  // ---------------------------------------------------------------- the first step that fails

  /** Reading the location of a contract cannot fail; where there is no contract it crashes. */
  predicate Fails(stage: Stage, env: Stage -> Outcome) {
    !stage.ReadLocation? && env(stage).Failed?
  }

  predicate AllSucceed(stages: seq<Stage>, env: Stage -> Outcome) {
    forall k :: 0 <= k < |stages| ==> !Fails(stages[k], env)
  }

  predicate FailsFirst(stages: seq<Stage>, env: Stage -> Outcome, k: int) {
    0 <= k < |stages| && Fails(stages[k], env) && forall j :: 0 <= j < k ==> !Fails(stages[j], env)
  }

  /** The first step of the list that fails does so with this error. */
  ghost predicate StopsWith(stages: seq<Stage>, env: Stage -> Outcome, error: string) {
    exists k :: FailsFirst(stages, env, k) && env(stages[k]).error == error
  }

  lemma {:induction false} SucceedsIsAll(stages: seq<Stage>, env: Stage -> Outcome)
    ensures Succeeds(stages, env) <==> AllSucceed(stages, env)
  {
    if stages != [] {
      SucceedsIsAll(stages[1..], env);
      assert AllSucceed(stages, env) ==> AllSucceed(stages[1..], env);
      if Succeeds(stages, env) {
        forall k | 0 <= k < |stages|
          ensures !Fails(stages[k], env)
        {
          if k > 0 { assert stages[k] == stages[1..][k - 1]; }
        }
      }
    }
  }

  lemma {:induction false} RunEndsExactly(s: Stack, w: World, stages: seq<Stage>, env: Stage -> Outcome)
    requires ValidStack(s) && (w.contract.Some? || ReadsNoLocation(stages))
    ensures var status := Run(s, w, stages, env).1;
            && (status == Completed <==> AllSucceed(stages, env))
            && (status != Completed ==> status.Stopped? && StopsWith(stages, env, status.error))
    decreases |stages|
  {
    SucceedsIsAll(stages, env);
    CompletesExactly(s, w, stages, env);
    if stages != [] {
      var rest := stages[1..];
      if Fails(stages[0], env) {
        assert FailsFirst(stages, env, 0);
      } else {
        var next := Apply(s, w, stages[0], env(stages[0]));
        RunEndsExactly(s, next, rest, env);
        var status := Run(s, next, rest, env).1;
        if status != Completed {
          var k :| FailsFirst(rest, env, k) && env(rest[k]).error == status.error;
          LaterFailure(stages, env, k);
        }
      }
    }
  }

  lemma LaterFailure(stages: seq<Stage>, env: Stage -> Outcome, k: int)
    requires stages != [] && !Fails(stages[0], env) && FailsFirst(stages[1..], env, k)
    ensures FailsFirst(stages, env, k + 1) && stages[k + 1] == stages[1..][k]
  {
    forall j | 0 <= j < k + 1
      ensures !Fails(stages[j], env)
    {
      if j > 0 { assert stages[j] == stages[1..][j - 1]; }
    }
  }

  /** Where the first failure of a list is when others come before or after it. */
  lemma StopsWithin(before: seq<Stage>, stages: seq<Stage>, after: seq<Stage>, env: Stage -> Outcome, error: string)
    requires AllSucceed(before, env) && StopsWith(stages, env, error)
    ensures StopsWith(before + stages + after, env, error)
  {
    var k :| FailsFirst(stages, env, k) && env(stages[k]).error == error;
    var all, n := before + stages + after, |before|;
    assert all[n + k] == stages[k];
    forall j | 0 <= j < n + k
      ensures !Fails(all[j], env)
    {
      assert all[j] == if j < n then before[j] else stages[j - n];
    }
    assert FailsFirst(all, env, n + k);
  }

  // ---------------------------------------------------------------- setup

  lemma SetupStopsExactly(s: Stack, w: World, env: Stage -> Outcome)
    requires ValidStack(s)
    ensures var status := Setup(s, w, env).1; status.Stopped? ==> StopsWith(SetupStages(s), env, status.error)
  {
    var w0 := BeforeSetup(s, w);
    SetupSplits(s);
    RunConcat(s, w0, Head(s), Tail(s), env);
    HeadReadsNothing(s);
    RunEndsExactly(s, w0, Head(s), env);
    var (w1, status) := Run(s, w0, Head(s), env);
    if status == Completed {
      TailStops(s, w0, env);
    } else {
      StopsWithin([], Head(s), Tail(s), env, status.error);
      assert [] + Head(s) + Tail(s) == SetupStages(s);
    }
  }

  lemma TailStops(s: Stack, w: World, env: Stage -> Outcome)
    requires ValidStack(s) && w.contract == None && Run(s, w, Head(s), env).1 == Completed && AllSucceed(Head(s), env)
    ensures var status := Run(s, Run(s, w, Head(s), env).0, Tail(s), env).1;
            status.Stopped? ==> StopsWith(SetupStages(s), env, status.error)
  {
    var w1 := Run(s, w, Head(s), env).0;
    var status := Run(s, w1, Tail(s), env).1;
    HeadContract(s, w, env);
    HeadReadsNothing(s);
    MembersRead(s, |s.members|);
    TailEndsExactly(s, w1, RestartStages() + FinalStages(s), env);
    if status.Stopped? {
      assert w1.contract.Some? || ReadsNoLocation(Tail(s));
      RunEndsExactly(s, w1, Tail(s), env);
      StopsWithin(Head(s), Tail(s), [], env, status.error);
      SetupSplits(s);
      assert Head(s) + Tail(s) + [] == SetupStages(s);
    }
  }

  // ---------------------------------------------------------------- reset

  /** The first volume on the list that is there and cannot be removed. */
  predicate HeldFirst(volumes: set<VolumeId>, list: seq<VolumeId>, env: Stage -> Outcome, j: int) {
    && 0 <= j < |list| && list[j] in volumes && env(RemoveVolume(list[j])).Failed?
    && forall i :: 0 <= i < j && list[i] in volumes ==> !env(RemoveVolume(list[i])).Failed?
  }

  /** docker compose down, the removal of the directory and that of every declared volume which is there. */
  predicate ResetWorks(s: Stack, volumes: set<VolumeId>, env: Stage -> Outcome) {
    && !env(Down).Failed? && !env(RemoveRuntime).Failed?
    && forall v :: v in volumes && Declared(s, v) ==> !env(RemoveVolume(v)).Failed?
  }

  ghost predicate ResetStopsWith(s: Stack, volumes: set<VolumeId>, order: seq<VolumeId>, env: Stage -> Outcome, error: string)
    requires ValidStack(s)
  {
    if env(Down).Failed? then error == env(Down).error
    else if env(RemoveRuntime).Failed? then error == env(RemoveRuntime).error
    else
      var list := VolumeList(s, order);
      exists j :: HeldFirst(volumes, list, env, j) && error == env(RemoveVolume(list[j])).error
  }

  lemma {:induction false} RemoveListStops(volumes: set<VolumeId>, list: seq<VolumeId>, env: Stage -> Outcome)
    ensures var status := RemoveList(volumes, list, env).1;
            && !status.Panicked?
            && (status.Stopped? ==> exists j :: HeldFirst(volumes, list, env, j) && status.error == env(RemoveVolume(list[j])).error)
    decreases |list|
  {
    if list != [] {
      var v, rest := list[0], list[1..];
      if v in volumes && env(RemoveVolume(v)).Failed? {
        assert HeldFirst(volumes, list, env, 0);
      } else {
        var volumes' := if v in volumes then volumes - {v} else volumes;
        RemoveListStops(volumes', rest, env);
        if j :| HeldFirst(volumes', rest, env, j) && RemoveList(volumes', rest, env).1.Stopped?
                && RemoveList(volumes', rest, env).1.error == env(RemoveVolume(rest[j])).error {
          HeldLater(volumes, volumes', list, env, j);
        }
      }
    }
  }

  lemma HeldLater(volumes: set<VolumeId>, volumes': set<VolumeId>, list: seq<VolumeId>, env: Stage -> Outcome, j: int)
    requires list != [] && volumes' == volumes - {list[0]} && (list[0] in volumes ==> !env(RemoveVolume(list[0])).Failed?)
    requires HeldFirst(volumes', list[1..], env, j)
    ensures HeldFirst(volumes, list, env, j + 1)
  {
    assert list[j + 1] == list[1..][j];
    forall i | 0 <= i < j + 1 && list[i] in volumes
      ensures !env(RemoveVolume(list[i])).Failed?
    {
      if i > 0 { assert list[i] == list[1..][i - 1]; }
    }
  }

  /** A reset reports success exactly if everything it has to do works, and otherwise the error of what failed first. */
  lemma ResetEndsExactly(s: Stack, w: World, order: seq<VolumeId>, env: Stage -> Outcome)
    requires ValidStack(s) && IsOrder(s, order)
    ensures var status := Reset(s, w, order, env).1;
            && (status == Completed <==> ResetWorks(s, w.disk.volumes, env))
            && (status != Completed ==> status.Stopped? && ResetStopsWith(s, w.disk.volumes, order, env, status.error))
  {
    assert ResetStages() == [Down] + [RemoveRuntime];
    RunConcat(s, w, [Down], [RemoveRuntime], env);
    RunOne(s, w, Down, env);
    RunOne(s, Apply(s, w, Down, env(Down)), RemoveRuntime, env);
    DownKeepsVolumes(s, w, env);
    if !env(Down).Failed? && !env(RemoveRuntime).Failed? {
      RemovalExact(s, w.disk.volumes, order, env);
      RemoveListStops(w.disk.volumes, VolumeList(s, order), env);
    }
  }

  // ---------------------------------------------------------------- start

  /** Everything a start has to do, in order: a stack that has run before only needs its containers again. */
  function NeededSteps(s: Stack, d: Disk): seq<Stage> {
    if d.runtime then [CheckPorts, Stat, PreStart(2), Up(2), PostStart(2), NodesUp(1)]
    else [CheckPorts, Stat] + SetupStages(s) + [NodesUp(1)]
  }

  predicate SetupStops(s: Stack, env: Stage -> Outcome) {
    !SetupSucceeds(s, env) && !SetupCrashes(s, env)
  }

  /** A first start comes to its setup, and setup stops with an error. */
  predicate SetupGoesWrong(s: Stack, d: Disk, env: Stage -> Outcome) {
    StartsSetup(d, env) && SetupStops(s, env)
  }

  lemma RestartEnds(s: Stack, w: World, noRollback: bool, order: seq<VolumeId>, env: Stage -> Outcome)
    requires ValidStack(s) && w.disk.runtime
    ensures var (w', ending) := Start(s, w, noRollback, order, env);
            && (ending == Running <==> AllSucceed(NeededSteps(s, w.disk), env))
            && (ending != Running ==> ending.NotStarted? && StopsWith(NeededSteps(s, w.disk), env, ending.error))
            && w'.disk.runtime
  {
    QuietLists();
    RunQuiet(s, w, Checks(), env);
    assert NeededSteps(s, w.disk) == Checks() + AgainStages();
    RunConcat(s, w, Checks(), AgainStages(), env);
    RunEndsExactly(s, w, Checks() + AgainStages(), env);
    RunQuiet(s, w, Checks() + AgainStages(), env);
    SameRestart(s, w, noRollback, order, env);
  }

  lemma SameRestart(s: Stack, w: World, noRollback: bool, order: seq<VolumeId>, env: Stage -> Outcome)
    requires ValidStack(s) && w.disk.runtime
    requires Run(s, w, Checks(), env).0.disk.runtime
    ensures var (w1, status) := Run(s, w, Checks(), env);
            var (w2, status2) := Run(s, w1, AgainStages(), env);
            Start(s, w, noRollback, order, env) ==
              if status == Completed then (w2, EndingOf(status2)) else (w1, EndingOf(status))
  {
  }

  lemma CheckFails(s: Stack, w: World, noRollback: bool, order: seq<VolumeId>, env: Stage -> Outcome)
    requires ValidStack(s) && !w.disk.runtime && !StartsSetup(w.disk, env)
    ensures var (w', ending) := Start(s, w, noRollback, order, env);
            ending.NotStarted? && StopsWith(NeededSteps(s, w.disk), env, ending.error) && !AllSucceed(NeededSteps(s, w.disk), env)
  {
    QuietLists();
    assert Run(s, w, Checks(), env).1.Stopped? && StopsWith(Checks(), env, Run(s, w, Checks(), env).1.error) by {
      RunEndsExactly(s, w, Checks(), env);
      assert Checks()[0] == CheckPorts && Checks()[1] == Stat;
    }
    CheckStops(s, w.disk, env, Run(s, w, Checks(), env).1.error);
  }

  lemma CheckStops(s: Stack, d: Disk, env: Stage -> Outcome, error: string)
    requires !d.runtime && StopsWith(Checks(), env, error)
    ensures StopsWith(NeededSteps(s, d), env, error)
  {
    StopsWithin([], Checks(), SetupStages(s) + [NodesUp(1)], env, error);
    Joined(Checks(), SetupStages(s), [NodesUp(1)]);
  }

  lemma Joined<T>(a: seq<T>, b: seq<T>, c: seq<T>)
    ensures [] + a + (b + c) == a + b + c
  {
  }

  /** How the steps of setup stand among all that are needed. */
  lemma FirstStartSteps(s: Stack, d: Disk, env: Stage -> Outcome)
    requires StartsSetup(d, env)
    ensures AllSucceed(NeededSteps(s, d), env) <==> AllSucceed(SetupStages(s), env) && !env(NodesUp(1)).Failed?
    ensures forall error :: StopsWith(SetupStages(s), env, error) ==> StopsWith(NeededSteps(s, d), env, error)
    ensures AllSucceed(SetupStages(s), env) && env(NodesUp(1)).Failed? ==> StopsWith(NeededSteps(s, d), env, env(NodesUp(1)).error)
  {
    var setup, all := SetupStages(s), NeededSteps(s, d);
    assert Checks() == [CheckPorts, Stat] && AllSucceed(Checks(), env);
    assert all == Checks() + setup + [NodesUp(1)];
    assert all[|all| - 1] == NodesUp(1);
    forall k | 0 <= k < |setup|
      ensures all[k + 2] == setup[k]
    {
    }
    forall error | StopsWith(setup, env, error)
      ensures StopsWith(all, env, error)
    {
      StopsWithin(Checks(), setup, [NodesUp(1)], env, error);
    }
    if AllSucceed(setup, env) && env(NodesUp(1)).Failed? {
      assert FailsFirst(all, env, |all| - 1);
    }
  }

  lemma FirstStartEnds(s: Stack, w: World, noRollback: bool, order: seq<VolumeId>, env: Stage -> Outcome)
    requires ValidStack(s) && IsOrder(s, order) && StartsSetup(w.disk, env)
    ensures var (w', ending) := Start(s, w, noRollback, order, env);
            var left := Setup(s, w, env).0.disk.volumes;
            && (ending == Running <==> SetupSucceeds(s, env) && !env(NodesUp(1)).Failed?)
            && (ending == Crashed <==> SetupCrashes(s, env))
            && (ending.RolledBack? <==> SetupStops(s, env) && !noRollback && ResetWorks(s, left, env))
            && (ending.RollbackFailed? <==> SetupStops(s, env) && !noRollback && !ResetWorks(s, left, env))
            && (ending.NotStarted? || ending.RolledBack? || ending.RollbackFailed? ==>
                  if SetupStops(s, env) then StopsWith(SetupStages(s), env, ending.error) else ending.error == env(NodesUp(1)).error)
            && (ending.RollbackFailed? ==> ResetStopsWith(s, left, order, env, ending.other))
            && (ending == Running ==> w'.disk.runtime) && (ending.RolledBack? ==> !w'.disk.runtime)
  {
    SetupEndsExactly(s, w, env);
    if SetupSucceeds(s, env) {
      CompleteSetupEnds(s, w, noRollback, order, env);
    } else {
      StartReaches(s, w, noRollback, order, env);
      if SetupStops(s, env) { StoppedSetupEnds(s, w, noRollback, order, env); }
    }
  }

  lemma CompleteSetupEnds(s: Stack, w: World, noRollback: bool, order: seq<VolumeId>, env: Stage -> Outcome)
    requires ValidStack(s) && StartsSetup(w.disk, env) && Setup(s, w, env).1 == Completed
    ensures var (w', ending) := Start(s, w, noRollback, order, env);
            && ending == (if env(NodesUp(1)).Failed? then NotStarted(env(NodesUp(1)).error) else Running)
            && w'.disk.runtime
  {
    StartReaches(s, w, noRollback, order, env);
    SetupEffect(s, w, env);
    var w1 := Setup(s, w, env).0;
    RunOne(s, w1, NodesUp(1), env);
    RunQuiet(s, w1, [NodesUp(1)], env);
  }

  lemma StoppedSetupEnds(s: Stack, w: World, noRollback: bool, order: seq<VolumeId>, env: Stage -> Outcome)
    requires ValidStack(s) && IsOrder(s, order) && Setup(s, w, env).1.Stopped?
    ensures var (w1, status) := Setup(s, w, env);
            var (w', ending) := AfterSetup(s, w1, status, noRollback, order, env);
            && (ending.NotStarted? <==> noRollback)
            && (ending.RolledBack? <==> !noRollback && ResetWorks(s, w1.disk.volumes, env))
            && (ending.RollbackFailed? <==> !noRollback && !ResetWorks(s, w1.disk.volumes, env))
            && !ending.Running? && !ending.Crashed? && StopsWith(SetupStages(s), env, ending.error)
            && (ending.RollbackFailed? ==> ResetStopsWith(s, w1.disk.volumes, order, env, ending.other))
            && (ending.RolledBack? ==> !w'.disk.runtime)
  {
    SetupStopsExactly(s, w, env);
    if !noRollback {
      var w1 := Setup(s, w, env).0;
      ResetEndsExactly(s, w1, order, env);
      if ResetWorks(s, w1.disk.volumes, env) { ResetClears(s, w1, order, env); }
    }
  }

  /** What a start reports. Running: every step that was needed succeeded, and there is a runtime directory. Crashed: setup
      did. Rolled back, or failed to: setup stopped, rolling back was asked for, and the reset worked, or did not. Not
      started: anything else. Every error is that of the step that failed first. */
  lemma StartEndsExactly(s: Stack, w: World, noRollback: bool, order: seq<VolumeId>, env: Stage -> Outcome)
    requires ValidStack(s) && IsOrder(s, order)
    ensures var (w', ending) := Start(s, w, noRollback, order, env);
            var left := Setup(s, w, env).0.disk.volumes;
            && (ending == Running <==> AllSucceed(NeededSteps(s, w.disk), env) && (w.disk.runtime || !SetupCrashes(s, env)))
            && (ending == Crashed <==> StartsSetup(w.disk, env) && SetupCrashes(s, env))
            && (ending.RolledBack? <==> SetupGoesWrong(s, w.disk, env) && !noRollback && ResetWorks(s, left, env))
            && (ending.RollbackFailed? <==> SetupGoesWrong(s, w.disk, env) && !noRollback && !ResetWorks(s, left, env))
            && (!ending.Running? && !ending.Crashed? ==> StopsWith(NeededSteps(s, w.disk), env, ending.error))
            && (ending.RollbackFailed? ==> ResetStopsWith(s, left, order, env, ending.other))
            && (ending == Running ==> w'.disk.runtime) && (ending.RolledBack? ==> !w'.disk.runtime)
  {
    if w.disk.runtime {
      RestartEnds(s, w, noRollback, order, env);
    } else if StartsSetup(w.disk, env) {
      FirstStartEnds(s, w, noRollback, order, env);
      FirstStartSteps(s, w.disk, env);
      SucceedsIsAll(SetupStages(s), env);
    } else {
      CheckFails(s, w, noRollback, order, env);
    }
  }
}
