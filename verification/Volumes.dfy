/** Which Docker volumes a stack leaves behind: removeVolumes and the volumes that first-time setup creates. */
module Volumes {
  import opened Wrappers
  import opened Names
  import opened Types
  import opened ComposeSpec
  import opened ComposeFacts
  import opened ComposeExact
  import opened LifecycleSpec

  // ---------------------------------------------------------------- removal

  lemma {:induction false} PlanVolumeListExact(plan: seq<Definition>)
    ensures SetOf(PlanVolumeList(plan)) == PlanVolumes(plan)
  {
    if plan != [] { PlanVolumeListExact(plan[..|plan| - 1]); }
  }

  /** The list, repetitions and all, names exactly the declared volumes. */
  lemma VolumeListExact(s: Stack, order: seq<VolumeId>, v: VolumeId)
    requires ValidStack(s) && IsOrder(s, order)
    ensures v in VolumeList(s, order) <==> Declared(s, v)
  {
    PlanVolumeListExact(ExtraPlan(s));
    AssembledVolumesExact(s, v);
    assert v in SetOf(PlanVolumeList(ExtraPlan(s))) <==> v in PlanVolumeList(ExtraPlan(s));
    assert v in SetOf(order) <==> v in order;
  }

  /** The volumes of the provider and token services come first, as their definitions list them; then those of the
      compose file in the order given. */
  lemma VolumesInOrder(s: Stack, order: seq<VolumeId>, j: nat)
    requires ValidStack(s) && j < |ExtraPlan(s)|
    ensures PlanVolumeList(ExtraPlan(s)[..j]) + ExtraPlan(s)[j].volumes <= VolumeList(s, order)
    ensures |order| <= |VolumeList(s, order)| && VolumeList(s, order)[|VolumeList(s, order)| - |order|..] == order
  {
    var plan := ExtraPlan(s);
    PlanVolumesSplit(plan, j);
    PrefixOfBoth(PlanVolumeList(plan[..j]) + plan[j].volumes, PlanVolumeList(plan), order);
  }

  lemma PrefixOfBoth(a: seq<VolumeId>, list: seq<VolumeId>, order: seq<VolumeId>)
    requires a <= list
    ensures a <= list + order && (list + order)[|list|..] == order
  {
  }

  lemma {:induction false} PlanVolumesSplit(plan: seq<Definition>, j: nat)
    requires j < |plan|
    ensures PlanVolumeList(plan[..j]) + plan[j].volumes <= PlanVolumeList(plan)
    decreases |plan|
  {
    var n := |plan| - 1;
    if j < n {
      assert plan[..n][..j] == plan[..j];
      PlanVolumesSplit(plan[..n], j);
    }
  }

  lemma {:induction false} RemoveListExact(volumes: set<VolumeId>, list: seq<VolumeId>, env: Stage -> Outcome)
    ensures var (after, status) := RemoveList(volumes, list, env);
            && volumes - SetOf(list) <= after <= volumes
            && (status == Completed ==> after == volumes - SetOf(list))
            && (status == Completed <==> forall v :: v in list && v in volumes ==> !env(RemoveVolume(v)).Failed?)
    decreases |list|
  {
    if list != [] {
      var v := list[0];
      assert SetOf(list) == {v} + SetOf(list[1..]);
      if v !in volumes {
        RemoveListExact(volumes, list[1..], env);
      } else if !env(RemoveVolume(v)).Failed? {
        RemoveListExact(volumes - {v}, list[1..], env);
      }
    }
  }

  /** A volume named twice is gone the second time, which is no error: the removal succeeds exactly if none of the
      declared volumes that exist is held back, and then it removes the declared set and nothing else. */
  lemma RemovalExact(s: Stack, volumes: set<VolumeId>, order: seq<VolumeId>, env: Stage -> Outcome)
    requires ValidStack(s) && IsOrder(s, order)
    ensures var (after, status) := RemoveList(volumes, VolumeList(s, order), env);
            && (status == Completed <==> forall v :: Declared(s, v) && v in volumes ==> !env(RemoveVolume(v)).Failed?)
            && (status == Completed ==> forall v :: v in after <==> v in volumes && !Declared(s, v))
            && (forall v :: v in volumes && !Declared(s, v) ==> v in after) && after <= volumes
  {
    var list := VolumeList(s, order);
    RemoveListExact(volumes, list, env);
    forall v
      ensures v in SetOf(list) <==> Declared(s, v)
      ensures v in list <==> Declared(s, v)
    {
      VolumeListExact(s, order, v);
    }
  }

  /** Doing it again, in any order and whatever may fail then, succeeds and changes nothing. */
  lemma RemovalIdempotent(s: Stack, volumes: set<VolumeId>, order: seq<VolumeId>, env: Stage -> Outcome,
                          order': seq<VolumeId>, env': Stage -> Outcome)
    requires ValidStack(s) && IsOrder(s, order) && IsOrder(s, order')
    requires RemoveList(volumes, VolumeList(s, order), env).1 == Completed
    ensures var after := RemoveList(volumes, VolumeList(s, order), env).0;
            RemoveList(after, VolumeList(s, order'), env') == (after, Completed)
  {
    var after := RemoveList(volumes, VolumeList(s, order), env).0;
    RemovalExact(s, volumes, order, env);
    RemovalExact(s, after, order', env');
    var again := RemoveList(after, VolumeList(s, order'), env').0;
    assert again == after;
  }

  // ---------------------------------------------------------------- creation

  function CreatedBy(s: Stack, stages: seq<Stage>): set<VolumeId>
    requires ValidStack(s)
  {
    if stages == [] then {} else Creates(s, stages[0]) + CreatedBy(s, stages[1..])
  }

  lemma {:induction false} CreatedByBoth(s: Stack, a: seq<Stage>, b: seq<Stage>)
    requires ValidStack(s)
    ensures CreatedBy(s, a + b) == CreatedBy(s, a) + CreatedBy(s, b)
  {
    if a == [] {
      assert a + b == b;
    } else {
      CreatedByBoth(s, a[1..], b);
      assert (a + b)[1..] == a[1..] + b;
    }
  }

  lemma ApplyCreates(s: Stack, w: World, stage: Stage, outcome: Outcome)
    requires ValidStack(s) && !stage.RemoveVolume?
    ensures w.disk.volumes <= Apply(s, w, stage, outcome).disk.volumes <= w.disk.volumes + Creates(s, stage)
    ensures !outcome.Failed? ==> Apply(s, w, stage, outcome).disk.volumes == w.disk.volumes + Creates(s, stage)
  {
    if CreatesNothing(stage) { assert Creates(s, stage) == {}; }
  }

  lemma {:induction false} RunCreates(s: Stack, w: World, stages: seq<Stage>, env: Stage -> Outcome)
    requires ValidStack(s) && forall k :: 0 <= k < |stages| ==> !stages[k].RemoveVolume?
    ensures var (w', status) := Run(s, w, stages, env);
            && w.disk.volumes <= w'.disk.volumes <= w.disk.volumes + CreatedBy(s, stages)
            && (status == Completed ==> w'.disk.volumes == w.disk.volumes + CreatedBy(s, stages))
    decreases |stages|
  {
    if stages != [] {
      var stage := stages[0];
      var outcome := env(stage);
      ApplyCreates(s, w, stage, outcome);
      if !(stage.ReadLocation? && w.contract.None?) && !(outcome.Failed? && !stage.ReadLocation?) {
        RunCreates(s, Apply(s, w, stage, outcome), stages[1..], env);
      }
    }
  }

  /** What setup creates and the compose file does not declare. */
  predicate Leaked(s: Stack, v: VolumeId) {
    || (v.ConnectorConfig? && v.i < |s.members| && v.kind == ConnectorOf(s.provider)
        && (v.kind == Evmconnect || v.kind == Tezosconnect))
    || (v.CoreData? && v.i < |s.members| && s.members[v.i].external)
    || (v == FireflyFabric && s.provider == Fabric(false) && s.members == [])
  }

  /** The providers fill volumes of their own file, or else connector configs that only ethconnect mounts. */
  lemma ProviderVolumesKnown(s: Stack, v: VolumeId)
    requires v in ProviderVolumes(s)
    ensures Declared(s, v) || Leaked(s, v)
  {
  }

  lemma ConfigsCopied(s: Stack, i: nat)
    requires !s.provider.Fabric? && i < |s.members|
    ensures ConnectorConfig(ConnectorOf(s.provider), i) in ProviderVolumes(s)
  {
    var kind := ConnectorOf(s.provider);
    var f := (i: nat) => ConnectorConfig(kind, i);
    assert f(i) in Numbered(|s.members|, f);
  }

  lemma {:induction false} CreatedByExchange(s: Stack, n: nat, v: VolumeId)
    requires ValidStack(s)
    ensures v in CreatedBy(s, ExchangeStages(n)) <==> v.DataExchangeData? && v.i < n
  {
    if n > 0 {
      CreatedByExchange(s, n - 1, v);
      CreatedByBoth(s, ExchangeStages(n - 1), [CopyExchange(n - 1)]);
    }
  }

  lemma {:induction false} CreatedByMembers(s: Stack, n: nat, v: VolumeId)
    requires ValidStack(s)
    ensures v in CreatedBy(s, MemberStages(s, n)) <==> v.CoreData? && v.i < n
  {
    if n > 0 {
      CreatedByMembers(s, n - 1, v);
      var location := if NeedsContract(s) then [ReadLocation(n - 1)] else [];
      var member := [PatchConfig(n - 1), CreateCoreVolume(n - 1), MkdirCore(n - 1)];
      CreatedByBoth(s, MemberStages(s, n - 1) + location, member);
      CreatedByBoth(s, MemberStages(s, n - 1), location);
      CreatedByMember(s, n - 1);
    }
  }

  lemma CreatedByMember(s: Stack, i: nat)
    requires ValidStack(s)
    ensures CreatedBy(s, [PatchConfig(i), CreateCoreVolume(i), MkdirCore(i)]) == {CoreData(i)}
    ensures CreatedBy(s, [ReadLocation(i)]) == {}
  {
    var a := [CreateCoreVolume(i), MkdirCore(i)];
    assert CreatedBy(s, a[1..]) == {};
    assert [PatchConfig(i), CreateCoreVolume(i), MkdirCore(i)][1..] == a;
  }

  lemma {:induction false} CreatedByNone(s: Stack, stages: seq<Stage>)
    requires ValidStack(s) && forall k :: 0 <= k < |stages| ==> CreatesNothing(stages[k])
    ensures CreatedBy(s, stages) == {}
  {
    if stages != [] { CreatedByNone(s, stages[1..]); }
  }

  lemma {:induction false} DeployAndInitCreateNothing(n: nat)
    ensures forall k :: 0 <= k < |TokenStages(n)| ==> CreatesNothing(TokenStages(n)[k])
    ensures forall k :: 0 <= k < |InitTokensStages(n)| ==> CreatesNothing(InitTokensStages(n)[k])
  {
    if n > 0 { DeployAndInitCreateNothing(n - 1); }
  }

  lemma CreatedByStartup(s: Stack, round: nat)
    requires ValidStack(s)
    ensures CreatedBy(s, Startup(round)) == AssembledVolumes(s)
  {
    CreatedByBoth(s, [PreStart(round)], [Up(round)] + [PostStart(round)]);
    CreatedByBoth(s, [Up(round)], [PostStart(round)]);
    CreatedByOne(s, PreStart(round));
    CreatedByOne(s, Up(round));
    CreatedByOne(s, PostStart(round));
    assert Startup(round) == [PreStart(round)] + ([Up(round)] + [PostStart(round)]);
    NothingAround(AssembledVolumes(s));
  }

  lemma NothingAround(volumes: set<VolumeId>)
    ensures {} + (volumes + {}) == volumes
  {
  }

  lemma CreatedByOne(s: Stack, stage: Stage)
    requires ValidStack(s)
    ensures CreatedBy(s, [stage]) == Creates(s, stage)
  {
    assert [stage][1..] == [] && CreatedBy(s, []) == {};
  }

  lemma CreatedByPrepare(s: Stack, v: VolumeId)
    requires ValidStack(s)
    ensures v in CreatedBy(s, PrepareStages(s)) <==>
              v in ProviderVolumes(s) || (v == PrometheusConfig && s.prometheusEnabled) || (v.DataExchangeData? && v.i < |s.members|)
  {
    var first := [CopyInit, WriteDisabled, ProviderSetup];
    var prometheus := if s.prometheusEnabled then [CopyPrometheus] else [];
    var exchange := ExchangeStages(|s.members|);
    CreatedByBoth(s, first + prometheus + exchange, [Pull]);
    CreatedByBoth(s, first + prometheus, exchange);
    CreatedByBoth(s, first, prometheus);
    CreatedByExchange(s, |s.members|, v);
    CreatedByFirst(s);
    assert CreatedBy(s, [CopyPrometheus]) == {PrometheusConfig};
    assert CreatedBy(s, [Pull]) == {};
  }

  lemma CreatedByFirst(s: Stack)
    requires ValidStack(s)
    ensures CreatedBy(s, [CopyInit, WriteDisabled, ProviderSetup]) == ProviderVolumes(s)
  {
    assert [CopyInit, WriteDisabled, ProviderSetup][1..] == [WriteDisabled, ProviderSetup];
    assert [WriteDisabled, ProviderSetup][1..] == [ProviderSetup];
    assert CreatedBy(s, [ProviderSetup]) == ProviderVolumes(s);
  }

  lemma CreatedByRestart(s: Stack)
    requires ValidStack(s)
    ensures CreatedBy(s, RestartStages()) == AssembledVolumes(s)
  {
    CreatedByBoth(s, [WriteEnabled, StopAll] + Startup(1), [NodesUp(0)]);
    CreatedByBoth(s, [WriteEnabled, StopAll], Startup(1));
    CreatedByNone(s, [WriteEnabled, StopAll]);
    CreatedByNone(s, [NodesUp(0)]);
    CreatedByStartup(s, 1);
  }

  /** A complete setup creates every declared volume and those that are leaked. */
  lemma CreatedBySetup(s: Stack, v: VolumeId)
    requires ValidStack(s)
    ensures v in CreatedBy(s, SetupStages(s)) <==> Declared(s, v) || Leaked(s, v)
  {
    var n := |s.members|;
    DeployAndInitCreateNothing(|s.tokenProviders|);
    CreatedByNone(s, DeployStages(s));
    CreatedByNone(s, FinalStages(s));
    CreatedByRestart(s);
    CreatedByStartup(s, 0);
    CreatedByMembers(s, n, v);
    CreatedByPrepare(s, v);
    AssembledVolumesExact(s, v);
    SplitSetup(s);
    SetupVolumesKnown(s, v);
  }

  lemma SplitSetup(s: Stack)
    requires ValidStack(s)
    ensures CreatedBy(s, SetupStages(s)) ==
              CreatedBy(s, PrepareStages(s)) + (CreatedBy(s, Startup(0)) + (CreatedBy(s, DeployStages(s))
                + (CreatedBy(s, MemberStages(s, |s.members|)) + (CreatedBy(s, RestartStages()) + CreatedBy(s, FinalStages(s))))))
  {
    var e := RestartStages() + FinalStages(s);
    var d := MemberStages(s, |s.members|) + e;
    var c := DeployStages(s) + d;
    var b := Startup(0) + c;
    CreatedByBoth(s, PrepareStages(s), b);
    CreatedByBoth(s, Startup(0), c);
    CreatedByBoth(s, DeployStages(s), d);
    CreatedByBoth(s, MemberStages(s, |s.members|), e);
    CreatedByBoth(s, RestartStages(), FinalStages(s));
  }

  lemma SetupVolumesKnown(s: Stack, v: VolumeId)
    requires ValidStack(s)
    ensures v in ProviderVolumes(s) || (v == PrometheusConfig && s.prometheusEnabled)
            || (v.DataExchangeData? && v.i < |s.members|) || (v.CoreData? && v.i < |s.members|)
            ==> Declared(s, v) || Leaked(s, v)
    ensures Leaked(s, v) ==> v in ProviderVolumes(s) || (v.CoreData? && v.i < |s.members|)
  {
    if v in ProviderVolumes(s) { ProviderVolumesKnown(s, v); }
    if Leaked(s, v) && v.ConnectorConfig? { ConfigsCopied(s, v.i); }
  }
}
