/** The compose file as it is put together, member by member and definition by definition, is the one described
    service by service. */
module ComposeExact {
  import opened Wrappers
  import opened Names
  import opened Types
  import opened ComposeSpec
  import opened ComposeFacts

  function ShapeFor(s: Stack, id: ServiceId): Shape
    requires ValidStack(s) && Present(s, id)
  {
    var d := ServiceOf(s, id);
    Shape(d.body, d.waits, d.entryPoint)
  }

  /** The services and volumes of the compose file of a stack. */
  ghost predicate IsComposeOf(s: Stack, shapes: map<ServiceId, Shape>, volumes: set<VolumeId>)
    requires ValidStack(s)
  {
    && (forall id :: id in shapes <==> Present(s, id))
    && (forall id :: id in shapes ==> shapes[id] == ShapeFor(s, id))
    && (forall v :: v in volumes <==> Declared(s, v))
  }

  /** The value buildDockerCompose arrives at. */
  function Assembled(s: Stack): map<ServiceId, Shape>
    requires ValidStack(s)
  {
    WithDefinitions(s, BaseShapes(s), ExtraPlan(s))
  }

  function AssembledVolumes(s: Stack): set<VolumeId>
    requires ValidStack(s)
  {
    BaseVolumes(s) + PlanVolumes(ExtraPlan(s))
  }

  // ---------------------------------------------------------------- the members

  predicate IsMemberService(id: ServiceId) {
    id.Core? || id.Postgres? || id.Ipfs? || id.DataExchange? || id.Sandbox?
  }

  /** A member's service while a core only waits for its own member. */
  function OwnShape(s: Stack, id: ServiceId): Shape
    requires IsMemberService(id) && id.i < |s.members|
  {
    Shape(MemberBody(s, id), if id.Core? then MemberWaits(s, id.i) else map[], [])
  }

  /** The services a member adds. */
  predicate Adds(s: Stack, i: nat, id: ServiceId)
    requires i < |s.members|
  {
    IsMemberService(id) && id.i == i && Present(s, id)
  }

  lemma WithMemberKeys(s: Stack, shapes: map<ServiceId, Shape>, i: nat, id: ServiceId)
    requires i < |s.members|
    ensures id in WithMember(shapes, s, i) <==> id in shapes || Adds(s, i, id)
  {
    var a := WithCore(shapes, s, i);
    var b := WithDatabase(a, s, i);
    var c := WithStorage(b, s, i);
    assert id in a <==> id in shapes || (id == Core(i) && !s.members[i].external);
    assert id in b <==> id in a || (id == Postgres(i) && s.database == PostgresDB);
    assert id in c <==> id in b || id == Ipfs(i) || id == DataExchange(i);
  }

  lemma WithMemberKeeps(s: Stack, shapes: map<ServiceId, Shape>, i: nat, id: ServiceId)
    requires i < |s.members| && id in shapes && (IsMemberService(id) ==> id.i != i)
    ensures id in WithMember(shapes, s, i) && WithMember(shapes, s, i)[id] == shapes[id]
  {
    var b := WithDatabase(WithCore(shapes, s, i), s, i);
    assert id in b && b[id] == shapes[id];
  }

  lemma WithMemberCore(s: Stack, shapes: map<ServiceId, Shape>, i: nat)
    requires i < |s.members| && !s.members[i].external
    ensures Core(i) in WithMember(shapes, s, i) && WithMember(shapes, s, i)[Core(i)] == OwnShape(s, Core(i))
  {
    var waits := map[DataExchange(i) := Started, Ipfs(i) := Healthy];
    assert MemberWaits(s, i) == if s.database == PostgresDB then waits[Postgres(i) := Healthy] else waits;
    var b := WithDatabase(WithCore(shapes, s, i), s, i);
    assert b[Core(i)] == OwnShape(s, Core(i));
  }

  lemma WithMemberOther(s: Stack, shapes: map<ServiceId, Shape>, i: nat, id: ServiceId)
    requires i < |s.members| && Adds(s, i, id) && !id.Core?
    ensures id in WithMember(shapes, s, i) && WithMember(shapes, s, i)[id] == MemberShape(s, id)
  {
    var b := WithDatabase(WithCore(shapes, s, i), s, i);
    assert id == Postgres(i) ==> b[id] == MemberShape(s, id);
    var c := WithStorage(b, s, i);
    assert id == Postgres(i) || id == Ipfs(i) || id == DataExchange(i) ==> c[id] == MemberShape(s, id);
  }

  /** The services of the first i members. */
  predicate Below(s: Stack, i: nat, id: ServiceId) {
    IsMemberService(id) && id.i < i <= |s.members| && Present(s, id)
  }

  /** The shapes are those of the first i members as far as this service goes. */
  predicate ShapesBelow(s: Stack, shapes: map<ServiceId, Shape>, i: nat, id: ServiceId) {
    && (id in shapes <==> Below(s, i, id))
    && (id in shapes ==> shapes[id] == OwnShape(s, id))
  }

  lemma MemberShapesNext(s: Stack, shapes: map<ServiceId, Shape>, i: nat, id: ServiceId)
    requires i < |s.members| && ShapesBelow(s, shapes, i, id)
    ensures ShapesBelow(s, WithMember(shapes, s, i), i + 1, id)
  {
    WithMemberKeys(s, shapes, i, id);
    if Adds(s, i, id) {
      if id.Core? {
        WithMemberCore(s, shapes, i);
      } else {
        WithMemberOther(s, shapes, i, id);
      }
    } else if id in shapes {
      WithMemberKeeps(s, shapes, i, id);
    }
  }

  lemma MemberShapesOneMore(s: Stack, i: nat, next: nat, id: ServiceId)
    requires next == i + 1 <= |s.members| && ShapesBelow(s, MemberShapes(s, i), i, id)
    ensures ShapesBelow(s, MemberShapes(s, next), next, id)
  {
    MemberShapesNext(s, MemberShapes(s, i), i, id);
  }

  lemma {:induction false} MemberShapesExact(s: Stack, i: nat, id: ServiceId)
    requires i <= |s.members|
    ensures ShapesBelow(s, MemberShapes(s, i), i, id)
  {
    if i > 0 {
      MemberShapesExact(s, i - 1, id);
      MemberShapesOneMore(s, i - 1, i, id);
    }
  }

  lemma BaseShapesExact(s: Stack, id: ServiceId)
    ensures id in BaseShapes(s) <==> Below(s, |s.members|, id) || (id == Prometheus && s.prometheusEnabled)
    ensures Below(s, |s.members|, id) ==> BaseShapes(s)[id] == OwnShape(s, id)
    ensures id == Prometheus && id in BaseShapes(s) ==> BaseShapes(s)[id] == Shape(PrometheusService(s).body, map[], [])
  {
    MemberShapesExact(s, |s.members|, id);
  }

  // ---------------------------------------------------------------- the provider services

  lemma {:induction false} AnnouncedExact(shapes: map<ServiceId, Shape>, n: nat, b: ServiceId, c: Condition)
    ensures var g := Announced(shapes, n, b, c);
            && g.Keys == shapes.Keys
            && forall id :: id in g ==>
                 g[id] == if id.Core? && id.i < n then shapes[id].(waits := shapes[id].waits[b := c]) else shapes[id]
  {
    if n > 0 { AnnouncedExact(shapes, n - 1, b, c); }
  }

  function ToShape(d: Definition): Shape {
    Shape(d.body, d.waits, d.entryPoint)
  }

  /** A list of definitions of different services, none of them a core. */
  predicate Proper(plan: seq<Definition>, ids: seq<ServiceId>) {
    && |plan| == |ids| && Distinct(ids)
    && forall j :: 0 <= j < |plan| ==> plan[j].id == ids[j] && !ids[j].Core? && plan[j].body.health == HasHealthCheck(ids[j])
  }

  /** Entering the definitions in order leaves the base services as they were, except that every core now waits for
      all provider services. */
  ghost predicate Extended(base: map<ServiceId, Shape>, plan: seq<Definition>, ids: seq<ServiceId>, g: map<ServiceId, Shape>)
    requires |plan| == |ids|
  {
    && (forall id :: id in g <==> id in base || id in ids)
    && (forall j :: 0 <= j < |ids| ==> ids[j] in g && g[ids[j]] == ToShape(plan[j]))
    && (forall id :: id in base ==>
          id in g && g[id] == if id.Core? then base[id].(waits := base[id].waits + ExtraWaits(ids)) else base[id])
  }

  lemma ExtraWaitsStep(w: map<ServiceId, Condition>, ids: seq<ServiceId>, id: ServiceId)
    ensures (w + ExtraWaits(ids))[id := ConditionFor(HasHealthCheck(id))] == w + ExtraWaits(ids + [id])
  {
    assert (ids + [id])[..|ids|] == ids;
  }

  lemma ExtendedStep(n: nat, base: map<ServiceId, Shape>, plan: seq<Definition>, ids: seq<ServiceId>,
                     g: map<ServiceId, Shape>, d: Definition, g': map<ServiceId, Shape>)
    requires Proper(plan + [d], ids + [d.id]) && |plan| == |ids| && Extended(base, plan, ids, g)
    requires d.id !in ids && d.id !in base && !d.id.Core?
    requires forall a :: a in base && a.Core? ==> a.i < n
    requires g' == Announced(g[d.id := ToShape(d)], n, d.id, ConditionFor(HasHealthCheck(d.id)))
    ensures Extended(base, plan + [d], ids + [d.id], g')
  {
    AnnouncedExact(g[d.id := ToShape(d)], n, d.id, ConditionFor(HasHealthCheck(d.id)));
    forall a | a in base
      ensures g'[a] == if a.Core? then base[a].(waits := base[a].waits + ExtraWaits(ids + [d.id])) else base[a]
    {
      ExtraWaitsStep(base[a].waits, ids, d.id);
    }
    forall j | 0 <= j < |ids|
      ensures g'[ids[j]] == ToShape(plan[j])
    {
      assert (ids + [d.id])[j] == ids[j];
    }
  }

  lemma {:induction false} WithDefinitionsExact(s: Stack, base: map<ServiceId, Shape>, plan: seq<Definition>,
                                                 ids: seq<ServiceId>)
    requires Proper(plan, ids)
    requires forall j :: 0 <= j < |ids| ==> ids[j] !in base
    requires forall a :: a in base && a.Core? ==> a.i < |s.members|
    ensures Extended(base, plan, ids, WithDefinitions(s, base, plan))
  {
    if plan == [] {
      assert forall a :: a in base ==> base[a].waits + ExtraWaits(ids) == base[a].waits;
    } else {
      var k := |plan| - 1;
      var p, i, d := plan[..k], ids[..k], plan[k];
      assert p + [d] == plan && i + [d.id] == ids;
      assert Proper(p, i) by { assert forall j :: 0 <= j < k ==> p[j] == plan[j] && i[j] == ids[j]; }
      WithDefinitionsExact(s, base, p, i);
      ExtendedStep(|s.members|, base, p, i, WithDefinitions(s, base, p), d, WithDefinitions(s, base, plan));
    }
  }

  lemma PlanProper(s: Stack)
    requires ValidStack(s)
    ensures Proper(ExtraPlan(s), ExtraIds(s))
    ensures forall j :: 0 <= j < |ExtraIds(s)| ==>
              IsExtra(s, ExtraIds(s)[j]) && ToShape(ExtraPlan(s)[j]) == ShapeFor(s, ExtraIds(s)[j])
  {
    ExtraPlanMatches(s);
    ExtraIdsDistinct(s);
    var plan, ids := ExtraPlan(s), ExtraIds(s);
    forall j | 0 <= j < |ids|
      ensures plan[j].id == ids[j] && !ids[j].Core? && plan[j].body.health == HasHealthCheck(ids[j])
    {
      IdOfService(s, ids[j]);
      HealthOfKind(s, ids[j]);
    }
  }

  lemma BaseExtended(s: Stack)
    requires ValidStack(s)
    ensures |ExtraPlan(s)| == |ExtraIds(s)|
    ensures Extended(BaseShapes(s), ExtraPlan(s), ExtraIds(s), Assembled(s))
  {
    PlanProper(s);
    forall a
      ensures a in BaseShapes(s) ==> !IsExtra(s, a) && (a.Core? ==> a.i < |s.members|)
    {
      BaseShapesExact(s, a);
    }
    WithDefinitionsExact(s, BaseShapes(s), ExtraPlan(s), ExtraIds(s));
  }

  lemma AssembledExact(s: Stack, id: ServiceId)
    requires ValidStack(s)
    ensures id in Assembled(s) <==> Present(s, id)
    ensures id in Assembled(s) ==> Assembled(s)[id] == ShapeFor(s, id)
  {
    BaseExtended(s);
    BaseShapesExact(s, id);
    ExtraIdsExact(s, id);
    if id in BaseShapes(s) {
      BaseShapeBecomes(s, id);
    } else if id in ExtraIds(s) {
      PlanProper(s);
      var j :| 0 <= j < |ExtraIds(s)| && ExtraIds(s)[j] == id;
      assert Assembled(s)[ExtraIds(s)[j]] == ToShape(ExtraPlan(s)[j]);
    }
  }

  /** Only cores gain edges from the provider services. */
  lemma BaseShapeBecomes(s: Stack, id: ServiceId)
    requires ValidStack(s) && Present(s, id) && !IsExtra(s, id)
    ensures id == Prometheus ==> ShapeFor(s, id) == Shape(PrometheusService(s).body, map[], [])
    ensures Below(s, |s.members|, id) ==>
              ShapeFor(s, id) == if id.Core? then OwnShape(s, id).(waits := MemberWaits(s, id.i) + ExtraWaits(ExtraIds(s)))
                                 else OwnShape(s, id)
  {
  }

  // ---------------------------------------------------------------- the volumes

  predicate IsMemberVolume(v: VolumeId) {
    v.CoreData? || v.PostgresData? || v.IpfsStaging? || v.IpfsData? || v.DataExchangeData?
  }

  predicate VolumesBelow(s: Stack, volumes: set<VolumeId>, i: nat, v: VolumeId) {
    v in volumes <==> IsMemberVolume(v) && v.i < i && Declared(s, v)
  }

  lemma {:induction false} MemberVolumesExact(s: Stack, i: nat, v: VolumeId)
    requires i <= |s.members|
    ensures VolumesBelow(s, MemberVolumes(s, i), i, v)
  {
    if i > 0 {
      MemberVolumesExact(s, i - 1, v);
      MemberVolumesNext(s, MemberVolumes(s, i - 1), i - 1, v);
    }
  }

  lemma MemberVolumesNext(s: Stack, volumes: set<VolumeId>, i: nat, v: VolumeId)
    requires i < |s.members| && VolumesBelow(s, volumes, i, v)
    ensures VolumesBelow(s, WithVolumes(volumes, s, i), i + 1, v)
  {
  }

  lemma BaseVolumesExact(s: Stack, v: VolumeId)
    ensures v in BaseVolumes(s) ==> Declared(s, v)
    ensures Declared(s, v) ==> v in BaseVolumes(s) || IsExtra(s, DeclaredBy(s, v))
  {
    MemberVolumesExact(s, |s.members|, v);
    if Declared(s, v) && !IsMemberVolume(v) && !v.PrometheusData? && !v.PrometheusConfig? { ExtraDeclares(s, v); }
    assert IsMemberVolume(v) && Declared(s, v) ==> v.i < |s.members|;
  }

  lemma ExtraDeclares(s: Stack, v: VolumeId)
    requires Declared(s, v) && !IsMemberVolume(v) && !v.PrometheusData? && !v.PrometheusConfig?
    ensures IsExtra(s, DeclaredBy(s, v))
  {
  }

  lemma {:induction false} PlanVolumesExact(plan: seq<Definition>, v: VolumeId)
    ensures v in PlanVolumes(plan) <==> exists j :: 0 <= j < |plan| && v in plan[j].volumes
  {
    if plan != [] {
      var k := |plan| - 1;
      PlanVolumesExact(plan[..k], v);
      assert forall j :: 0 <= j < k ==> plan[..k][j] == plan[j];
      assert v in SetOf(plan[k].volumes) <==> v in plan[k].volumes;
    }
  }

  lemma PlanVolumesDeclared(s: Stack, v: VolumeId)
    requires ValidStack(s) && v in PlanVolumes(ExtraPlan(s))
    ensures Declared(s, v)
  {
    var plan, ids := ExtraPlan(s), ExtraIds(s);
    ExtraPlanMatches(s);
    PlanVolumesExact(plan, v);
    var j :| 0 <= j < |plan| && v in plan[j].volumes;
    VolumeOfServiceDeclared(s, ids[j], v);
  }

  lemma DeclaredInPlan(s: Stack, v: VolumeId)
    requires ValidStack(s) && Declared(s, v) && IsExtra(s, DeclaredBy(s, v))
    ensures v in PlanVolumes(ExtraPlan(s))
  {
    var plan, ids, id := ExtraPlan(s), ExtraIds(s), DeclaredBy(s, v);
    DeclaringService(s, v);
    ExtraIdsExact(s, id);
    ExtraPlanMatches(s);
    PlanVolumesExact(plan, v);
    var j :| 0 <= j < |ids| && ids[j] == id;
    assert v in plan[j].volumes;
  }

  lemma AssembledVolumesExact(s: Stack, v: VolumeId)
    requires ValidStack(s)
    ensures v in AssembledVolumes(s) <==> Declared(s, v)
  {
    BaseVolumesExact(s, v);
    if v in PlanVolumes(ExtraPlan(s)) { PlanVolumesDeclared(s, v); }
    if Declared(s, v) && IsExtra(s, DeclaredBy(s, v)) { DeclaredInPlan(s, v); }
  }

  /** The compose file built for a stack is the one the stack describes. */
  lemma AssembledIsComposeOf(s: Stack)
    requires ValidStack(s)
    ensures IsComposeOf(s, Assembled(s), AssembledVolumes(s))
  {
    forall id
      ensures id in Assembled(s) <==> Present(s, id)
      ensures id in Assembled(s) ==> Assembled(s)[id] == ShapeFor(s, id)
    {
      AssembledExact(s, id);
    }
    forall v
      ensures v in AssembledVolumes(s) <==> Declared(s, v)
    {
      AssembledVolumesExact(s, v);
    }
  }

  // ---------------------------------------------------------------- the compose file with its cores disabled

  lemma CoresAssembled(s: Stack)
    requires ValidStack(s)
    ensures forall i :: 0 <= i < |s.members| && !s.members[i].external ==> Core(i) in Assembled(s)
  {
    forall i | 0 <= i < |s.members| && !s.members[i].external
      ensures Core(i) in Assembled(s)
    {
      AssembledExact(s, Core(i));
    }
  }

  lemma {:induction false} DisabledExact(s: Stack, shapes: map<ServiceId, Shape>, n: nat)
    requires n <= |s.members|
    ensures var after := Disabled(s, shapes, n);
            && after.Keys == shapes.Keys
            && forall id :: id in after ==>
                 after[id] == if id.Core? && id.i < n && !s.members[id.i].external
                              then shapes[id].(entryPoint := ExitAtOnce()) else shapes[id]
  {
    if n > 0 { DisabledExact(s, shapes, n - 1); }
  }

  /** While first-time setup runs every core exits at once, whatever its image would start; no core had an entry point
      of its own, and nothing else is touched. */
  lemma DisablingTouchesCoresOnly(s: Stack, id: ServiceId)
    requires ValidStack(s) && Present(s, id)
    ensures id in Disabled(s, Assembled(s), |s.members|) && id in Assembled(s)
    ensures Disabled(s, Assembled(s), |s.members|)[id] ==
              if id.Core? then ShapeFor(s, id).(entryPoint := ExitAtOnce()) else ShapeFor(s, id)
    ensures id.Core? ==> Assembled(s)[id].entryPoint == []
  {
    AssembledExact(s, id);
    DisabledExact(s, Assembled(s), |s.members|);
  }
}
