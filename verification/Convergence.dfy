/**
  Update plans converge: whatever interleaving the engine chooses, a completed
  update leaves what the new deployment describes, exactly when a condition on
  the two deployments holds.
*/
module Convergence {
  import opened ActionGraph
  import opened ActionInvariant
  import opened ActionRuns
  import opened ActionTree
  import opened PlanOrder
  import opened PlanSchedule
  import opened Resources
  import opened Deployers

  // ------------------------------------------------------------------------
  // The actions of composed plans
  // ------------------------------------------------------------------------

  function OpsOf(a: Action): seq<Op> {
    if a.None? then [] else Ops(a.value)
  }

  function Flat(acts: seq<Action>): seq<Op> {
    if acts == [] then [] else OpsOf(acts[0]) + Flat(acts[1..])
  }

  lemma {:induction false} FlatNonNull(acts: seq<Action>)
    ensures OpsAll(NonNull(acts)) == Flat(acts)
    decreases |acts|
  {
    if acts != [] {
      FlatNonNull(acts[1..]);
      if acts[0].Some? {
        assert NonNull(acts) == [acts[0].value] + NonNull(acts[1..]);
      } else {
        assert NonNull(acts) == NonNull(acts[1..]);
      }
    }
  }

  lemma {:induction false} FlatWrap(plans: seq<Plan<Op>>)
    ensures NonNull(Wrap(plans)) == plans
    decreases |plans|
  {
    if plans != [] {
      FlatWrap(plans[1..]);
    }
  }

  lemma {:induction false} OpsAllJoin(a: seq<Plan<Op>>, b: seq<Plan<Op>>)
    ensures OpsAll(a + b) == OpsAll(a) + OpsAll(b)
    decreases |a|
  {
    if a == [] {
      assert a + b == b;
    } else {
      assert (a + b)[1..] == a[1..] + b;
      OpsAllJoin(a[1..], b);
    }
  }

  lemma {:induction false} FlatCons(x: Action, rest: seq<Action>)
    ensures Flat([x] + rest) == OpsOf(x) + Flat(rest)
  {
    assert ([x] + rest)[1..] == rest;
  }

  lemma {:induction false} FlatTwo(x: Action, y: Action)
    ensures Flat([x, y]) == OpsOf(x) + OpsOf(y)
  {
    FlatCons(y, []);
    FlatCons(x, [y]);
    assert [x] + [y] == [x, y] && [y] + [] == [y];
  }

  lemma {:induction false} OpsOfThree(x: Action, y: Action, z: Action)
    ensures Ops(ActionSequence([x, y, z])) == OpsOf(x) + OpsOf(y) + OpsOf(z)
  {
    FlatNonNull([x, y, z]);
    FlatTwo(y, z);
    FlatCons(x, [y, z]);
    assert [x] + [y, z] == [x, y, z];
  }

  lemma {:induction false} OpsOfTwo(x: Action, y: Action)
    ensures Ops(ActionSequence([x, y])) == OpsOf(x) + OpsOf(y)
    ensures Ops(ActionGroup([x, y])) == OpsOf(x) + OpsOf(y)
  {
    FlatNonNull([x, y]);
    FlatTwo(x, y);
  }

  lemma {:induction false} OpsOfComposite(children: seq<Action>, before: Action, after: Action)
    ensures OpsOf(GenerateComposite(children, before, after)) == OpsOf(before) + Flat(children) + OpsOf(after)
  {
    hide ActionSequence, ActionGroup, Flat, Ops;
    var middle := MiddleOf(children);
    OpsOfMiddle(children);
    if |children| == 1 || before.Some? || after.Some? {
      OpsOfThree(before, middle, after);
    } else {
      assert [] + OpsOf(middle) + [] == OpsOf(middle);
    }
  }

  /** What stands between the actions before and after the children. */
  function MiddleOf(children: seq<Action>): Action {
    if |children| > 1 then Some(ActionGroup(children)) else if |children| == 1 then children[0] else None
  }

  lemma {:induction false} OpsOfMiddle(children: seq<Action>)
    ensures OpsOf(MiddleOf(children)) == Flat(children)
  {
    if |children| > 1 {
      FlatNonNull(children);
    } else if |children| == 1 {
      FlatCons(children[0], []);
      assert children == [children[0]] + [];
    }
  }

  lemma {:induction false} OpsOfOneOrGroup(plans: seq<Plan<Op>>)
    requires plans != []
    ensures OpsOf(OneOrGroup(plans)) == OpsAll(plans)
  {
    FlatWrap(plans);
    if |plans| == 1 {
      assert plans[1..] == [];
      assert OpsAll(plans) == Ops(plans[0]) + [];
    }
  }

  predicate Nested(updates: seq<Plan<Op>>, creates: seq<Plan<Op>>, deletes: seq<Plan<Op>>) {
    |deletes| > 0 && (|creates| > 0 || |updates| > 0)
  }

  lemma {:induction false} OpsOfLevel(updates: seq<Plan<Op>>, creates: seq<Plan<Op>>, deletes: seq<Plan<Op>>)
    ensures Flat(LevelActions(updates, creates, deletes)) ==
      if Nested(updates, creates, deletes) then OpsAll(deletes) + (OpsAll(creates) + OpsAll(updates))
      else OpsAll(updates) + OpsAll(creates) + OpsAll(deletes)
  {
    if Nested(updates, creates, deletes) {
      OpsOfOneOrGroup(deletes);
      OpsOfOneOrGroup(creates + updates);
      OpsOfTwo(OneOrGroup(deletes), OneOrGroup(creates + updates));
      OpsAllJoin(creates, updates);
      var level := LevelActions(updates, creates, deletes);
      assert level[1..] == [];
      assert Flat(level) == OpsOf(level[0]) + [];
    } else {
      FlatNonNull(Wrap(updates + creates + deletes));
      FlatWrap(updates + creates + deletes);
      OpsAllJoin(updates + creates, deletes);
      OpsAllJoin(updates, creates);
    }
  }

  // ------------------------------------------------------------------------
  // Where plans act
  // ------------------------------------------------------------------------

  /** All actions are on resources at or below `path`. */
  predicate Within(ops: seq<Op>, path: Path) {
    forall n | 0 <= n < |ops| :: path <= ops[n].path
  }

  lemma {:induction false} WithinJoin(a: seq<Op>, b: seq<Op>, path: Path)
    requires Within(a, path) && Within(b, path)
    ensures Within(a + b, path)
  {
  }

  lemma {:induction false} WithinLonger(ops: seq<Op>, path: Path, name: string)
    requires Within(ops, path + [name])
    ensures Within(ops, path)
  {
    forall n | 0 <= n < |ops| ensures path <= ops[n].path {
      assert path <= path + [name] <= ops[n].path;
    }
  }

  lemma {:induction false} WithinUntouched(ops: seq<Op>, path: Path, r: PlainResource)
    requires Within(ops, path) && !(path <= r.path)
    ensures Untouched(ops, r)
  {
  }

  lemma {:induction false} CreateWithin(s: Settings, d: Deployment, path: Path)
    ensures Within(OpsOf(CreatePlan(s, d, path)), path)
    decreases d, 0, 0
  {
    match d {
      case Vm(_, _, _, _, _, _, _) =>
        VmCreateOps(s, d, path);
      case Environment(_, _) =>
      case External(_) =>
      case Composite(_, service, children) =>
        CreateAllWithin(s, children, path);
        OpsOfComposite(CreateAll(s, children, path), None, AfterCreated(s, service, path));
        HookWithin(s, service, path);
    }
  }

  lemma {:induction false} CreateAllWithin(s: Settings, ds: seq<Deployment>, path: Path)
    ensures Within(Flat(CreateAll(s, ds, path)), path)
    decreases ds, 1, |ds|
  {
    if ds != [] {
      CreateWithin(s, ds[0], path + [ds[0].name]);
      WithinLonger(OpsOf(CreatePlan(s, ds[0], path + [ds[0].name])), path, ds[0].name);
      CreateAllWithin(s, ds[1..], path);
    }
  }

  lemma {:induction false} DeleteWithin(s: Settings, d: Deployment, path: Path)
    ensures Within(OpsOf(DeletePlan(s, d, path)), path)
    decreases d, 0, 0
  {
    match d {
      case Vm(_, _, _, _, _, _, _) =>
        VmDeleteOps(s, d, path);
      case Environment(_, _) =>
      case External(_) =>
      case Composite(_, service, children) =>
        DeleteAllWithin(s, children, path);
        OpsOfComposite(DeleteAll(s, children, path), None, AfterDeleted(s, service, path));
        HookWithin(s, service, path);
    }
  }

  lemma {:induction false} DeleteAllWithin(s: Settings, ds: seq<Deployment>, path: Path)
    ensures Within(Flat(DeleteAll(s, ds, path)), path)
    decreases ds, 1, |ds|
  {
    if ds != [] {
      DeleteWithin(s, ds[0], path + [ds[0].name]);
      WithinLonger(OpsOf(DeletePlan(s, ds[0], path + [ds[0].name])), path, ds[0].name);
      DeleteAllWithin(s, ds[1..], path);
    }
  }

  /** The actions that create a virtual machine, in order. */
  lemma {:induction false} VmCreateOps(s: Settings, d: Deployment, path: Path)
    requires d.Vm?
    ensures OpsOf(CreatePlan(s, d, path)) ==
      [CreateVm(path, d.params)]
      + (if s.configureOnCreate then [ConfigureVm(path, d.params, s.fixed)] else [])
      + (if s.firewalled then [CreateFirewallRules(path, d.rules, d.node, d.supplies)] else [])
      + [ProvisionVm(path, d.runlist)]
  {
    OpsOfTwo(CreateMachine(s, d, path), Act(ProvisionVm(path, d.runlist)));
    OpsOfThree(Act(CreateVm(path, d.params)), ActIf(s.configureOnCreate, ConfigureVm(path, d.params, s.fixed)),
               ActIf(s.firewalled, CreateFirewallRules(path, d.rules, d.node, d.supplies)));
  }

  lemma {:induction false} VmDeleteOps(s: Settings, d: Deployment, path: Path)
    requires d.Vm?
    ensures OpsOf(DeletePlan(s, d, path)) == [DeleteChefNode(path), DeleteVm(path)]
  {
    OpsOfTwo(Act(DeleteChefNode(path)), Act(DeleteVm(path)));
  }

  lemma {:induction false} HookWithin(s: Settings, service: Option<Service>, path: Path)
    ensures Within(OpsOf(AfterCreated(s, service, path)), path)
    ensures Within(OpsOf(AfterDeleted(s, service, path)), path)
  {
    HookOps(s, service, path);
  }

  lemma {:induction false} ServiceOps(s: Settings, service: Service, proxy: string, path: Path)
    ensures OpsOf(ServiceActions(s, service, proxy, path)) ==
      [ConfigureProxy(path, proxy, service.config)]
      + (if service.gateway in s.firewalledGateways then [OpenPorts(path, service.gateway, service.ports)] else [])
  {
    OpsOfTwo(Act(ConfigureProxy(path, proxy, service.config)),
             ActIf(service.gateway in s.firewalledGateways, OpenPorts(path, service.gateway, service.ports)));
  }

  lemma {:induction false} HookOps(s: Settings, service: Option<Service>, path: Path)
    ensures OpsOf(AfterCreated(s, service, path)) ==
      if service.None? then []
      else [ConfigureProxy(path, service.value.gateway, service.value.config)]
           + (if service.value.gateway in s.firewalledGateways
              then [OpenPorts(path, service.value.gateway, service.value.ports)] else [])
    ensures OpsOf(AfterDeleted(s, service, path)) ==
      if service.None? then []
      else [DeleteProxy(path, service.value.gateway)]
           + (if service.value.gateway in s.firewalledGateways then [ClosePorts(path, service.value.gateway)] else [])
  {
    if service.Some? {
      var gateway := service.value.gateway;
      ServiceOps(s, service.value, gateway, path);
      OpsOfTwo(Act(DeleteProxy(path, gateway)), ActIf(gateway in s.firewalledGateways, ClosePorts(path, gateway)));
    }
  }

  /** Where an update writes the proxy's configuration. */
  function ProxyOf(before: Option<Service>, after: Service): string {
    if before.Some? then before.value.gateway else after.gateway
  }

  lemma {:induction false} UpdateHookOps(s: Settings, before: Option<Service>, after: Option<Service>, path: Path)
    ensures OpsOf(AfterUpdated(s, before, after, path)) ==
      if after.None? then []
      else OpsOf(AfterDeleted(s, before, path)) + OpsOf(ServiceActions(s, after.value, ProxyOf(before, after.value), path))
  {
    if after.Some? {
      OpsOfTwo(AfterDeleted(s, before, path), ServiceActions(s, after.value, ProxyOf(before, after.value), path));
    }
  }

  lemma {:induction false} UpdateHookWithin(s: Settings, before: Option<Service>, after: Option<Service>, path: Path)
    ensures Within(OpsOf(AfterUpdated(s, before, after, path)), path)
  {
    UpdateHookOps(s, before, after, path);
    HookWithin(s, before, path);
    if after.Some? {
      ServiceOps(s, after.value, ProxyOf(before, after.value), path);
    }
  }

  lemma {:induction false} UpdateVmWithin(s: Settings, b: Deployment, a: Deployment, path: Path)
    requires b.Vm? && a.Vm?
    ensures Within(OpsOf(UpdateMachine(s, b, a, path)), path)
  {
    UpdateVmOps(s, b, a, path);
    DeleteWithin(s, b, path);
    CreateWithin(s, a, path);
  }

  lemma {:induction false} UpdateWithin(s: Settings, b: Deployment, a: Deployment, path: Path)
    ensures Within(OpsOf(UpdatePlan(s, b, a, path)), path)
    decreases a, 0, 0
  {
    hide GenerateComposite, LevelActions, Within, AfterUpdated;
    match (b, a) {
      case (Vm(_, _, _, _, _, _, _), Vm(_, _, _, _, _, _, _)) =>
        UpdateVmWithin(s, b, a, path);
      case (Environment(_, _), Environment(_, attributes)) =>
        RecreateEnvironmentWithin(path, attributes);
      case (Composite(_, bService, olds), Composite(_, aService, news)) =>
        UpdateAllWithin(s, olds, news, path);
        LevelWithin(s, olds, news, path);
        UpdateOps(s, b, a, path);
        UpdateHookWithin(s, bService, aService, path);
        WithinJoin(LevelOps(s, olds, news, path), OpsOf(AfterUpdated(s, bService, aService, path)), path);
      case _ =>
        NothingWithin(path);
    }
  }

  lemma {:induction false} NothingWithin(path: Path)
    ensures Within([], path)
  {
  }

  lemma {:induction false} RecreateEnvironmentWithin(path: Path, attributes: string)
    ensures Within(OpsOf(None), path)
    ensures Within(OpsOf(Some(ActionSequence(
      [Act(DeleteEnvironment(path)), Act(CreateEnvironment(path, attributes))]))), path)
  {
    OpsOfTwo(Act(DeleteEnvironment(path)), Act(CreateEnvironment(path, attributes)));
  }

  lemma {:induction false} LevelWithin(s: Settings, olds: seq<Deployment>, news: seq<Deployment>, path: Path)
    requires Within(OpsAll(UpdateAll(s, olds, news, path)), path)
    ensures Within(LevelOps(s, olds, news, path), path)
  {
    CreateNewWithin(s, olds, news, path);
    DeleteOldWithin(s, olds, news, path);
  }

  lemma {:induction false} UpdateVmOps(s: Settings, b: Deployment, a: Deployment, path: Path)
    requires b.Vm? && a.Vm?
    ensures OpsOf(UpdateMachine(s, b, a, path)) ==
      if Recreated(s, b, a, path) then OpsOf(DeletePlan(s, b, path)) + OpsOf(CreatePlan(s, a, path))
      else [UpdateVm(path, a.params, s.fixed)]
           + (if a.force || s.envStale || b.runlist != a.runlist then [ProvisionVm(path, a.runlist)] else [])
  {
    OpsOfTwo(DeletePlan(s, b, path), CreatePlan(s, a, path));
    OpsOfTwo(Act(UpdateVm(path, a.params, s.fixed)),
             ActIf(a.force || s.envStale || b.runlist != a.runlist, ProvisionVm(path, a.runlist)));
  }

  /** The actions of the children of an updated composite. */
  function LevelOps(s: Settings, olds: seq<Deployment>, news: seq<Deployment>, path: Path): seq<Op> {
    var updates := UpdateAll(s, olds, news, path);
    var creates := NonNull(CreateNew(s, olds, news, path));
    var deletes := NonNull(DeleteOld(s, olds, news, path));
    if Nested(updates, creates, deletes) then OpsAll(deletes) + (OpsAll(creates) + OpsAll(updates))
    else OpsAll(updates) + OpsAll(creates) + OpsAll(deletes)
  }

  lemma {:induction false} CompositeUpdate(s: Settings, b: Deployment, a: Deployment, path: Path)
    requires b.Composite? && a.Composite?
    ensures UpdatePlan(s, b, a, path) ==
      GenerateComposite(LevelActions(UpdateAll(s, b.children, a.children, path), NonNull(CreateNew(s, b.children, a.children, path)),
                                     NonNull(DeleteOld(s, b.children, a.children, path))),
                        None, AfterUpdated(s, b.service, a.service, path))
  {
    hide GenerateComposite, LevelActions, AfterUpdated, UpdateAll, CreateNew, DeleteOld, NonNull;
  }

  lemma {:induction false} NoOpsBefore()
    ensures OpsOf(None) == []
  {
  }

  lemma {:induction false} UpdateOps(s: Settings, b: Deployment, a: Deployment, path: Path)
    requires b.Composite? && a.Composite?
    ensures OpsOf(UpdatePlan(s, b, a, path)) ==
      LevelOps(s, b.children, a.children, path) + OpsOf(AfterUpdated(s, b.service, a.service, path))
  {
    hide UpdatePlan, GenerateComposite, LevelActions, AfterUpdated, UpdateAll, CreateNew, DeleteOld, NonNull, Ops, OpsAll, Flat, OpsOf;
    var updates := UpdateAll(s, b.children, a.children, path);
    var creates := NonNull(CreateNew(s, b.children, a.children, path));
    var deletes := NonNull(DeleteOld(s, b.children, a.children, path));
    CompositeUpdate(s, b, a, path);
    OpsOfLevel(updates, creates, deletes);
    OpsOfComposite(LevelActions(updates, creates, deletes), None, AfterUpdated(s, b.service, a.service, path));
    NoOpsBefore();
    assert OpsOf(None) + LevelOps(s, b.children, a.children, path) == LevelOps(s, b.children, a.children, path);
  }

  lemma {:induction false} UpdateAllWithin(s: Settings, olds: seq<Deployment>, news: seq<Deployment>, path: Path)
    ensures Within(OpsAll(UpdateAll(s, olds, news, path)), path)
    decreases news, 1, |news|
  {
    if news != [] {
      var b := ChildByName(olds, news[0].name);
      UpdateAllWithin(s, olds, news[1..], path);
      if b.Some? {
        var update := UpdatePlan(s, b.value, news[0], path + [news[0].name]);
        UpdateWithin(s, b.value, news[0], path + [news[0].name]);
        WithinLonger(OpsOf(update), path, news[0].name);
        if update.Some? {
          assert UpdateAll(s, olds, news, path) == [update.value] + UpdateAll(s, olds, news[1..], path);
        } else {
          assert UpdateAll(s, olds, news, path) == UpdateAll(s, olds, news[1..], path);
        }
      } else {
        assert UpdateAll(s, olds, news, path) == UpdateAll(s, olds, news[1..], path);
      }
    }
  }

  lemma {:induction false} CreateNewWithin(s: Settings, olds: seq<Deployment>, news: seq<Deployment>, path: Path)
    ensures Within(OpsAll(NonNull(CreateNew(s, olds, news, path))), path)
    decreases |news|
  {
    FlatNonNull(CreateNew(s, olds, news, path));
    if news != [] {
      CreateNewWithin(s, olds, news[1..], path);
      FlatNonNull(CreateNew(s, olds, news[1..], path));
      CreateWithin(s, news[0], path + [news[0].name]);
      WithinLonger(OpsOf(CreatePlan(s, news[0], path + [news[0].name])), path, news[0].name);
    }
  }

  lemma {:induction false} DeleteOldWithin(s: Settings, olds: seq<Deployment>, news: seq<Deployment>, path: Path)
    ensures Within(OpsAll(NonNull(DeleteOld(s, olds, news, path))), path)
    decreases |olds|
  {
    FlatNonNull(DeleteOld(s, olds, news, path));
    if olds != [] {
      DeleteOldWithin(s, olds[1..], news, path);
      FlatNonNull(DeleteOld(s, olds[1..], news, path));
      DeleteWithin(s, olds[0], path + [olds[0].name]);
      WithinLonger(OpsOf(DeletePlan(s, olds[0], path + [olds[0].name])), path, olds[0].name);
    }
  }

  // ------------------------------------------------------------------------
  // What plans leave, resource by resource
  // ------------------------------------------------------------------------

  lemma {:induction false} TrailTwo(x: Op, y: Op, r: PlainResource, v: Option<Value>)
    ensures Trail([x], r, v) == Effect(x, r, v)
    ensures Trail([x, y], r, v) == Effect(y, r, Effect(x, r, v))
  {
    assert [x][1..] == [] && [x, y][1..] == [y] && [y][1..] == [];
    assert Trail([y], r, Effect(x, r, v)) == Effect(y, r, Effect(x, r, v));
  }

  lemma {:induction false} ReconfiguredSame(params: map<string, string>, fixed: set<string>)
    ensures Reconfigured(params, params, fixed) == params
  {
  }

  lemma {:induction false} VmCreateTrail(s: Settings, d: Deployment, path: Path, r: PlainResource)
    requires d.Vm?
    ensures Trail(OpsOf(CreatePlan(s, d, path)), r, None) == At(s, d, path, r)
  {
    VmCreateOps(s, d, path);
    ReconfiguredSame(d.params, s.fixed);
    var create, provision := CreateVm(path, d.params), ProvisionVm(path, d.runlist);
    var configure := if s.configureOnCreate then [ConfigureVm(path, d.params, s.fixed)] else [];
    var rules := if s.firewalled then [CreateFirewallRules(path, d.rules, d.node, d.supplies)] else [];
    TrailJoin([create] + configure + rules, [provision], r, None);
    TrailJoin([create] + configure, rules, r, None);
    TrailJoin([create], configure, r, None);
    var v1 := Trail([create], r, None);
    var v2 := Trail(configure, r, v1);
    var v3 := Trail(rules, r, v2);
    TrailTwo(create, create, r, None);
    TrailTwo(ConfigureVm(path, d.params, s.fixed), create, r, v1);
    TrailTwo(CreateFirewallRules(path, d.rules, d.node, d.supplies), create, r, v2);
    TrailTwo(provision, create, r, v3);
  }

  lemma {:induction false} VmDeleteTrail(s: Settings, d: Deployment, path: Path, r: PlainResource)
    requires d.Vm?
    ensures Trail(OpsOf(DeletePlan(s, d, path)), r, At(s, d, path, r)) == None
  {
    VmDeleteOps(s, d, path);
    TrailTwo(DeleteChefNode(path), DeleteVm(path), r, At(s, d, path, r));
  }

  /** What follows the children acts on the composite's own resources only. */
  lemma {:induction false} HookTrail(s: Settings, service: Option<Service>, path: Path, r: PlainResource, v: Option<Value>)
    ensures Trail(OpsOf(AfterCreated(s, service, path)), r, v) ==
      if r.path == path && OwnAt(s, service, r.part).Some? then OwnAt(s, service, r.part) else v
    ensures Trail(OpsOf(AfterDeleted(s, service, path)), r, v) ==
      if r.path == path && OwnAt(s, service, r.part).Some? then None else v
  {
    HookOps(s, service, path);
    if service.Some? {
      var gateway := service.value.gateway;
      ServiceTrail(s, service.value, gateway, path, r, v);
      TrailTwo(DeleteProxy(path, gateway), ClosePorts(path, gateway), r, v);
    }
  }

  lemma {:induction false} ServiceTrail(s: Settings, service: Service, proxy: string, path: Path, r: PlainResource, v: Option<Value>)
    ensures Trail(OpsOf(ServiceActions(s, service, proxy, path)), r, v) ==
      if r == Resource(path, Proxy(proxy)) then Some(Text(service.config))
      else if r == Resource(path, PublicPorts(service.gateway)) && service.gateway in s.firewalledGateways then Some(Text(service.ports))
      else v
  {
    ServiceOps(s, service, proxy, path);
    TrailTwo(ConfigureProxy(path, proxy, service.config), OpenPorts(path, service.gateway, service.ports), r, v);
  }

  lemma {:induction false} AtWithin(s: Settings, d: Deployment, path: Path, r: PlainResource)
    requires !(path <= r.path)
    ensures At(s, d, path, r) == None
    decreases d, 0, 0
  {
    if d.Composite? {
      AtAllWithin(s, d.children, path, r);
    }
  }

  lemma {:induction false} AtAllWithin(s: Settings, ds: seq<Deployment>, path: Path, r: PlainResource)
    requires !(path <= r.path)
    ensures AtAll(s, ds, path, r) == None
    decreases ds, 1, |ds|
  {
    if ds != [] {
      assert path <= path + [ds[0].name];
      AtAllWithin(s, ds[1..], path, r);
    }
  }

  /** Below `path` a resource belongs to one child at most. */
  lemma {:induction false} OneChild(path: Path, m: string, n: string, r: PlainResource)
    requires path + [m] <= r.path && path + [n] <= r.path
    ensures m == n
  {
    assert r.path[|path|] == m && r.path[|path|] == n;
  }

  lemma {:induction false} OutsideChild(ops: seq<Op>, path: Path, name: string, r: PlainResource)
    requires Within(ops, path + [name]) && !(path + [name] <= r.path)
    ensures forall v :: Trail(ops, r, v) == v
  {
    WithinUntouched(ops, path + [name], r);
    forall v ensures Trail(ops, r, v) == v {
      TrailUntouched(ops, r, v);
    }
  }

  /** Creating a deployment where there is nothing leaves what it describes. */
  lemma {:induction false} CreateLeaves(s: Settings, d: Deployment, path: Path, r: PlainResource)
    requires WellNamed(d)
    ensures Trail(OpsOf(CreatePlan(s, d, path)), r, None) == At(s, d, path, r)
    decreases d, 0, 0
  {
    match d {
      case Vm(_, _, _, _, _, _, _) =>
        VmCreateTrail(s, d, path, r);
      case Environment(_, attributes) =>
        TrailTwo(CreateEnvironment(path, attributes), DeleteEnvironment(path), r, None);
      case External(_) =>
      case Composite(_, service, children) =>
        CreateAllLeaves(s, children, path, r);
        var hook := AfterCreated(s, service, path);
        OpsOfComposite(CreateAll(s, children, path), None, hook);
        assert [] + Flat(CreateAll(s, children, path)) == Flat(CreateAll(s, children, path));
        TrailJoin(Flat(CreateAll(s, children, path)), OpsOf(hook), r, None);
        HookTrail(s, service, path, r, AtAll(s, children, path, r));
        NotAChild(s, children, path, r);
    }
  }

  lemma {:induction false} NotAChild(s: Settings, ds: seq<Deployment>, path: Path, r: PlainResource)
    ensures r.path == path ==> AtAll(s, ds, path, r) == None
    decreases |ds|
  {
    if ds != [] {
      NotAChild(s, ds[1..], path, r);
    }
  }

  lemma {:induction false} CreateAllLeaves(s: Settings, ds: seq<Deployment>, path: Path, r: PlainResource)
    requires DistinctNames(ds) && forall c :: c in ds ==> WellNamed(c)
    ensures Trail(Flat(CreateAll(s, ds, path)), r, None) == AtAll(s, ds, path, r)
    decreases ds, 1, |ds|
  {
    if ds != [] {
      var here := path + [ds[0].name];
      var first, rest := OpsOf(CreatePlan(s, ds[0], here)), Flat(CreateAll(s, ds[1..], path));
      RestDistinct(ds);
      TrailJoin(first, rest, r, None);
      CreateLeaves(s, ds[0], here, r);
      CreateAllLeaves(s, ds[1..], path, r);
      if here <= r.path {
        CreateAllElsewhere(s, ds[1..], path, r, ds[0].name);
      } else {
        AtWithin(s, ds[0], here, r);
      }
    }
  }

  lemma {:induction false} RestDistinct(ds: seq<Deployment>)
    requires ds != [] && DistinctNames(ds)
    ensures DistinctNames(ds[1..])
    ensures forall c :: c in ds[1..] ==> c in ds && c.name != ds[0].name
  {
    forall i | 0 <= i < |ds[1..]| ensures ds[1..][i] == ds[i + 1] && ds[i + 1].name != ds[0].name {
    }
  }

  lemma {:induction false} CreateAllElsewhere(s: Settings, ds: seq<Deployment>, path: Path, r: PlainResource, name: string)
    requires path + [name] <= r.path && forall c :: c in ds ==> c.name != name
    ensures forall v :: Trail(Flat(CreateAll(s, ds, path)), r, v) == v
    decreases |ds|
  {
    if ds != [] {
      var here := path + [ds[0].name];
      var first, rest := OpsOf(CreatePlan(s, ds[0], here)), Flat(CreateAll(s, ds[1..], path));
      CreateAllElsewhere(s, ds[1..], path, r, name);
      CreateWithin(s, ds[0], here);
      if here <= r.path {
        OneChild(path, name, ds[0].name, r);
      }
      OutsideChild(first, path, ds[0].name, r);
      forall v ensures Trail(Flat(CreateAll(s, ds, path)), r, v) == v {
        TrailJoin(first, rest, r, v);
      }
    }
  }

  /** Deleting a deployment leaves nothing of what it describes. */
  lemma {:induction false} DeleteLeaves(s: Settings, d: Deployment, path: Path, r: PlainResource)
    requires WellNamed(d)
    ensures Trail(OpsOf(DeletePlan(s, d, path)), r, At(s, d, path, r)) == None
    decreases d, 0, 0
  {
    match d {
      case Vm(_, _, _, _, _, _, _) =>
        VmDeleteTrail(s, d, path, r);
      case Environment(_, attributes) =>
        TrailTwo(DeleteEnvironment(path), DeleteEnvironment(path), r, At(s, d, path, r));
      case External(_) =>
      case Composite(_, service, children) =>
        var v := At(s, d, path, r);
        var hook := AfterDeleted(s, service, path);
        var ops := Flat(DeleteAll(s, children, path));
        OpsOfComposite(DeleteAll(s, children, path), None, hook);
        assert [] + ops == ops;
        TrailJoin(ops, OpsOf(hook), r, v);
        if r.path == path {
          DeleteAllSpares(s, children, path, r);
        } else {
          DeleteAllLeaves(s, children, path, r);
        }
        HookTrail(s, service, path, r, Trail(ops, r, v));
    }
  }

  lemma {:induction false} DeleteAllSpares(s: Settings, ds: seq<Deployment>, path: Path, r: PlainResource)
    requires r.path == path
    ensures forall v :: Trail(Flat(DeleteAll(s, ds, path)), r, v) == v
    decreases |ds|
  {
    if ds != [] {
      var here := path + [ds[0].name];
      var first, rest := OpsOf(DeletePlan(s, ds[0], here)), Flat(DeleteAll(s, ds[1..], path));
      DeleteAllSpares(s, ds[1..], path, r);
      DeleteWithin(s, ds[0], here);
      OutsideChild(first, path, ds[0].name, r);
      forall v ensures Trail(Flat(DeleteAll(s, ds, path)), r, v) == v {
        TrailJoin(first, rest, r, v);
      }
    }
  }

  lemma {:induction false} DeleteAllLeaves(s: Settings, ds: seq<Deployment>, path: Path, r: PlainResource)
    requires DistinctNames(ds) && forall c :: c in ds ==> WellNamed(c)
    ensures Trail(Flat(DeleteAll(s, ds, path)), r, AtAll(s, ds, path, r)) == None
    decreases ds, 1, |ds|
  {
    if ds != [] {
      var here := path + [ds[0].name];
      var first, rest := OpsOf(DeletePlan(s, ds[0], here)), Flat(DeleteAll(s, ds[1..], path));
      RestDistinct(ds);
      TrailJoin(first, rest, r, AtAll(s, ds, path, r));
      DeleteAllLeaves(s, ds[1..], path, r);
      if here <= r.path {
        DeleteLeaves(s, ds[0], here, r);
        NotAmong(s, ds[1..], path, r, ds[0].name);
      } else {
        DeleteWithin(s, ds[0], here);
        OutsideChild(first, path, ds[0].name, r);
      }
    }
  }

  lemma {:induction false} NotAmong(s: Settings, ds: seq<Deployment>, path: Path, r: PlainResource, name: string)
    requires path + [name] <= r.path && forall c :: c in ds ==> c.name != name
    ensures AtAll(s, ds, path, r) == None
    decreases |ds|
  {
    if ds != [] {
      if path + [ds[0].name] <= r.path {
        OneChild(path, name, ds[0].name, r);
      }
      NotAmong(s, ds[1..], path, r, name);
    }
  }

  // ------------------------------------------------------------------------
  // What an update leaves
  // ------------------------------------------------------------------------

  /**
    What an update leaves of a resource. A machine that is not recreated keeps its fixed
    parameters and its firewall rules, and a service its proxy at the old gateway; everything
    else is as the new deployment says.
  */
  function Left(s: Settings, b: Deployment, a: Deployment, path: Path, r: PlainResource): Option<Value>
    decreases a, 0, 0
  {
    match (b, a)
    case (Vm(_, was, _, _, _, _, _), Vm(_, params, _, _, _, _, _)) =>
      if Recreated(s, b, a, path) then At(s, a, path, r)
      else if r == Resource(path, Machine) then Some(Parameters(Reconfigured(was, params, s.fixed)))
      else if r == Resource(path, Firewall) then At(s, b, path, r)
      else At(s, a, path, r)
    case (Environment(_, _), Environment(_, _)) =>
      if s.envStale then At(s, a, path, r) else At(s, b, path, r)
    case (Composite(_, bService, olds), Composite(_, aService, news)) =>
      if r.path == path then OwnLeft(s, bService, aService, r.part) else LeftAll(s, olds, news, path, r)
    case _ => None
  }

  function OwnLeft(s: Settings, before: Option<Service>, after: Option<Service>, part: Part): Option<Value> {
    if part.Proxy? && after.Some? then
      if part.gateway == ProxyOf(before, after.value) then Some(Text(after.value.config)) else None
    else
      OwnAt(s, after, part)
  }

  function LeftAll(s: Settings, olds: seq<Deployment>, news: seq<Deployment>, path: Path, r: PlainResource): Option<Value>
    decreases news, 1, |news|
  {
    if news == [] then None
    else
      var here := path + [news[0].name];
      var b := ChildByName(olds, news[0].name);
      if here <= r.path then
        if b.Some? then Left(s, b.value, news[0], here, r) else At(s, news[0], here, r)
      else
        LeftAll(s, olds, news[1..], path, r)
  }

  lemma {:induction false} UpdateVmLeaves(s: Settings, b: Deployment, a: Deployment, path: Path, r: PlainResource)
    requires b.Vm? && a.Vm?
    ensures Trail(OpsOf(UpdateMachine(s, b, a, path)), r, At(s, b, path, r)) == Left(s, b, a, path, r)
  {
    UpdateVmOps(s, b, a, path);
    if Recreated(s, b, a, path) {
      TrailJoin(OpsOf(DeletePlan(s, b, path)), OpsOf(CreatePlan(s, a, path)), r, At(s, b, path, r));
      VmDeleteTrail(s, b, path, r);
      VmCreateTrail(s, a, path, r);
    } else {
      TrailTwo(UpdateVm(path, a.params, s.fixed), ProvisionVm(path, a.runlist), r, At(s, b, path, r));
    }
  }

  ghost predicate Children(ds: seq<Deployment>) {
    DistinctNames(ds) && forall c :: c in ds ==> WellNamed(c)
  }

  /** The child to which a resource below `path` belongs. */
  lemma {:induction false} AtChild(s: Settings, ds: seq<Deployment>, path: Path, r: PlainResource, name: string)
    requires path + [name] <= r.path
    ensures AtAll(s, ds, path, r) ==
      var c := ChildByName(ds, name);
      if c.None? then None else At(s, c.value, path + [name], r)
    decreases |ds|
  {
    if ds != [] {
      if path + [ds[0].name] <= r.path {
        OneChild(path, name, ds[0].name, r);
      }
      AtChild(s, ds[1..], path, r, name);
    }
  }

  lemma {:induction false} LeftChild(s: Settings, olds: seq<Deployment>, news: seq<Deployment>, path: Path, r: PlainResource, name: string)
    requires path + [name] <= r.path
    ensures LeftAll(s, olds, news, path, r) ==
      var b, a := ChildByName(olds, name), ChildByName(news, name);
      if a.None? then None
      else if b.None? then At(s, a.value, path + [name], r)
      else Left(s, b.value, a.value, path + [name], r)
    decreases |news|
  {
    if news != [] {
      if path + [news[0].name] <= r.path {
        OneChild(path, name, news[0].name, r);
      }
      LeftChild(s, olds, news[1..], path, r, name);
    }
  }

  /** The resource belongs to a child of `news` that is, or is not, also a child of `olds`. */
  ghost predicate InChild(news: seq<Deployment>, olds: seq<Deployment>, matched: bool, path: Path, r: PlainResource) {
    exists c :: c in news && path + [c.name] <= r.path && ChildByName(olds, c.name).Some? == matched
  }

  lemma {:induction false} InFirst(news: seq<Deployment>, olds: seq<Deployment>, matched: bool, path: Path, r: PlainResource)
    requires news != []
    ensures InChild(news, olds, matched, path, r) ==
      if path + [news[0].name] <= r.path then ChildByName(olds, news[0].name).Some? == matched
      else InChild(news[1..], olds, matched, path, r)
  {
    assert forall c :: c in news ==> c == news[0] || c in news[1..];
    if path + [news[0].name] <= r.path {
      forall c | c in news && path + [c.name] <= r.path ensures c.name == news[0].name {
        OneChild(path, news[0].name, c.name, r);
      }
      assert news[0] in news;
    } else {
      assert forall c :: c in news[1..] ==> c in news;
    }
  }

  /** What the updates of the matched children do to a resource. */
  lemma {:induction false} UpdateAllTrail(s: Settings, olds: seq<Deployment>, news: seq<Deployment>, path: Path, r: PlainResource, v: Option<Value>)
    requires Children(olds) && Children(news) && forall c :: c in news ==> SameKindAs(olds, c)
    requires InChild(news, olds, true, path, r) ==> v == AtAll(s, olds, path, r)
    ensures Trail(OpsAll(UpdateAll(s, olds, news, path)), r, v) ==
      if InChild(news, olds, true, path, r) then LeftAll(s, olds, news, path, r) else v
    decreases news, 1, |news|
  {
    if news != [] {
      var name := news[0].name;
      var here := path + [name];
      var b := ChildByName(olds, name);
      var first := if b.None? then [] else OpsOf(UpdatePlan(s, b.value, news[0], here));
      var rest := OpsAll(UpdateAll(s, olds, news[1..], path));
      RestDistinct(news);
      InFirst(news, olds, true, path, r);
      UpdateAllFirst(s, olds, news, path);
      TrailJoin(first, rest, r, v);
      if here <= r.path {
        UpdateAllElsewhere(s, olds, news[1..], path, r, name);
        if b.Some? {
          AtChild(s, olds, path, r, name);
          assert SameKindAs(olds, news[0]);
          UpdateLeaves(s, b.value, news[0], here, r);
        }
      } else {
        UpdateAllTrail(s, olds, news[1..], path, r, v);
        if b.Some? {
          UpdateWithin(s, b.value, news[0], here);
          OutsideChild(first, path, name, r);
        }
      }
    }
  }

  lemma {:induction false} UpdateAllFirst(s: Settings, olds: seq<Deployment>, news: seq<Deployment>, path: Path)
    requires news != []
    ensures var b := ChildByName(olds, news[0].name);
            OpsAll(UpdateAll(s, olds, news, path)) ==
              (if b.None? then [] else OpsOf(UpdatePlan(s, b.value, news[0], path + [news[0].name])))
              + OpsAll(UpdateAll(s, olds, news[1..], path))
  {
    var b := ChildByName(olds, news[0].name);
    var update := if b.None? then None else UpdatePlan(s, b.value, news[0], path + [news[0].name]);
    var rest := UpdateAll(s, olds, news[1..], path);
    if update.Some? {
      assert UpdateAll(s, olds, news, path) == [update.value] + rest;
    } else {
      assert UpdateAll(s, olds, news, path) == rest;
    }
  }

  lemma {:induction false} UpdateAllElsewhere(s: Settings, olds: seq<Deployment>, news: seq<Deployment>, path: Path, r: PlainResource, name: string)
    requires path + [name] <= r.path && forall c :: c in news ==> c.name != name
    ensures forall v :: Trail(OpsAll(UpdateAll(s, olds, news, path)), r, v) == v
    decreases |news|
  {
    if news != [] {
      var here := path + [news[0].name];
      var b := ChildByName(olds, news[0].name);
      var first := if b.None? then [] else OpsOf(UpdatePlan(s, b.value, news[0], here));
      UpdateAllElsewhere(s, olds, news[1..], path, r, name);
      UpdateAllFirst(s, olds, news, path);
      if b.Some? {
        UpdateWithin(s, b.value, news[0], here);
      }
      if here <= r.path {
        OneChild(path, name, news[0].name, r);
      }
      OutsideChild(first, path, news[0].name, r);
      forall v ensures Trail(OpsAll(UpdateAll(s, olds, news, path)), r, v) == v {
        TrailJoin(first, OpsAll(UpdateAll(s, olds, news[1..], path)), r, v);
      }
    }
  }

  /** What the creations of the new children do to a resource. */
  lemma {:induction false} CreateNewTrail(s: Settings, olds: seq<Deployment>, news: seq<Deployment>, path: Path, r: PlainResource, v: Option<Value>)
    requires Children(news)
    requires InChild(news, olds, false, path, r) ==> v == None
    ensures Trail(OpsAll(NonNull(CreateNew(s, olds, news, path))), r, v) ==
      if InChild(news, olds, false, path, r) then AtAll(s, news, path, r) else v
    decreases |news|
  {
    FlatNonNull(CreateNew(s, olds, news, path));
    if news != [] {
      var name := news[0].name;
      var here := path + [name];
      var first := if ChildByName(olds, name).Some? then [] else OpsOf(CreatePlan(s, news[0], here));
      FlatNonNull(CreateNew(s, olds, news[1..], path));
      RestDistinct(news);
      InFirst(news, olds, false, path, r);
      TrailJoin(first, Flat(CreateNew(s, olds, news[1..], path)), r, v);
      if here <= r.path {
        CreateNewElsewhere(s, olds, news[1..], path, r, name);
        CreateLeaves(s, news[0], here, r);
      } else {
        CreateNewTrail(s, olds, news[1..], path, r, v);
        CreateWithin(s, news[0], here);
        OutsideChild(first, path, name, r);
      }
    }
  }

  lemma {:induction false} CreateNewElsewhere(s: Settings, olds: seq<Deployment>, news: seq<Deployment>, path: Path, r: PlainResource, name: string)
    requires path + [name] <= r.path && forall c :: c in news ==> c.name != name
    ensures forall v :: Trail(Flat(CreateNew(s, olds, news, path)), r, v) == v
    decreases |news|
  {
    if news != [] {
      var here := path + [news[0].name];
      CreateNewElsewhere(s, olds, news[1..], path, r, name);
      var first := if ChildByName(olds, news[0].name).Some? then [] else OpsOf(CreatePlan(s, news[0], here));
      CreateWithin(s, news[0], here);
      if here <= r.path {
        OneChild(path, name, news[0].name, r);
      }
      OutsideChild(first, path, news[0].name, r);
      forall v ensures Trail(Flat(CreateNew(s, olds, news, path)), r, v) == v {
        TrailJoin(first, Flat(CreateNew(s, olds, news[1..], path)), r, v);
      }
    }
  }

  /** What the deletions of the old children do to a resource. */
  lemma {:induction false} DeleteOldTrail(s: Settings, olds: seq<Deployment>, news: seq<Deployment>, path: Path, r: PlainResource, v: Option<Value>)
    requires Children(olds)
    requires InChild(olds, news, false, path, r) ==> v == AtAll(s, olds, path, r)
    ensures Trail(OpsAll(NonNull(DeleteOld(s, olds, news, path))), r, v) ==
      if InChild(olds, news, false, path, r) then None else v
    decreases |olds|
  {
    FlatNonNull(DeleteOld(s, olds, news, path));
    if olds != [] {
      var name := olds[0].name;
      var here := path + [name];
      var first := if ChildByName(news, name).Some? then [] else OpsOf(DeletePlan(s, olds[0], here));
      FlatNonNull(DeleteOld(s, olds[1..], news, path));
      RestDistinct(olds);
      InFirst(olds, news, false, path, r);
      TrailJoin(first, Flat(DeleteOld(s, olds[1..], news, path)), r, v);
      if here <= r.path {
        DeleteOldElsewhere(s, olds[1..], news, path, r, name);
        DeleteLeaves(s, olds[0], here, r);
      } else {
        DeleteOldTrail(s, olds[1..], news, path, r, v);
        DeleteWithin(s, olds[0], here);
        OutsideChild(first, path, name, r);
      }
    }
  }

  lemma {:induction false} DeleteOldElsewhere(s: Settings, olds: seq<Deployment>, news: seq<Deployment>, path: Path, r: PlainResource, name: string)
    requires path + [name] <= r.path && forall c :: c in olds ==> c.name != name
    ensures forall v :: Trail(Flat(DeleteOld(s, olds, news, path)), r, v) == v
    decreases |olds|
  {
    if olds != [] {
      var here := path + [olds[0].name];
      DeleteOldElsewhere(s, olds[1..], news, path, r, name);
      var first := if ChildByName(news, olds[0].name).Some? then [] else OpsOf(DeletePlan(s, olds[0], here));
      DeleteWithin(s, olds[0], here);
      if here <= r.path {
        OneChild(path, name, olds[0].name, r);
      }
      OutsideChild(first, path, olds[0].name, r);
      forall v ensures Trail(Flat(DeleteOld(s, olds, news, path)), r, v) == v {
        TrailJoin(first, Flat(DeleteOld(s, olds[1..], news, path)), r, v);
      }
    }
  }

  /** A resource below `path` belongs to one name; one on another path belongs to no child. */
  lemma {:induction false} InChildByName(news: seq<Deployment>, olds: seq<Deployment>, path: Path, r: PlainResource, name: string)
    requires path + [name] <= r.path
    ensures InChild(news, olds, true, path, r) <==> ChildByName(news, name).Some? && ChildByName(olds, name).Some?
    ensures InChild(news, olds, false, path, r) <==> ChildByName(news, name).Some? && ChildByName(olds, name).None?
  {
    forall c | c in news && path + [c.name] <= r.path ensures c.name == name {
      OneChild(path, name, c.name, r);
    }
  }

  lemma {:induction false} InNoChild(news: seq<Deployment>, olds: seq<Deployment>, matched: bool, path: Path, r: PlainResource)
    requires !(path < r.path)
    ensures !InChild(news, olds, matched, path, r)
  {
    forall c | c in news ensures !(path + [c.name] <= r.path) {
      assert path < path + [c.name];
    }
  }

  /** Each resource is changed by at most one of the lists of updates, creations and deletions. */
  lemma {:induction false} LevelTrail(s: Settings, olds: seq<Deployment>, news: seq<Deployment>, path: Path, r: PlainResource, v: Option<Value>)
    requires Children(olds) && Children(news) && forall c :: c in news ==> SameKindAs(olds, c)
    requires path < r.path ==> v == AtAll(s, olds, path, r)
    ensures Trail(LevelOps(s, olds, news, path), r, v) ==
      if path < r.path then LeftAll(s, olds, news, path, r) else v
    decreases news, 2, 0
  {
    var u := OpsAll(UpdateAll(s, olds, news, path));
    var c := OpsAll(NonNull(CreateNew(s, olds, news, path)));
    var d := OpsAll(NonNull(DeleteOld(s, olds, news, path)));
    if path < r.path {
      var name := r.path[|path|];
      assert path + [name] <= r.path;
      InChildByName(news, olds, path, r, name);
      InChildByName(olds, news, path, r, name);
      AtChild(s, olds, path, r, name);
      AtChild(s, news, path, r, name);
      LeftChild(s, olds, news, path, r, name);
    } else {
      InNoChild(news, olds, true, path, r);
      InNoChild(news, olds, false, path, r);
      InNoChild(olds, news, false, path, r);
    }
    // deletions, then creations, then updates
    DeleteOldTrail(s, olds, news, path, r, v);
    var v1 := Trail(d, r, v);
    CreateNewTrail(s, olds, news, path, r, v1);
    var v2 := Trail(c, r, v1);
    UpdateAllTrail(s, olds, news, path, r, v2);
    TrailJoin(c, u, r, v1);
    TrailJoin(d, c + u, r, v);
    // updates, then creations, then deletions
    UpdateAllTrail(s, olds, news, path, r, v);
    var w1 := Trail(u, r, v);
    CreateNewTrail(s, olds, news, path, r, w1);
    var w2 := Trail(c, r, w1);
    DeleteOldTrail(s, olds, news, path, r, w2);
    TrailJoin(u, c, r, v);
    TrailJoin(u + c, d, r, v);
  }

  lemma {:induction false} UpdateHookTrail(s: Settings, before: Option<Service>, after: Option<Service>, path: Path, r: PlainResource, v: Option<Value>)
    requires before.Some? == after.Some?
    requires r.path == path ==> v == OwnAt(s, before, r.part)
    ensures Trail(OpsOf(AfterUpdated(s, before, after, path)), r, v) ==
      if r.path == path then OwnLeft(s, before, after, r.part) else v
  {
    UpdateHookOps(s, before, after, path);
    if after.Some? {
      var proxy := ProxyOf(before, after.value);
      var deletes := OpsOf(AfterDeleted(s, before, path));
      TrailJoin(deletes, OpsOf(ServiceActions(s, after.value, proxy, path)), r, v);
      HookTrail(s, before, path, r, v);
      ServiceTrail(s, after.value, proxy, path, r, Trail(deletes, r, v));
    }
  }

  lemma {:induction false} LeftAllWithin(s: Settings, olds: seq<Deployment>, news: seq<Deployment>, path: Path, r: PlainResource)
    requires !(path < r.path)
    ensures LeftAll(s, olds, news, path, r) == None
    ensures AtAll(s, olds, path, r) == None
    decreases |news|
  {
    AtAllOutside(s, olds, path, r);
    if news != [] {
      assert path < path + [news[0].name];
      LeftAllWithin(s, olds, news[1..], path, r);
    }
  }

  lemma {:induction false} AtAllOutside(s: Settings, ds: seq<Deployment>, path: Path, r: PlainResource)
    requires !(path < r.path)
    ensures AtAll(s, ds, path, r) == None
    decreases |ds|
  {
    if ds != [] {
      assert path < path + [ds[0].name];
      AtAllOutside(s, ds[1..], path, r);
    }
  }

  /** Performed from left to right, an update leaves what `Left` says. */
  lemma {:induction false} UpdateLeaves(s: Settings, b: Deployment, a: Deployment, path: Path, r: PlainResource)
    requires WellNamed(b) && WellNamed(a) && SameKind(b, a)
    ensures Trail(OpsOf(UpdatePlan(s, b, a, path)), r, At(s, b, path, r)) == Left(s, b, a, path, r)
    decreases a, 0, 0
  {
    var v := At(s, b, path, r);
    match (b, a) {
      case (Vm(_, _, _, _, _, _, _), Vm(_, _, _, _, _, _, _)) =>
        UpdateVmLeaves(s, b, a, path, r);
      case (Environment(_, _), Environment(_, attributes)) =>
        OpsOfTwo(Act(DeleteEnvironment(path)), Act(CreateEnvironment(path, attributes)));
        TrailTwo(DeleteEnvironment(path), CreateEnvironment(path, attributes), r, v);
      case (External(_), External(_)) =>
      case (Composite(_, bService, olds), Composite(_, aService, news)) =>
        var level := LevelOps(s, olds, news, path);
        UpdateOps(s, b, a, path);
        TrailJoin(level, OpsOf(AfterUpdated(s, bService, aService, path)), r, v);
        LevelTrail(s, olds, news, path, r, v);
        UpdateHookTrail(s, bService, aService, path, r, Trail(level, r, v));
        if !(path < r.path) {
          LeftAllWithin(s, olds, news, path, r);
        }
    }
  }
}
